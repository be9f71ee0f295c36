/**
 Finalizer editing with optimistic concurrency. Any number of clients run get-modify-update attempts, with
 conflict retry, against one stored object; reads may be served by a cache that lags behind the store.
 */
module Finalizers {

  /** One stored version of the object, as far as finalizer editing looks at it. */
  datatype Obj = Obj(finalizers: set<string>, deleting: bool)

  predicate HasFinalizer<F(==)>(finalizers: set<F>, names: set<F>) {
    names <= finalizers
  }

  predicate HasAnyFinalizer<F(==)>(finalizers: set<F>, names: set<F>) {
    finalizers * names != {}
  }

  predicate HasOnlyFinalizer<F(==)>(finalizers: set<F>, name: F) {
    name in finalizers && |finalizers| == 1
  }

  /** Counting to one is the same as there being nothing else. */
  lemma HasOnlyExact<F>(finalizers: set<F>, name: F)
    ensures HasOnlyFinalizer(finalizers, name) <==> finalizers == {name}
  {
    if name in finalizers && |finalizers| == 1 {
      assert |finalizers - {name}| == 0;
    }
  }

  datatype Op = Remove(names: set<string>) | Add(names: set<string>)

  /** What an attempt decides from the object it fetched: the finalizers to send, or nothing to do. */
  function Edited(op: Op, fetched: Obj): set<string> {
    match op
    case Remove(names) => fetched.finalizers - names
    case Add(names) => if fetched.deleting then fetched.finalizers else fetched.finalizers + names
  }

  // ---------- the clients and the store ----------

  const ATTEMPTS := 5  // retry.DefaultRetry

  datatype Outcome = Nil | Failed

  datatype Pc =
    | Fetching(attempt: nat)               // about to get the object
    | Fetched(base: nat, attempt: nat)     // holds version `base`, about to decide and update
    | Returned(outcome: Outcome, base: nat) // `base` is the version the call last looked at

  datatype Client = Client(op: Op, pc: Pc)

  datatype State = State(history: seq<Obj>, clients: map<nat, Client>)

  predicate WellFormed(s: State) {
    && s.history != []
    && (forall c :: c in s.clients && s.clients[c].pc.Fetched? ==> s.clients[c].pc.base < |s.history|)
    && (forall c :: c in s.clients && s.clients[c].pc.Returned? ==> s.clients[c].pc.base < |s.history|)
  }

  type System = s: State | WellFormed(s) witness State([Obj({}, false)], map[])

  function Last(s: System): nat { |s.history| - 1 }

  function Stored(s: System): Obj { s.history[Last(s)] }

  /** A deleting object without finalizers is removed by the API server. */
  predicate Gone(s: System) { Stored(s).deleting && Stored(s).finalizers == {} }

  datatype Step =
    | Begin(c: nat, op: Op)      // a client issues a call
    | Fetch(c: nat, base: nat)   // its Get is answered with some version, possibly an old one
    | FetchGone(c: nat)          // its Get is answered "not found"
    | Commit(c: nat)             // it decides and, if need be, its Update reaches the server
    | CommitLost(c: nat)         // the same, but the answer to the Update is lost
    | Fail(c: nat)               // its API call fails without effect
    | Delete                     // somebody deletes the object

  predicate At(s: System, c: nat, fetched: bool) {
    c in s.clients && if fetched then s.clients[c].pc.Fetched? else s.clients[c].pc.Fetching?
  }

  function SetPc(s: System, c: nat, pc: Pc): System
    requires c in s.clients
    requires pc.Fetched? || pc.Returned? ==> pc.base < |s.history|
  {
    s.(clients := s.clients[c := s.clients[c].(pc := pc)])
  }

  /** There is something to update. */
  predicate Sends(s: System, c: nat)
    requires At(s, c, true)
  {
    var obj := s.history[s.clients[c].pc.base];
    Edited(s.clients[c].op, obj) != obj.finalizers
  }

  /** The update a commit sends, if any, is accepted exactly when it starts from the stored version. */
  predicate Accepted(s: System, c: nat)
    requires At(s, c, true)
  {
    Sends(s, c) && s.clients[c].pc.base == Last(s) && !Gone(s)
  }

  function TryCommit(s: System, c: nat): System
    requires At(s, c, true)
  {
    var client := s.clients[c];
    var base, attempt := client.pc.base, client.pc.attempt;
    var obj := s.history[base];
    if !Sends(s, c) then
      SetPc(s, c, Returned(Nil, base))
    else if Gone(s) then
      SetPc(s, c, Returned(Failed, base))
    else if base == Last(s) then
      SetPc(s.(history := s.history + [obj.(finalizers := Edited(client.op, obj))]), c, Returned(Nil, base + 1))
    else if attempt + 1 < ATTEMPTS then
      SetPc(s, c, Fetching(attempt + 1))
    else
      SetPc(s, c, Returned(Failed, base))
  }

  /** One step; a step that is not possible in the state leaves it unchanged. */
  function Apply(s: System, step: Step): System {
    match step
    case Begin(c, op) =>
      if c in s.clients && !s.clients[c].pc.Returned? then s
      else s.(clients := s.clients[c := Client(op, Fetching(0))])
    case Fetch(c, base) =>
      if At(s, c, false) && base < |s.history| && !(Gone(s) && base == Last(s))
      then SetPc(s, c, Fetched(base, s.clients[c].pc.attempt)) else s
    case FetchGone(c) =>
      if At(s, c, false) && Gone(s)
      then SetPc(s, c, Returned(if s.clients[c].op.Remove? then Nil else Failed, Last(s))) else s
    case Commit(c) => if At(s, c, true) then TryCommit(s, c) else s
    case CommitLost(c) =>
      if At(s, c, true) && Sends(s, c) then SetPc(TryCommit(s, c), c, Returned(Failed, s.clients[c].pc.base)) else s
    case Fail(c) =>
      if At(s, c, false) || At(s, c, true) then SetPc(s, c, Returned(Failed, Last(s))) else s
    case Delete =>
      if Stored(s).deleting then s else s.(history := s.history + [Stored(s).(deleting := true)])
  }

  function Exec(s: System, steps: seq<Step>): System
    decreases |steps|
  {
    if steps == [] then s else Exec(Apply(s, steps[0]), steps[1..])
  }

  // ---------- no lost update ----------

  /** The step has its update accepted, whether or not the client learns of it. */
  ghost predicate Lands(s: System, step: Step) {
    (step.Commit? || step.CommitLost?) && At(s, step.c, true) && Accepted(s, step.c)
  }

  /** The operations whose updates a run gets accepted, in the order of acceptance. */
  ghost function AcceptedOps(s: System, steps: seq<Step>): seq<Op>
    decreases |steps|
  {
    if steps == [] then []
    else
      var rest := AcceptedOps(Apply(s, steps[0]), steps[1..]);
      if Lands(s, steps[0]) then [s.clients[steps[0].c].op] + rest else rest
  }

  /** Operations performed one after the other, each on what the one before left. */
  ghost function Replay(finalizers: set<string>, ops: seq<Op>): set<string>
    decreases |ops|
  {
    if ops == [] then finalizers else Replay(Performed(finalizers, ops[0]), ops[1..])
  }

  /** What one operation makes of the finalizers when it is performed alone and in full. */
  function Performed(finalizers: set<string>, op: Op): set<string> {
    match op
    case Remove(names) => finalizers - names
    case Add(names) => finalizers + names
  }

  /** A step whose update lands performs its operation on the stored object; every other step leaves it alone. */
  lemma StepEffect(s: System, step: Step)
    ensures Stored(Apply(s, step)).finalizers ==
            if Lands(s, step) then Performed(Stored(s).finalizers, s.clients[step.c].op) else Stored(s).finalizers
    ensures Stored(s).deleting ==> Stored(Apply(s, step)).deleting && (Lands(s, step) ==> s.clients[step.c].op.Remove?)
  {
  }

  /**
   No lost update: however the clients race, and whether or not they learn of it, the stored finalizers are what the
   accepted operations produce when each is performed alone, in full, one after the other; and an addition is only
   accepted before deletion starts.
   */
  lemma {:induction false} NoLostUpdate(s: System, steps: seq<Step>)
    ensures Stored(Exec(s, steps)).finalizers == Replay(Stored(s).finalizers, AcceptedOps(s, steps))
    ensures Stored(s).deleting ==>
              Stored(Exec(s, steps)).deleting && forall op :: op in AcceptedOps(s, steps) ==> op.Remove?
    decreases |steps|
  {
    if steps == [] {
      assert Exec(s, steps) == s && AcceptedOps(s, steps) == [];
    } else {
      hide Apply, Lands, Performed;
      StepEffect(s, steps[0]);
      NoLostUpdate(Apply(s, steps[0]), steps[1..]);
      assert Lands(s, steps[0]) ==> AcceptedOps(s, steps)[1..] == AcceptedOps(Apply(s, steps[0]), steps[1..]);
    }
  }

  // ---------- deleting objects only shrink ----------

  ghost predicate Shrinks(older: Obj, newer: Obj) {
    older.deleting ==> newer.deleting && newer.finalizers <= older.finalizers
  }

  /** What holds in every reachable state. */
  ghost predicate Inv(s: System) {
    && (forall i, j :: 0 <= i <= j < |s.history| ==> Shrinks(s.history[i], s.history[j]))
    && (forall c :: c in s.clients ==> Settled(s, s.clients[c]))
  }

  /**
   What a nil answer means for the version the call last looked at: a removal finds its names gone from it, an addition
   finds them all there unless the object was being deleted. No call tries more than five times.
   */
  ghost predicate Settled(s: System, client: Client) {
    && (client.pc.Returned? && client.pc.outcome == Nil && client.pc.base < |s.history| ==>
          var obj := s.history[client.pc.base];
          match client.op
          case Remove(names) => obj.finalizers !! names
          case Add(names) => names <= obj.finalizers || obj.deleting)
    && (client.pc.Fetching? || client.pc.Fetched? ==> client.pc.attempt < 5)
  }

  lemma ApplyShrinks(s: System, step: Step)
    requires forall i, j :: 0 <= i <= j < |s.history| ==> Shrinks(s.history[i], s.history[j])
    ensures var h := Apply(s, step).history;
            s.history <= h && forall i, j :: 0 <= i <= j < |h| ==> Shrinks(h[i], h[j])
  {
    var t := Apply(s, step);
    assert t.history == s.history || t.history == s.history + [Stored(t)];
    assert Shrinks(Stored(s), Stored(t));
    forall i | 0 <= i < |s.history| ensures Shrinks(s.history[i], Stored(t)) {
      assert Shrinks(s.history[i], Stored(s));
    }
  }

  lemma InvStep(s: System, step: Step)
    requires Inv(s)
    ensures Inv(Apply(s, step))
  {
    var t := Apply(s, step);
    ApplyShrinks(s, step);
    forall c | c in t.clients ensures Settled(t, t.clients[c]) {
      assert c in s.clients ==> Settled(s, s.clients[c]);
      if (step.Commit? || step.CommitLost?) && step.c == c && At(s, c, true) { CommitSettles(s, c); }
    }
  }

  /** A commit leaves its client with an answer that means what it says. */
  lemma CommitSettles(s: System, c: nat)
    requires At(s, c, true) && Settled(s, s.clients[c])
    ensures Settled(TryCommit(s, c), TryCommit(s, c).clients[c])
  {
    var client := s.clients[c];
    assert client.op.Remove? ==> s.history[client.pc.base].finalizers - client.op.names !! client.op.names;
    if !Sends(s, c) && client.op.Remove? {
      assert s.history[client.pc.base].finalizers == s.history[client.pc.base].finalizers - client.op.names;
    }
  }

  /** The fetched version leaves the operation nothing to do. */
  predicate NothingToDo(op: Op, obj: Obj) {
    match op
    case Remove(names) => obj.finalizers !! names
    case Add(names) => obj.deleting || names <= obj.finalizers
  }

  /**
   What an attempt does, in all cases: nothing and a nil answer when there is nothing to do, an error when the object is
   gone, the whole operation and a nil answer when the fetched version is the stored one, and otherwise another attempt,
   up to the fifth, which ends in an error.
   */
  lemma CommitExact(s: System, c: nat)
    requires At(s, c, true)
    ensures var op, base, attempt := s.clients[c].op, s.clients[c].pc.base, s.clients[c].pc.attempt;
            var obj, t := s.history[base], Apply(s, Commit(c));
            var pc := t.clients[c].pc;
            && (NothingToDo(op, obj) ==> pc == Returned(Nil, base) && t.history == s.history)
            && (!NothingToDo(op, obj) && Gone(s) ==> pc == Returned(Failed, base) && t.history == s.history)
            && (!NothingToDo(op, obj) && !Gone(s) && base == Last(s) ==>
                  && pc == Returned(Nil, base + 1)
                  && t.history == s.history + [obj.(finalizers := Performed(obj.finalizers, op))])
            && (!NothingToDo(op, obj) && !Gone(s) && base != Last(s) ==>
                  && pc == (if attempt < 4 then Fetching(attempt + 1) else Returned(Failed, base))
                  && t.history == s.history)
  {
    var op, obj := s.clients[c].op, s.history[s.clients[c].pc.base];
    match op {
      case Remove(names) => assert obj.finalizers !! names <==> obj.finalizers - names == obj.finalizers;
      case Add(names) => assert names <= obj.finalizers <==> obj.finalizers + names == obj.finalizers;
    }
  }

  /** An object that is gone is fine for a removal and an error for an addition. */
  lemma NotFoundExact(s: System, c: nat)
    requires At(s, c, false) && Gone(s)
    ensures var t := Apply(s, FetchGone(c));
            && t.history == s.history
            && t.clients[c].pc == Returned(if s.clients[c].op.Remove? then Nil else Failed, Last(s))
  {
  }

  /**
   In every run a nil answer means that some stored version had the names removed,
   or had them all or was being deleted.
   */
  lemma NilAnswerExact(s: System, steps: seq<Step>, c: nat)
    requires Inv(s)
    ensures var t := Exec(s, steps);
            c in t.clients && t.clients[c].pc.Returned? && t.clients[c].pc.outcome == Nil ==>
              var obj := t.history[t.clients[c].pc.base];
              match t.clients[c].op
              case Remove(names) => obj.finalizers !! names
              case Add(names) => names <= obj.finalizers || obj.deleting
  {
    InvExec(s, steps);
    assert forall d :: d in Exec(s, steps).clients ==> Settled(Exec(s, steps), Exec(s, steps).clients[d]);
  }

  lemma {:induction false} InvExec(s: System, steps: seq<Step>)
    requires Inv(s)
    ensures Inv(Exec(s, steps))
    ensures s.history <= Exec(s, steps).history
    decreases |steps|
  {
    if steps == [] {
    } else {
      InvStep(s, steps[0]);
      ApplyShrinks(s, steps[0]);
      InvExec(Apply(s, steps[0]), steps[1..]);
    }
  }

  /**
   Once a removal returned nil having looked at a deleting version, its names are gone for the rest of every run:
   no interleaving of other removals, additions, failures and stale reads brings one back.
   */
  lemma RemovedForGood(s: System, c: nat, steps: seq<Step>)
    requires Inv(s) && c in s.clients
    requires s.clients[c].op.Remove? && s.clients[c].pc.Returned? && s.clients[c].pc.outcome == Nil
    requires s.history[s.clients[c].pc.base].deleting
    ensures Stored(Exec(s, steps)).deleting
    ensures Stored(Exec(s, steps)).finalizers !! s.clients[c].op.names
  {
    InvExec(s, steps);
    var t, base := Exec(s, steps), s.clients[c].pc.base;
    assert Settled(s, s.clients[c]);
    assert t.history[base] == s.history[base];
    assert Shrinks(t.history[base], Stored(t));
  }

  /** Absent names stay absent in every continuation exactly when the stored object is deleting. */
  lemma GoneForGoodExact(s: System, names: set<string>, c: nat)
    requires Inv(s) && names != {}
    requires Stored(s).finalizers !! names
    requires c !in s.clients
    ensures Stored(s).deleting <==> forall steps :: Stored(Exec(s, steps)).finalizers !! names
  {
    if Stored(s).deleting {
      forall steps ensures Stored(Exec(s, steps)).finalizers !! names {
        InvExec(s, steps);
        var t := Exec(s, steps);
        assert t.history[Last(s)] == Stored(s);
        assert Shrinks(t.history[Last(s)], Stored(t));
      }
    } else {
      Readded(s, names, c);
    }
  }

  lemma Readded(s: System, names: set<string>, c: nat)
    requires names != {} && Stored(s).finalizers !! names && c !in s.clients && !Stored(s).deleting
    ensures exists steps :: !(Stored(Exec(s, steps)).finalizers !! names)
  {
    var s1 := Apply(s, Begin(c, Add(names)));
    var s2 := Apply(s1, Fetch(c, Last(s)));
    var s3 := Apply(s2, Commit(c));
    var n :| n in names;
    assert n in Stored(s3).finalizers;
    assert [Begin(c, Add(names))] == [] + [Begin(c, Add(names))];
    ExecSnoc(s, [], Begin(c, Add(names)));
    ExecSnoc(s, [Begin(c, Add(names))], Fetch(c, Last(s)));
    ExecSnoc(s, [Begin(c, Add(names))] + [Fetch(c, Last(s))], Commit(c));
    assert !(Stored(Exec(s, [Begin(c, Add(names))] + [Fetch(c, Last(s))] + [Commit(c)])).finalizers !! names);
  }

  lemma {:induction false} ExecSnoc(s: System, steps: seq<Step>, last: Step)
    ensures Exec(s, steps + [last]) == Apply(Exec(s, steps), last)
    decreases |steps|
  {
    if steps == [] {
      assert (steps + [last])[1..] == [];
      assert Exec(Apply(s, last), []) == Apply(s, last);
    } else {
      assert (steps + [last])[1..] == steps[1..] + [last];
      ExecSnoc(Apply(s, steps[0]), steps[1..], last);
    }
  }

  /**
   Looking at a deleting version is needed: whatever the object carries, a removal served an older copy without the
   names returns nil although the object, deleting by then, carries them all.
   */
  lemma StaleNilReturn(has: set<string>, names: set<string>) returns (s: System, steps: seq<Step>)
    requires names != {} && has !! names
    ensures s == State([Obj(has, false)], map[])
    ensures var t := Exec(s, steps);
            && 0 in t.clients && t.clients[0].op == Remove(names)
            && t.clients[0].pc.Returned? && t.clients[0].pc.outcome == Nil
            && Stored(t).deleting && names <= Stored(t).finalizers
  {
    s, steps := State([Obj(has, false)], map[]), [];
    StaleFetches(s, has, names);
    StaleCommit(BothFetched(has, names), has, names);
    var t := s;
    t, steps := Extend(s, steps, t, Begin(0, Remove(names)));
    t, steps := Extend(s, steps, t, Fetch(0, 0));
    t, steps := Extend(s, steps, t, Begin(1, Add(names)));
    t, steps := Extend(s, steps, t, Fetch(1, 0));
    t, steps := Extend(s, steps, t, Commit(1));
    t, steps := Extend(s, steps, t, Delete);
    t, steps := Extend(s, steps, t, Commit(0));
  }

  /** A client about to remove the names and one about to add them hold the same version. */
  ghost function BothFetched(has: set<string>, names: set<string>): System {
    State([Obj(has, false)], map[0 := Client(Remove(names), Fetched(0, 0)), 1 := Client(Add(names), Fetched(0, 0))])
  }

  lemma StaleFetches(s: System, has: set<string>, names: set<string>)
    requires s == State([Obj(has, false)], map[])
    ensures Apply(Apply(Apply(Apply(s, Begin(0, Remove(names))), Fetch(0, 0)), Begin(1, Add(names))), Fetch(1, 0)) ==
            BothFetched(has, names)
  {
    var t := Apply(Apply(s, Begin(0, Remove(names))), Fetch(0, 0));
    assert t == State([Obj(has, false)], map[0 := Client(Remove(names), Fetched(0, 0))]);
  }

  lemma StaleCommit(t: System, has: set<string>, names: set<string>)
    requires names != {} && has !! names && t == BothFetched(has, names)
    ensures var u := Apply(Apply(Apply(t, Commit(1)), Delete), Commit(0));
            && 0 in u.clients && u.clients[0] == Client(Remove(names), Returned(Nil, 0))
            && Stored(u) == Obj(has + names, true)
  {
    var n :| n in names;
    assert n in has + names && n !in has && has - names == has;
    assert Stored(Apply(t, Commit(1))) == Obj(has + names, false);
  }

  lemma Extend(s: System, steps: seq<Step>, t: System, last: Step) returns (u: System, more: seq<Step>)
    requires t == Exec(s, steps)
    ensures u == Apply(t, last) && more == steps + [last] && u == Exec(s, more)
  {
    u, more := Apply(t, last), steps + [last];
    ExecSnoc(s, steps, last);
  }
}
