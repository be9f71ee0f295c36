/**
 Runs of the deletion controller: what happens before and to each of its calls, how two moments of a run relate, and
 what its single calls keep.
 */
module Runs {
  import opened StringSets
  import opened World
  import opened Ledger
  import opened Progress
  import F = Finalizers

  datatype Outcome = Succeeds | FailsBefore | FailsAfter

  /** What happens before and to one call. */
  datatype Turn = Turn(events: seq<Event>, outcome: Outcome)

  type Script = nat -> Turn

  /** Nobody else moves and no call fails. */
  ghost predicate Quiet(script: Script) {
    forall i :: script(i) == Turn([], Succeeds)
  }

  /** No call fails, and the others only finish what was started. */
  ghost predicate Cooperative(script: Script) {
    forall i :: script(i).outcome == Succeeds
             && forall k :: 0 <= k < |script(i).events| ==> Benign(script(i).events[k])
  }

  /** The call at hand succeeds undisturbed and the next one fails without effect. */
  predicate PatchLost(script: Script, tick: nat) {
    script(tick) == Turn([], Succeeds) && script(tick + 1) == Turn([], FailsBefore)
  }

  /** Deletion and patch take effect undisturbed, but the answer to the patch is lost, or the first poll fails. */
  predicate BrokenOff(script: Script, tick: nat) {
    && script(tick) == Turn([], Succeeds)
    && (|| script(tick + 1) == Turn([], FailsAfter)
        || (script(tick + 1) == Turn([], Succeeds) && script(tick + 2) == Turn([], FailsBefore)))
  }

  datatype Reply = Ok | NotFound | Conflict | Failed

  const POLLS: nat := 500  // every ten milliseconds for five seconds

  // ---------- relations between two moments of a run ----------

  /** Between two moments nothing was undone and, with a cooperative environment, work was done or nothing changed. */
  ghost predicate Onward(cfg: Config, cooperative: bool, a: World, b: World) {
    Steady(a, b) && (cooperative ==> Moves(cfg, a, b))
  }

  /** The same, and nobody wrote the annotation. */
  ghost predicate Calmly(cfg: Config, cooperative: bool, a: World, b: World) {
    Onward(cfg, cooperative, a, b) && SameAnnotation(a.store, b.store)
  }

  lemma OnwardTransitive(cfg: Config, cooperative: bool, a: World, b: World, c: World)
    requires Onward(cfg, cooperative, a, b) && Onward(cfg, cooperative, b, c)
    ensures Onward(cfg, cooperative, a, c)
    ensures cooperative && c == a ==> b == a
  {
  }

  lemma CalmlyTransitive(cfg: Config, cooperative: bool, a: World, b: World, c: World)
    requires Calmly(cfg, cooperative, a, b) && Calmly(cfg, cooperative, b, c)
    ensures Calmly(cfg, cooperative, a, c)
    ensures cooperative && c == a ==> b == a
  {
    OnwardTransitive(cfg, cooperative, a, b, c);
    SameAnnotationTransitive(a.store, b.store, c.store);
  }

  /** The stored finalizers that only the controller removes. */
  ghost function Kept(s: Store): set<Finalizer> {
    if s.versions == [] then {} else Current(s).finalizers * GUARDED
  }

  lemma TameKept(cfg: Config, w: World, v: World)
    requires Tame(cfg, w, v)
    ensures Kept(v.store) == Kept(w.store)
  {
  }

  lemma Bounds(w: World)
    requires WellFormed(w)
    ensures w.store.versions != [] && w.store.cached < |w.store.versions|
  {
  }

  lemma StoredNormal(w: World, j: nat)
    requires WellFormed(w) && j < |w.store.versions|
    ensures Normal(w.store.versions[j].annotation)
  {
  }

  /** What holds at one moment and therefore at every later one. */
  lemma SteadyKeeps(cfg: Config, w: World, v: World)
    requires Steady(w, v)
    ensures w.store.versions != [] && v.store.versions != [] && Held(v) <= Held(w)
    ensures (ConstraintsDone(cfg, w) ==> ConstraintsDone(cfg, v)) && (InClusterDone(w) ==> InClusterDone(v))
    ensures (NoClaims(w.storage) ==> NoClaims(v.storage)) && (NoVolumes(w.storage) ==> NoVolumes(v.storage))
  {
  }

  lemma ClaimsShrink(a: World, b: World)
    requires Steady(a, b)
    ensures a.storage.webhook ==> b.storage.webhook && b.storage.claims.live <= a.storage.claims.live
    ensures ClaimsDoomed(a.storage) ==> ClaimsDoomed(b.storage)
  {
  }

  /** The same when nobody wrote the annotation. */
  lemma CalmlyKeeps(cfg: Config, cooperative: bool, a: World, b: World)
    requires Calmly(cfg, cooperative, a, b)
    ensures Steady(a, b) && a.store.versions != [] && b.store.versions != [] && Held(b) <= Held(a)
    ensures (ConstraintsDone(cfg, a) ==> ConstraintsDone(cfg, b)) && (InClusterDone(a) ==> InClusterDone(b))
    ensures (NoClaims(a.storage) ==> NoClaims(b.storage)) && (NoVolumes(a.storage) ==> NoVolumes(b.storage))
    ensures Current(b.store).annotation == Current(a.store).annotation && (cooperative ==> MovesOn(cfg, a, b, {}))
  {
    hide NoClaims, NoVolumes, ConstraintsDone, InClusterDone, MovesOn;
    SteadyKeeps(cfg, a, b);
  }

  lemma LastingStays(cfg: Config, cooperative: bool, a: World, b: World, uid: string)
    requires Calmly(cfg, cooperative, a, b)
    ensures Lasting(a.store, uid) ==> Lasting(b.store, uid)
  {
    hide Parse;
    var s, t := a.store, b.store;
    forall j, k | Lasting(s, uid) && t.cached <= j <= k < |t.versions| && HasUid(t, j, uid) ensures HasUid(t, k, uid) {
      assert HasUid(s, if j < |s.versions| then j else Last(s), uid);
      assert HasUid(s, if k < |s.versions| then k else Last(s), uid);
    }
  }

  lemma AllLastingStays(cfg: Config, cooperative: bool, a: World, b: World)
    requires Calmly(cfg, cooperative, a, b)
    ensures AllLasting(a.store) ==> AllLasting(b.store)
  {
    hide Calmly, Lasting;
    forall uid ensures Lasting(a.store, uid) ==> Lasting(b.store, uid) { LastingStays(cfg, cooperative, a, b, uid); }
  }

  lemma UniformLasts(s: Store)
    ensures Uniform(s) ==> AllLasting(s)
  {
    hide Parse;
  }

  lemma AllLastingAt(s: Store, uid: string)
    ensures AllLasting(s) ==> Lasting(s, uid)
  {
  }

  lemma CalmlyReflexive(cfg: Config, cooperative: bool, a: World)
    requires WellFormed(a)
    ensures Calmly(cfg, cooperative, a, a)
  {
  }

  /** Whatever version the lister serves, its annotation is the stored one. */
  predicate Uniform(s: Store) {
    && s.versions != []
    && forall j :: s.cached <= j < |s.versions| ==> s.versions[j].annotation == Current(s).annotation
  }

  lemma UniformStable(s: Store, t: Store)
    requires StoreOk(s) && StoreOk(t) && Uniform(s) && StoreSteady(s, t) && SameAnnotation(s, t)
    ensures Uniform(t) && Current(t).annotation == Current(s).annotation
    ensures t.versions[t.cached].annotation == Current(t).annotation
  {
    assert Current(t).annotation == Current(s).annotation;
    forall j | t.cached <= j < |t.versions| ensures t.versions[j].annotation == Current(t).annotation {
      if j < |s.versions| { assert t.versions[j] == s.versions[j]; }
    }
  }

  lemma UniformIn(cfg: Config, w: World, v: World)
    requires WellFormed(w) && WellFormed(v) && (Calmly(cfg, false, w, v) || Calmly(cfg, true, w, v)) && Uniform(w.store)
    ensures Uniform(v.store) && Current(v.store).annotation == Current(w.store).annotation
    ensures v.store.versions[v.store.cached].annotation == Current(v.store).annotation
  {
    UniformStable(w.store, v.store);
  }

  /** The world after an undisturbed removal of finalizers. */
  function DroppedFrom(w: World, names: set<Finalizer>): World {
    if w.store.versions == [] then w
    else w.(store := Put(w.store, Current(w.store).(finalizers := Current(w.store).finalizers - names)))
  }

  /**
   What an undisturbed removal of finalizers does: nothing if the served version has none of them, the removal if that
   version is the stored one, and otherwise, after as many conflicts as there are attempts, nothing but an error.
   */
  ghost predicate Removed(w: World, v: World, names: set<Finalizer>, err: bool)
    requires w.store.versions != [] && w.store.cached < |w.store.versions|
  {
    if w.store.versions[w.store.cached].finalizers !! names then !err && v == w
    else if w.store.cached == Last(w.store) then !err && v == DroppedFrom(w, names)
    else err && v == w
  }

  lemma RemovedStored(w: World, v: World, names: set<Finalizer>, err: bool)
    requires w.store.versions != [] && w.store.cached < |w.store.versions|
    ensures Removed(w, v, names, err) && w.store.cached == Last(w.store) && !(Held(w) !! names) ==>
              !err && v == DroppedFrom(w, names)
  {
  }

  /**
   The copy that an undisturbed removal leaves: what is stored or, if there was nothing to remove, what the lister
   serves; of a Cluster that is gone no copy is served.
   */
  ghost predicate CopyServed(w: World, copy: Cluster, names: set<Finalizer>, v: World, next: Cluster)
    requires w.store.versions != [] && w.store.cached < |w.store.versions| && v.store.versions != []
  {
    var s := w.store;
    if s.versions[s.cached].finalizers !! names
    then next == if s.cached == Last(s) && Gone(s) then copy else s.versions[s.cached]
    else s.cached == Last(s) ==> next == Current(v.store)
  }

  /** The lister serves an older version, with some of the finalizers. */
  predicate Lags(s: Store, names: set<Finalizer>)
    requires s.versions != [] && s.cached < |s.versions|
  {
    s.cached < Last(s) && !(s.versions[s.cached].finalizers !! names)
  }

  lemma DropWeight(cfg: Config, w: World, c: Cluster)
    requires w.store.versions != [] && w.store.cached <= Last(w.store) && c.annotation == Current(w.store).annotation
    requires c.finalizers < Held(w)
    ensures MovesOn(cfg, w, w.(store := Put(w.store, c)), {})
  {
    hide Parse, PoolWeight, StorageWeight, FleetWeight, SeedWeight, ClockWeight;
    Fewer(c.finalizers, Held(w));
    assert Unrecorded(w.(store := Put(w.store, c))) == Unrecorded(w);
  }

  /** Removing finalizers by an accepted update is a step onward. */
  lemma DropMoves(cfg: Config, w: World, names: set<Finalizer>)
    requires WellFormed(w) && !(Held(w) !! names)
    ensures var c := Current(w.store).(finalizers := Held(w) - names);
            var v := w.(store := Put(w.store, c));
            WellFormed(v) && Calmly(cfg, true, w, v) && v != w && Current(v.store) == c
  {
    hide MovesOn, Normal, BalancersOk;
    var c := Current(w.store).(finalizers := Held(w) - names);
    PutOk(w.store, c);
    DropWeight(cfg, w, c);
  }

  // ---------- effects of single calls ----------

  lemma FleetStep(cfg: Config, w: World, f: Fleet)
    requires WellFormed(w) && FleetSteady(w.fleet, f) && (f == w.fleet || FleetWeight(f) < FleetWeight(w.fleet))
    ensures WellFormed(w.(fleet := f)) && Calmly(cfg, true, w, w.(fleet := f))
  {
  }

  lemma StorageStep(cfg: Config, w: World, s: Storage)
    requires WellFormed(w) && StorageSteady(w.storage, s)
    requires s == w.storage || StorageWeight(s) < StorageWeight(w.storage)
    ensures WellFormed(w.(storage := s)) && Calmly(cfg, true, w, w.(storage := s))
  {
  }

  lemma SeedStep(cfg: Config, w: World, s: Seed)
    requires WellFormed(w) && (s.secret ==> w.seed.secret) && (s == w.seed || SeedWeight(s) < SeedWeight(w.seed))
    ensures WellFormed(w.(seed := s)) && Calmly(cfg, true, w, w.(seed := s))
  {
  }

  /** Deletion requested for some of the objects. */
  function MarkedSet(p: Pool, names: set<string>): Pool {
    Pool(p.live - names, p.deleting + p.live * names)
  }

  lemma MarkedSetStep(p: Pool, names: set<string>, n: string)
    ensures MarkedSet(p, {}) == p && MarkedSet(p, p.Names()) == MarkedAll(p)
    ensures Marked(MarkedSet(p, names), n) == MarkedSet(p, names + {n}) && MarkedSet(p, names).Names() == p.Names()
  {
  }

  lemma MarkClaim(cfg: Config, w: World, name: string)
    requires WellFormed(w)
    ensures var v := w.(storage := w.storage.(claims := Marked(w.storage.claims, name)));
            && WellFormed(v) && Calmly(cfg, true, w, v)
            && (v == w && name in w.storage.claims.Names() ==> name in w.storage.claims.deleting)
  {
    MarkedWeight(w.storage.claims, name);
    assert Marked(w.storage.claims, name).Names() == w.storage.claims.Names();
    StorageStep(cfg, w, w.storage.(claims := Marked(w.storage.claims, name)));
  }

  function MarkedBackup(w: World, name: string): World {
    w.(seed := w.seed.(backups := Marked(w.seed.backups, name)))
  }

  lemma MarkBackup(cfg: Config, w: World, name: string)
    requires WellFormed(w) && name in w.seed.backups.Names()
    ensures var v := MarkedBackup(w, name);
            && WellFormed(v) && Calmly(cfg, true, w, v) && v.store == w.store && v.lb == w.lb
            && Performed(DeleteBackupConfig, w, v) && (v == w ==> name in w.seed.backups.deleting)
  {
    MarkedWeight(w.seed.backups, name);
    SeedStep(cfg, w, w.seed.(backups := Marked(w.seed.backups, name)));
  }

  // ---------- load balancers ----------

  function MarkedService(w: World, uid: string): World {
    w.(lb := w.lb.(services := Marked(w.lb.services, uid)))
  }

  lemma MarkServiceWeight(cfg: Config, w: World, uid: string, aside: set<string>)
    requires w.store.versions != []
    ensures MovesOn(cfg, w, MarkedService(w, uid), aside)
  {
    hide Parse, PoolWeight, StorageWeight, FleetWeight, SeedWeight, ClockWeight, StoreWeight;
    MarkedWeight(w.lb.services, uid);
    assert Marked(w.lb.services, uid).Names() == w.lb.services.Names();
    assert Unrecorded(MarkedService(w, uid)) == Unrecorded(w);
  }

  lemma MarkService(cfg: Config, w: World, uid: string)
    requires WellFormed(w) && uid in w.lb.services.Names()
    ensures var v := MarkedService(w, uid);
            && WellFormed(v) && Calmly(cfg, true, w, v) && (forall aside :: MovesOn(cfg, w, v, aside))
            && (v == w ==> uid in w.lb.services.deleting)
  {
    hide Normal, MovesOn;
    assert Marked(w.lb.services, uid).Names() == w.lb.services.Names();
    forall aside ensures MovesOn(cfg, w, MarkedService(w, uid), aside) { MarkServiceWeight(cfg, w, uid, aside); }
  }

  predicate Bounded(s: Store) { s.versions != [] && s.cached < |s.versions| }

  /** The world once the annotation, patched from `from`, has the UID. */
  function WithUid(w: World, from: string, uid: string): World {
    if w.store.versions == [] then w else w.(store := Patched(w.store, from, Encode(Parse(from) + {uid})))
  }

  /** Recording a UID on top of what is stored overwrites nothing. */
  lemma InsertingLasts(u: World, from: string, uid: string)
    requires Bounded(u.store) && from == Current(u.store).annotation && Normal(from) && IsUid(uid)
    ensures AllLasting(u.store) ==> AllLasting(WithUid(u, from, uid).store)
  {
    hide Parse, Normal, Lasting, Encode;
    InsertUid(from, uid);
    var to := Encode(Parse(from) + {uid});
    forall x ensures Lasting(u.store, x) ==> Lasting(WithUid(u, from, uid).store, x) {
      if Lasting(u.store, x) { AppendedLasts(u.store, from, to, x); }
    }
  }

  lemma AppendedLasts(s: Store, from: string, to: string, x: string)
    requires Bounded(s) && from == Current(s).annotation && Parse(from) <= Parse(to) && Lasting(s, x)
    ensures Lasting(Patched(s, from, to), x)
  {
    hide Parse;
    var t := Patched(s, from, to);
    forall j, k | t.cached <= j <= k < |t.versions| && HasUid(t, j, x) ensures HasUid(t, k, x) {
      assert j < |s.versions| ==> HasUid(s, j, x) && HasUid(s, Last(s), x) && (k < |s.versions| ==> HasUid(s, k, x));
    }
  }

  lemma PatchedServes(s: Store, from: string, to: string)
    requires Bounded(s)
    ensures var t := Patched(s, from, to);
            Bounded(t) && t.cached == s.cached && t.versions[t.cached] == s.versions[s.cached]
  {
  }

  /** Deleting, recording and waiting for one service: work was done, or everything was in place before. */
  lemma RecordingMoves(cfg: Config, a: World, c: World, u: World, from: string, uid: string)
    requires WellFormed(a) && WellFormed(u) && Normal(from) && IsUid(uid) && Bounded(u.store) && !Gone(u.store)
    requires a.store.versions != [] && from == Current(a.store).annotation == Current(u.store).annotation
    requires uid in a.lb.services.Names() && uid in a.lb.ofType
    requires MovesOn(cfg, a, c, {}) && MovesOn(cfg, c, u, {}) && MovesOn(cfg, a, c, {uid}) && MovesOn(cfg, c, u, {uid})
    ensures Moves(cfg, a, WithUid(u, from, uid))
    ensures WithUid(u, from, uid) == a ==> c == a && u == a && uid in Parse(from)
  {
    hide Normal, Parse, Weight, StoreOk;
    var to := Encode(Parse(from) + {uid});
    InsertUid(from, uid);
    MovesOnTransitive(cfg, a, c, u, {});
    MovesOnTransitive(cfg, a, c, u, {uid});
    if uid !in Parse(from) {
      RecordingPays(cfg, a, u, uid, to);
    }
  }

  /** The ledger after a completed wait. */
  lemma WaitedOk(
    cfg: Config, cooperative: bool, c: World, u: World, e: World, from: string, to: string, uid: string, l: Ledger)
    requires WellFormed(c) && WellFormed(u) && WellFormed(e) && Calmly(cfg, cooperative, c, u) && !Gone(u.store)
    requires Normal(from) && IsUid(uid) && to == Encode(Parse(from) + {uid})
    requires Recorded(c.store, l) && LedgerOk(e, Begun(l, uid)) && Records(from, l)
    requires Calmly(cfg, cooperative, u.(store := Patched(u.store, from, to)), e)
    requires uid in Parse(e.store.versions[e.store.cached].annotation)
    ensures LedgerOk(e, Finished(l, uid, Lasting(u.store, uid)))
    ensures Records(Current(Patched(u.store, from, to)).annotation, Finished(l, uid, Lasting(u.store, uid)))
  {
    hide Normal, Parse, MovesOn, BalancersOk, FleetSteady, StorageSteady, Lasting;
    InsertUid(from, uid);
    RecordedStable(c.store, u.store, l);
    PutOk(u.store, Current(u.store).(annotation := to));
    assert HasUid(e.store, e.store.cached, uid);
    RecordedAfterWait(u.store, e.store, from, to, uid, l);
  }

  lemma BegunOk(w: World, l: Ledger, uid: string)
    requires WellFormed(w) && LedgerOk(w, l) && uid in w.lb.services.Names() * w.lb.ofType
    ensures LedgerOk(w, Begun(l, uid)) && IsUid(uid)
  {
    hide Parse, Normal;
    BegunPending(l, uid);
    forall j: nat | j < |w.store.versions| ensures VersionOk(w.store, j, Begun(l, uid)) {
      assert VersionOk(w.store, j, l);
    }
  }

  lemma ServicesUsed(w: World)
    requires WellFormed(w)
    ensures w.lb.services.Names() <= w.lb.used && forall u :: u in w.lb.services.Names() ==> IsUid(u)
  {
  }

  lemma KeepsType(w: World, v: World, uids: set<string>)
    requires Steady(w, v) && uids <= w.lb.ofType * w.lb.used
    ensures uids <= v.lb.ofType * v.lb.used
  {
  }

  /** Every load-balancer service of the first moment still there at the second was deleted, if any was. */
  ghost predicate BalancersHandled(w: World, v: World, deleted: set<string>, some: bool) {
    var left := w.lb.services.Names() * w.lb.ofType * v.lb.services.Names();
    left <= deleted && (!some ==> left == {})
  }

  /** No load-balancer service of the first moment still there at the second is in doubt. */
  ghost predicate NoneInDoubt(w: World, v: World, doubt: set<string>) {
    w.lb.services.Names() * w.lb.ofType * v.lb.services.Names() !! doubt
  }

  lemma HandledSome(w: World, v: World, deleted: set<string>, some: bool)
    ensures BalancersHandled(w, v, deleted, some) ==> BalancersHandled(w, v, deleted, true)
  {
  }

  lemma ListedHandled(a: World, b: World, c: World, deleted: set<string>)
    requires WellFormed(a) && Steady(a, b) && Steady(b, c)
    ensures BalancersHandled(b, c, deleted, true) ==> BalancersHandled(a, c, deleted, true)
    ensures BalancersHandled(a, b, deleted, true) ==> BalancersHandled(a, c, deleted, true)
  {
    var left := a.lb.services.Names() * a.lb.ofType * c.lb.services.Names();
    assert left <= b.lb.services.Names() * b.lb.ofType * c.lb.services.Names();
    assert left <= a.lb.services.Names() * a.lb.ofType * b.lb.services.Names();
  }

  lemma ListedSure(a: World, b: World, c: World, doubt: set<string>)
    requires WellFormed(a) && Steady(a, b) && Steady(b, c)
    ensures b.lb.services.Names() * b.lb.ofType !! doubt ==> NoneInDoubt(a, c, doubt)
    ensures NoneInDoubt(b, c, doubt) ==> NoneInDoubt(a, c, doubt)
    ensures NoneInDoubt(a, b, doubt) ==> NoneInDoubt(a, c, doubt)
  {
    var left := a.lb.services.Names() * a.lb.ofType * c.lb.services.Names();
    assert left <= b.lb.services.Names() * b.lb.ofType * c.lb.services.Names();
    assert left <= a.lb.services.Names() * a.lb.ofType * b.lb.services.Names();
  }

  /** On the way through a list: the targets passed were deleted and, if that is sure, are on record. */
  ghost predicate Swept(targets: set<string>, todo: set<string>, l: Ledger, some: bool, sure: bool) {
    targets - todo <= l.deleted && (!some ==> targets <= todo) && (sure ==> targets - todo !! l.doubt)
  }

  lemma SweptStart(targets: set<string>, todo: set<string>, l: Ledger, sure: bool)
    requires targets <= todo
    ensures Swept(targets, todo, l, false, sure)
  {
  }

  lemma SweptSkip(targets: set<string>, todo: set<string>, uid: string, l: Ledger, some: bool, sure: bool)
    requires Swept(targets, todo, l, some, sure)
    ensures uid !in targets ==> Swept(targets, todo - {uid}, l, some, sure)
  {
  }

  lemma SweptStep(
    targets: set<string>, todo: set<string>, uid: string, l: Ledger, m: Ledger, some: bool, sure: bool)
    requires Swept(targets, todo, l, some, sure) && l.deleted <= m.deleted && m.doubt <= l.doubt
    requires uid in m.deleted && (sure ==> uid !in m.doubt)
    ensures Swept(targets, todo - {uid}, m, true, sure)
  {
  }

  lemma SweptAll(targets: set<string>, l: Ledger, some: bool, sure: bool)
    requires Swept(targets, {}, l, some, sure)
    ensures targets <= l.deleted && (!some ==> targets == {}) && (sure ==> targets !! l.doubt)
  {
    assert targets - {} == targets;
  }

  lemma HandledGone(w: World, v: World, deleted: set<string>, some: bool)
    ensures BalancersHandled(w, v, deleted, some) && !some ==> AllGone(w, v)
  {
    var there, left := w.lb.services.Names() * w.lb.ofType, v.lb.services.Names();
    assert forall u :: u in there && u in left ==> u in there * left;
  }

  lemma KeptHeld(w: World, v: World)
    requires w.store.versions != [] && v.store.versions != []
    ensures Kept(w.store) == Kept(v.store) ==> (LBCleanup in Held(w) <==> LBCleanup in Held(v))
  {
    assert LBCleanup in Held(w) <==> LBCleanup in Held(w) * GUARDED;
    assert LBCleanup in Held(v) <==> LBCleanup in Held(v) * GUARDED;
  }

  /** A service that was there before a list was taken is on the list, or gone for good. */
  lemma ListedAll(a: World, b: World, c: World, deleted: set<string>, some: bool)
    requires WellFormed(a) && Steady(a, b) && Steady(b, c)
    requires b.lb.services.Names() * b.lb.ofType <= deleted && (!some ==> b.lb.services.Names() * b.lb.ofType == {})
    ensures BalancersHandled(a, c, deleted, some)
  {
    assert a.lb.services.Names() * a.lb.ofType * c.lb.services.Names() <= b.lb.services.Names() * b.lb.ofType;
  }

  lemma BegunRecords(a: string, l: Ledger, uid: string)
    requires Records(a, l)
    ensures Records(a, Begun(l, uid)) && forall b :: Parse(b) == Parse(a) + {uid} ==> Records(b, Begun(l, uid))
  {
    hide Parse;
    BegunPending(l, uid);
  }

  lemma BegunPending(l: Ledger, uid: string)
    ensures Pending(Begun(l, uid)) == Pending(l) && l.deleted <= Begun(l, uid).deleted
  {
  }

  /** The ledger after one more event was seen. */
  lemma SeenOk(w: World, l: Ledger, uid: string)
    requires WellFormed(w) && LedgerOk(w, l) && uid in w.lb.events
    ensures LedgerOk(w, l.(seen := l.seen + {uid}))
    ensures uid !in w.lb.services.Names()
  {
    hide Parse, Normal;
    var more := l.(seen := l.seen + {uid});
    forall j: nat | j < |w.store.versions| ensures VersionOk(w.store, j, more) { assert VersionOk(w.store, j, l); }
  }

  /** Keeping the unconfirmed UIDs keeps everything pending recorded. */
  lemma RetainedRecords(ids: string, keep: set<string>, l: Ledger)
    requires Normal(ids) && keep <= Parse(ids) && Parse(ids) - keep <= l.seen && Records(ids, l)
    ensures Records(Encode(keep), l) && (keep == {} ==> l.deleted - l.doubt <= l.seen)
  {
    hide Parse, Normal;
    RetainUids(ids, keep);
  }

  /** A check that changes nothing finds nothing confirmed. */
  lemma RetainingMoves(cfg: Config, u: World, ids: string, keep: set<string>)
    requires WellFormed(u) && !Gone(u.store) && ids == Current(u.store).annotation && Normal(ids)
    requires keep <= Parse(ids) && (Parse(ids) - keep) !! u.lb.services.Names()
    ensures var d := u.(store := Patched(u.store, ids, Encode(keep)));
            Moves(cfg, u, d) && (d == u ==> keep == Parse(ids))
  {
    hide Parse, Normal, Weight, StoreOk;
    RetainUids(ids, keep);
    if keep != Parse(ids) { RetainingPays(cfg, u, Encode(keep)); }
  }

  lemma QuietCooperates(script: Script)
    ensures Quiet(script) ==> Cooperative(script)
  {
  }

  /** Nothing pending and nothing confirmed still in the cloud. */
  lemma Accounted(cfg: Config, w: World, l: Ledger)
    requires LedgerOk(w, l) && l.deleted - l.doubt <= l.seen
    ensures BalancersAccounted(cfg, w, l)
  {
  }

  lemma NoWait(cfg: Config, w: World, l: Ledger)
    requires NoWaitDue(cfg, w)
    ensures BalancersAccounted(cfg, w, l)
  {
  }

  lemma NoWaitVerdict(sense: Sense, cfg: Config, ids: string, w: World)
    ensures NoWaitDue(cfg, w) ==> Verdict(sense, cfg, ids, w)
  {
  }

  lemma WaitOutstanding(cfg: Config, w: World)
    requires w.store.versions != [] && w.now <= cfg.deletedAt + 7200
    requires Parse(Current(w.store).annotation) - w.lb.events != {}
    ensures Outstanding(cfg, w)
  {
  }

  lemma NonEmptyIds(ids: string)
    requires Normal(ids)
    ensures ids == "" <==> Parse(ids) == {}
  {
    ParseEmpty();
  }

  /** A patch of the annotation that keeps everything recorded undoes nothing. */
  lemma PatchedOk(u: World, from: string, to: string, l: Ledger)
    requires WellFormed(u) && LedgerOk(u, l) && Normal(to) && Records(to, l)
    ensures var v := u.(store := Patched(u.store, from, to));
            WellFormed(v) && LedgerOk(v, l) && Steady(u, v)
  {
    hide Normal, Parse;
    var c := Current(u.store).(annotation := to);
    PutOk(u.store, c);
    PutRecorded(u.store, c, l);
  }

  /** Finalizers whose removal is tied to nothing but the stage of the deletion. */
  lemma FreeDropOk(cfg: Config, sense: Sense, start: World, w: World, l: Ledger, f: Finalizer)
    requires w.store.versions != []
    requires f.ConstraintCleanup? || (InClusterDone(w) && (f.BackupConfigCleanup? || f.RoleBindingCleanup?))
    ensures DropOk(cfg, sense, start, w, l, {f} * Held(w))
  {
  }

  /** All constraints being deleted, and none of them kept by the gatekeeper finalizer. */
  function Drained(s: Seed): Seed {
    s.(constraints := MarkedAll(s.constraints), gatekeeper := s.gatekeeper - s.constraints.Names())
  }

  /** What an undisturbed cleanup of the constraints makes of the world. */
  ghost predicate ConstraintsHandled(w: World, v: World) {
    v == DroppedFrom(w, {ConstraintCleanup}).(seed := Drained(w.seed))
  }

  /** The storage once the pods that mount claims and all claims are being deleted. */
  function Emptied(s: Storage): Storage {
    s.(webhook := true, claims := MarkedAll(s.claims), pods := MarkedSet(s.pods, s.claiming))
  }

  /** What an undisturbed cleanup of the volumes makes of the world. */
  ghost predicate VolumesHandled(w: World, v: World, some: bool) {
    && some == (w.storage.claims.Names() != {} || Managed(w.storage.volumes) != {})
    && v == w.(storage := if some then Emptied(w.storage) else w.storage.(webhook := true))
  }

  /** What an undisturbed cleanup of the backup configurations makes of the world, for a copy with these finalizers. */
  ghost predicate BackupsHandled(w: World, v: World, copy: set<Finalizer>, err: bool)
    requires w.store.versions != [] && w.store.cached < |w.store.versions|
  {
    if BackupConfigCleanup !in copy then !err && v == w
    else if w.seed.backups.Names() != {} then !err && v == w.(seed := w.seed.(backups := MarkedAll(w.seed.backups)))
    else Removed(w, v, {BackupConfigCleanup}, err)
  }

  // ---------- machines ----------

  /** The objects of the level a machine-level act is about. */
  function Level(f: Fleet, act: Act): Pool {
    if act.DeleteDeployment? then f.deployments else if act.DeleteMachineSet? then f.machineSets else f.machines
  }

  function SetLevel(f: Fleet, act: Act, p: Pool): Fleet {
    if act.DeleteDeployment? then f.(deployments := p)
    else if act.DeleteMachineSet? then f.(machineSets := p) else f.(machines := p)
  }

  /** Deletion requested for some, or all, objects of a level. */
  function LevelMarked(w: World, act: Act, names: set<string>): World {
    w.(fleet := SetLevel(w.fleet, act, MarkedSet(Level(w.fleet, act), names)))
  }

  function LevelCleared(w: World, act: Act): World {
    LevelMarked(w, act, Level(w.fleet, act).Names())
  }

  /** The uppermost level that is not empty is cleared. */
  function TornDown(w: World): World {
    if w.fleet.deployments.Names() != {} then LevelCleared(w, DeleteDeployment)
    else if w.fleet.machineSets.Names() != {} then LevelCleared(w, DeleteMachineSet)
    else if w.fleet.machines.Names() != {} then LevelCleared(w, DeleteMachine)
    else w
  }

  /** The same for the machines: a level is cleared or, without any, the finalizer removed. */
  ghost predicate NodesHandled(w: World, v: World, copy: set<Finalizer>, err: bool)
    requires w.store.versions != [] && w.store.cached < |w.store.versions|
  {
    if NodeDeletion !in copy then !err && v == w
    else if !NoMachines(w.fleet) then !err && v == TornDown(w)
    else Removed(w, v, {NodeDeletion}, err)
  }

  /** Every object of the uppermost level that is not empty is being deleted, and the other levels are as before. */
  ghost predicate UppermostCleared(f: Fleet, g: Fleet) {
    if f.deployments.live + f.deployments.deleting != {}
    then && g.deployments.live == {} && g.deployments.deleting == f.deployments.live + f.deployments.deleting
         && g.machineSets == f.machineSets && g.machines == f.machines
    else if f.machineSets.live + f.machineSets.deleting != {}
    then && g.machineSets.live == {} && g.machineSets.deleting == f.machineSets.live + f.machineSets.deleting
         && g.deployments == f.deployments && g.machines == f.machines
    else && g.machines.live == {} && g.machines.deleting == f.machines.live + f.machines.deleting
         && g.deployments == f.deployments && g.machineSets == f.machineSets
  }

  ghost predicate BackupDue(w: World)
    requires w.store.versions != []
  {
    BackupConfigCleanup in Held(w) && w.seed.backups.live + w.seed.backups.deleting == {}
  }

  ghost predicate NodesDue(w: World)
    requires w.store.versions != []
  {
    NodeDeletion in Held(w) && NoMachines(w.fleet)
  }

  /** The first finalizer, in the order of the pass, for which nothing is left to do. */
  ghost function FirstDue(w: World): set<Finalizer>
    requires w.store.versions != []
  {
    if BackupDue(w) then {BackupConfigCleanup}
    else if NodesDue(w) then {NodeDeletion}
    else if RoleBindingCleanup in Held(w) then {RoleBindingCleanup}
    else if Held(w) == {CredentialsCleanup} then {CredentialsCleanup}
    else {}
  }

  /**
   What an undisturbed pass makes of machines, backup configurations and finalizers: none of the three waits for the
   others, but as the lister does not serve the first removal yet, a second one in the same pass fails.
   */
  ghost predicate InfrastructureHandled(w: World, v: World, err: bool)
    requires w.store.versions != [] && v.store.versions != []
  {
    && (if NodeDeletion in Held(w) then UppermostCleared(w.fleet, v.fleet) else v.fleet == w.fleet)
    && v.seed.backups.Names() == w.seed.backups.Names()
    && (if BackupConfigCleanup in Held(w) then v.seed.backups.live == {} else v.seed.backups == w.seed.backups)
    && Held(v) == Held(w) - FirstDue(w)
    && (NodeDeletion in Held(w) && !NoMachines(w.fleet) ==> (err <==> BackupDue(w) && RoleBindingCleanup in Held(w)))
    && v.lb == w.lb && v.storage == w.storage
  }

  /** The finalizer that the cleanup of backup configurations and machines removes. */
  ghost function EarlyDue(w: World): set<Finalizer>
    requires w.store.versions != []
  {
    if BackupDue(w) then {BackupConfigCleanup} else if NodesDue(w) then {NodeDeletion} else {}
  }

  /** What an undisturbed pass has done before it comes to the role bindings. */
  ghost predicate Halfway(w: World, v: World, err: bool)
    requires w.store.versions != []
  {
    && (if NodeDeletion in Held(w) then UppermostCleared(w.fleet, v.fleet) else v.fleet == w.fleet)
    && v.seed.backups.Names() == w.seed.backups.Names()
    && (if BackupConfigCleanup in Held(w) then v.seed.backups.live == {} else v.seed.backups == w.seed.backups)
    && v.store == (if EarlyDue(w) == {} then w.store else DroppedFrom(w, EarlyDue(w)).store)
    && (err <==> BackupDue(w) && NodesDue(w))
    && v.lb == w.lb && v.storage == w.storage
  }

  /** The copy after the cleanup of the backup configurations, and after that of the machines, is what is stored. */
  lemma BackupsFine(a: World, b: World, before: Cluster, copy: Cluster, err: bool)
    requires WellFormed(a) && a.store.cached == Last(a.store) && before == Current(a.store) && b.store.versions != []
    requires BackupsHandled(a, b, before.finalizers, err)
    requires if BackupConfigCleanup in before.finalizers && a.seed.backups.Names() == {}
             then CopyServed(a, before, {BackupConfigCleanup}, b, copy) else copy == before
    ensures !err && copy == Current(b.store)
  {
    hide Normal, Shrinking;
  }

  lemma NodesFine(b: World, c: World, before: Cluster, copy: Cluster)
    requires WellFormed(b) && before == Current(b.store) && c.store.versions != []
    requires NodesHandled(b, c, before.finalizers, false)
    requires if NodeDeletion in before.finalizers && NoMachines(b.fleet)
             then CopyServed(b, before, {NodeDeletion}, c, copy) else copy == before
    ensures copy == Current(c.store)
  {
    hide Normal;
    assert NodeDeletion in Held(b) ==> NodeDeletion in b.store.versions[b.store.cached].finalizers;
  }

  lemma BackupsNodes(a: World, b: World, c: World, copy: set<Finalizer>, err: bool)
    requires WellFormed(a) && a.store.cached == Last(a.store) && BackupsHandled(a, b, Held(a), false)
    requires WellFormed(b) && copy == Held(b) && NodesHandled(b, c, copy, err)
    ensures Halfway(a, c, err)
  {
    hide Normal, Shrinking;
    assert a.seed.backups.Names() == a.seed.backups.live + a.seed.backups.deleting;
    assert BackupDue(a) ==> b.store == Put(a.store, Current(a.store).(finalizers := Held(a) - {BackupConfigCleanup}));
    assert Held(b) == if BackupDue(a) then Held(a) - {BackupConfigCleanup} else Held(a);
    assert b.fleet == a.fleet;
  }

  lemma HalfwayEnds(a: World, c: World)
    requires WellFormed(a) && Halfway(a, c, true)
    ensures InfrastructureHandled(a, c, true)
  {
    hide Normal, Shrinking, UppermostCleared;
  }

  /** What the undisturbed end of a pass, role bindings and credentials, makes of finalizers and Secret. */
  ghost predicate EndHandled(w: World, v: World, err: bool)
    requires w.store.versions != [] && w.store.cached < |w.store.versions| && v.store.versions != []
  {
    var served := w.store.versions[w.store.cached].finalizers;
    && v == w.(store := v.store, seed := w.seed.(secret := v.seed.secret))
    && if w.store.cached < Last(w.store)
       then && v.store == w.store
            && (served != {CredentialsCleanup} ==> (err <==> RoleBindingCleanup in served))
       else && Held(v) == Held(w) - (if RoleBindingCleanup in Held(w) then {RoleBindingCleanup}
                                     else if Held(w) == {CredentialsCleanup} then {CredentialsCleanup} else {})
            && (NodeDeletion in Held(w) ==> !err)
  }

  lemma RolesEnd(c: World, d: World, before: Cluster, copy: Cluster, err: bool)
    requires WellFormed(c) && before == Current(c.store) && Removed(c, d, {RoleBindingCleanup}, err)
    requires d.store.versions != [] && CopyServed(c, before, {RoleBindingCleanup}, d, copy)
    ensures d == c.(store := d.store)
    ensures err || copy.finalizers != {CredentialsCleanup} ==> EndHandled(c, d, err)
    ensures !err && copy.finalizers == {CredentialsCleanup} && d.store.cached == Last(d.store) ==>
              Held(c) == {CredentialsCleanup} && copy == Current(d.store)
  {
    hide Normal, Shrinking;
  }

  lemma CredentialsEnd(c: World, d: World, before: Cluster, copy: Cluster, w: World, err: bool)
    requires WellFormed(c) && before == Current(c.store) && Removed(c, d, {RoleBindingCleanup}, false)
    requires d.store.versions != [] && CopyServed(c, before, {RoleBindingCleanup}, d, copy)
    requires copy.finalizers == {CredentialsCleanup} && w.store.versions != []
    requires w == d.(store := w.store, seed := d.seed.(secret := w.seed.secret))
    requires if d.store.cached < Last(d.store) then w.store == d.store else !err && Held(w) == {}
    ensures EndHandled(c, w, err)
  {
    hide Normal, Shrinking;
    if RoleBindingCleanup in Held(c) && c.store.cached == Last(c.store) {
      assert Held(d) == Held(c) - {RoleBindingCleanup} && d.store.cached < Last(d.store);
      assert NodeDeletion !in Held(d) && NodeDeletion !in Held(c);
    } else if c.store.cached == Last(c.store) {
      assert Held(c) == {CredentialsCleanup} && Held(w) == Held(c) - {CredentialsCleanup};
    }
  }

  lemma HalfwayEnded(a: World, c: World, w: World, err: bool)
    requires WellFormed(a) && a.store.cached == Last(a.store) && Halfway(a, c, false)
    requires WellFormed(c) && w.store.versions != [] && EndHandled(c, w, err)
    ensures InfrastructureHandled(a, w, err)
  {
    hide Normal, Shrinking, UppermostCleared;
    if EarlyDue(a) != {} { assert c.store.versions[c.store.cached] == Current(a.store); }
  }

  /** Draining the constraints has no part in it. */
  lemma DrainedSame(a: World, b: World, w: World, err: bool)
    requires a.store.versions != [] && b.store.versions != [] && w.store.versions != []
    ensures (b == a || b == a.(seed := Drained(a.seed))) && InfrastructureHandled(b, w, err) ==>
              InfrastructureHandled(a, w, err)
  {
  }

  lemma NothingHeld(w: World)
    ensures w.store.versions != [] && Gone(w.store) ==> InfrastructureHandled(w, w, false)
  {
  }

  lemma LevelMarkedStep(w: World, act: Act, names: set<string>, n: string)
    requires OnFleetLevel(act)
    ensures LevelMarked(w, act, {}) == w && (Level(w.fleet, act).Names() == {} ==> LevelCleared(w, act) == w)
    ensures var v := LevelMarked(w, act, names);
            && v.(fleet := SetLevel(v.fleet, act, Marked(Level(v.fleet, act), n))) == LevelMarked(w, act, names + {n})
            && Level(v.fleet, act).Names() == Level(w.fleet, act).Names()
  {
    MarkedSetStep(Level(w.fleet, act), names, n);
  }

  predicate OnFleetLevel(act: Act) { act.DeleteDeployment? || act.DeleteMachineSet? || act.DeleteMachine? }

  /** The level's turn has come. */
  ghost predicate LevelReached(w: World, act: Act)
    requires w.store.versions != []
  {
    && InClusterDone(w)
    && (act.DeleteMachineSet? ==> NoDeployments(w.fleet)) && (act.DeleteMachine? ==> NoMachineSets(w.fleet))
  }

  lemma LevelStable(w: World, v: World, act: Act)
    requires w.store.versions != [] && LevelReached(w, act) && Steady(w, v)
    ensures LevelReached(v, act)
  {
  }

  lemma CalmLevel(cfg: Config, cooperative: bool, w: World, v: World, act: Act)
    requires Calmly(cfg, cooperative, w, v) && w.store.versions != [] && LevelReached(w, act)
    ensures v.store.versions != [] && LevelReached(v, act)
  {
    LevelStable(w, v, act);
  }

  /** With a level and those above it empty, the next level's turn has come. */
  lemma LevelEmpty(w: World, act: Act)
    requires w.store.versions != [] && OnFleetLevel(act) && LevelReached(w, act) && Level(w.fleet, act).Names() == {}
    ensures act.DeleteDeployment? ==> LevelReached(w, DeleteMachineSet)
    ensures act.DeleteMachineSet? ==> LevelReached(w, DeleteMachine)
    ensures act.DeleteMachine? ==> InClusterDone(w) && NoMachines(w.fleet)
  {
  }

  lemma LevelOutstanding(cfg: Config, w: World, act: Act)
    requires w.store.versions != [] && OnFleetLevel(act)
    ensures Level(w.fleet, act).deleting != {} ==> Outstanding(cfg, w)
  {
  }

  lemma NodeDropOk(cfg: Config, sense: Sense, start: World, w: World, l: Ledger)
    requires w.store.versions != [] && InClusterDone(w) && NoMachines(w.fleet)
    ensures DropOk(cfg, sense, start, w, l, {NodeDeletion} * Held(w))
  {
  }

  lemma MarkLevel(cfg: Config, w: World, act: Act, name: string)
    requires WellFormed(w) && OnFleetLevel(act) && name in Level(w.fleet, act).Names()
    ensures var v := w.(fleet := SetLevel(w.fleet, act, Marked(Level(w.fleet, act), name)));
            WellFormed(v) && Calmly(cfg, true, w, v) && (v == w ==> name in Level(w.fleet, act).deleting)
  {
    var p := Level(w.fleet, act);
    MarkedWeight(p, name);
    assert Marked(p, name).Names() == p.Names();
    FleetStep(cfg, w, SetLevel(w.fleet, act, Marked(p, name)));
  }

  /** When both in-cluster finalizers may be removed. */
  lemma InClusterDropOk(cfg: Config, sense: Sense, start: World, w: World, l: Ledger)
    requires w.store.versions != [] && (sense.Documented? ==> BalancersAccounted(cfg, w, l))
    requires LBCleanup in Held(w) ==> AllGone(start, w)
    requires ConstraintsDone(cfg, w) && (PVCleanup in Held(w) ==> NoClaims(w.storage) && NoVolumes(w.storage))
    ensures DropOk(cfg, sense, start, w, l, {LBCleanup, PVCleanup} * Held(w))
  {
  }

  lemma SteadyReflexive(w: World)
    requires w.store.versions != []
    ensures Steady(w, w)
  {
  }

  /** A copy without the in-cluster finalizers shows that the stored Cluster has none either. */
  lemma NoneLeft(w: World, copy: set<Finalizer>)
    requires w.store.versions != [] && Held(w) <= copy && !F.HasAnyFinalizer(copy, {LBCleanup, PVCleanup})
    ensures InClusterDone(w)
  {
    forall f | f in {LBCleanup, PVCleanup} ensures f !in copy {
      assert f in copy ==> f in copy * {LBCleanup, PVCleanup};
    }
  }

  /** Nothing in the user cluster is left to delete. */
  ghost predicate NothingLeft(w: World) {
    w.lb.services.Names() !! w.lb.ofType && NoClaims(w.storage) && NoVolumes(w.storage)
  }

  /** And no recorded deletion is newly confirmed. */
  ghost predicate Settled(w: World)
    requires w.store.versions != []
  {
    NothingLeft(w) && Parse(Current(w.store).annotation) !! w.lb.events
  }

  lemma NothingLeftServices(w: World)
    ensures NothingLeft(w) ==> w.lb.services.Names() !! w.lb.ofType
  {
  }

  lemma NothingLeftVolumes(w: World, v: World, some: bool)
    ensures NothingLeft(w) && VolumesHandled(w, v, some) ==> !some && v == w
  {
  }

  lemma ServiceOutstanding(cfg: Config, w: World)
    requires w.store.versions != []
    ensures w.lb.services.deleting != {} ==> Outstanding(cfg, w)
  {
  }

  /** Between passes the environment brings whatever is waited for nearer, in an order of its own. */
  ghost predicate Finishing(cfg: Config, idle: World -> Event) {
    forall v :: WellFormed(v) && Outstanding(cfg, v) ==> Benign(idle(v)) && Happen(cfg, v, idle(v)) != v
  }

  ghost function Finisher(cfg: Config, v: World): (e: Event)
    requires WellFormed(v) && Outstanding(cfg, v)
    ensures Benign(e) && Happen(cfg, v, e) != v
  {
    FinisherExists(cfg, v);
    var e :| Benign(e) && Happen(cfg, v, e) != v;
    e
  }

  lemma FinisherExists(cfg: Config, v: World)
    requires WellFormed(v) && Outstanding(cfg, v)
    ensures exists e :: Benign(e) && Happen(cfg, v, e) != v
  {
    var e := OutstandingEvent(cfg, v);
  }

  /** There is such an environment. */
  lemma SomeEnvironmentFinishes(cfg: Config)
    ensures exists idle: World -> Event :: Finishing(cfg, idle)
  {
    var idle := (v: World) => if WellFormed(v) && Outstanding(cfg, v) then Finisher(cfg, v) else Tick(0);
    assert Finishing(cfg, idle);
  }

  lemma CaughtUp(w: World)
    requires WellFormed(w) && w.store.cached == Last(w.store)
    ensures Uniform(w.store)
  {
    hide Normal;
  }

  lemma Lagging(cfg: Config, w: World)
    requires WellFormed(w) && !Outstanding(cfg, w)
    ensures w.store.cached == Last(w.store)
  {
  }
}
