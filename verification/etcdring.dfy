/**
 The launchers of all pods at work on one ring. Every call on the membership is a step of its own, so the steps of
 different launchers interleave freely, and a launcher may crash, lose its data directory and restart between any two.
 */
module EtcdRing {
  import opened EtcdMembers
  import opened EtcdLauncher
  import opened Options

  datatype Pc =
    | Down
    | Starting                       // peer URLs may be updated; about to look itself up
    | Leaving(id: nat)               // found itself listed without data; about to remove that member
    | Joining                        // not listed; about to add itself
    | Running
    | Pruning(list: seq<Member>)     // holds the unwanted members it listed; about to poll and remove

  /** One pod's launcher: where it is, whether its data directory exists, and the ring size it last read. */
  datatype Launcher = Launcher(pc: Pc, hasData: bool, size: nat, strict: bool)

  datatype State = State(members: seq<Member>, nextId: nat, size: nat, pods: map<nat, Launcher>)

  datatype Step =
    | Launch(i: nat, strict: bool)   // a pod starts its launcher, which reads the ring size
    | UpdateUrls(i: nat)
    | Decide(i: nat)                 // lists the members and decides how to start
    | DecideBlind(i: nat)            // cannot list them and starts anyway
    | Leave(i: nat)
    | Join(i: nat)
    | Publish(i: nat)                // the started etcd publishes its name and client URLs
    | Crash(i: nat)
    | LoseData(i: nat)
    | Resize(n: nat)                 // somebody scales the stateful set
    | ReadSize(i: nat)               // a running launcher reads the ring size before a prune pass
    | StartPass(i: nat)              // leading the ring, it lists the members unwanted at the size it read
    | FinishPass(i: nat, probes: Probes, ok: bool)

  predicate At(s: State, i: nat, pc: Pc) {
    i in s.pods && s.pods[i].pc == pc
  }

  function SetPc(s: State, i: nat, pc: Pc): State
    requires i in s.pods
  {
    s.(pods := s.pods[i := s.pods[i].(pc := pc)])
  }

  /** What etcd records once the member of pod `i` is up. */
  function Published(members: seq<Member>, i: nat, ns: string): (r: seq<Member>)
    ensures |r| == |members|
  {
    seq(|members|, k requires 0 <= k < |members| =>
      if OnHost(members[k], PodHost(i, ns)) then members[k].(name := PodName(i), clientUrls := [PodHost(i, ns)])
      else members[k])
  }

  /** One step; a step that is not possible in the state leaves it unchanged. */
  function Apply(s: State, step: Step, ns: string): State {
    match step
    case Launch(i, strict) =>
      if At(s, i, Down)
      then s.(pods := s.pods[i := s.pods[i].(pc := Starting, size := s.size, strict := strict)]) else s
    case UpdateUrls(i) =>
      if At(s, i, Starting)
      then s.(members := Carried(s.members, UpdatePlan(s.members, PodName(i), s.pods[i].strict))) else s
    case Decide(i) =>
      if !At(s, i, Starting) then s
      else (match FindMember(s.members, PodName(i), PodHost(i, ns))
            case Found(m) => SetPc(s, i, if s.pods[i].hasData then Running else Leaving(m.id))
            case Absent => SetPc(s, i, Joining)
            case Unparsable => SetPc(s, i, Running)
            case Crash => SetPc(s, i, Down))
    case DecideBlind(i) => if At(s, i, Starting) then SetPc(s, i, Running) else s
    case Leave(i) =>
      if i in s.pods && s.pods[i].pc.Leaving? then
        var id := s.pods[i].pc.id;
        if exists m | m in s.members :: m.id == id
        then SetPc(s.(members := Remove(s.members, id)), i, Joining)
        else SetPc(s, i, Down)
      else s
    case Join(i) =>
      if At(s, i, Joining) then
        State(s.members + [Joiner(s.nextId, PodName(i), ns, s.pods[i].strict)], s.nextId + 1, s.size,
              s.pods[i := s.pods[i].(pc := Running, hasData := false)])
      else s
    case Publish(i) =>
      if At(s, i, Running)
      then s.(members := Published(s.members, i, ns), pods := s.pods[i := s.pods[i].(hasData := true)]) else s
    case Crash(i) => if i in s.pods then SetPc(s, i, Down) else s
    case LoseData(i) => if i in s.pods then s.(pods := s.pods[i := s.pods[i].(hasData := false)]) else s
    case Resize(n) => s.(size := n)
    case ReadSize(i) => if At(s, i, Running) then s.(pods := s.pods[i := s.pods[i].(size := s.size)]) else s
    case StartPass(i) =>
      if At(s, i, Running) && (forall m | m in s.members :: Readable(m))
      then SetPc(s, i, Pruning(Unwanted(s.members, PeerHosts(s.pods[i].size, ns)))) else s
    case FinishPass(i, probes, ok) =>
      if i in s.pods && s.pods[i].pc.Pruning? then
        var dead := FirstDead(s.pods[i].pc.list, PodName(i), probes);
        SetPc(if dead.Some? && ok then s.(members := Remove(s.members, dead.value.id)) else s, i, Running)
      else s
  }

  function Exec(s: State, steps: seq<Step>, ns: string): State
    decreases |steps|
  {
    if steps == [] then s else Exec(Apply(s, steps[0], ns), steps[1..], ns)
  }

  // ---------- at most one member per pod host ----------

  /** A launcher about to leave names the only member on its host; one about to join has none. */
  ghost predicate PcOk(members: seq<Member>, pc: Pc, i: nat, ns: string) {
    && (pc.Joining? ==> forall m :: m in members ==> !OnHost(m, PodHost(i, ns)))
    && (pc.Leaving? ==> forall m :: m in members && OnHost(m, PodHost(i, ns)) ==> m.id == pc.id)
  }

  ghost predicate Inv(s: State, ns: string) {
    && RingOk(s.members, s.nextId, ns)
    && forall i :: i in s.pods ==> PcOk(s.members, s.pods[i].pc, i, ns)
  }

  /** The same members on the same hosts, named at most after their own host. */
  ghost predicate Refreshed(members: seq<Member>, r: seq<Member>, ns: string) {
    && |r| == |members|
    && forall k :: 0 <= k < |members| ==>
         && r[k].id == members[k].id
         && (forall i :: OnHost(r[k], PodHost(i, ns)) <==> OnHost(members[k], PodHost(i, ns)))
         && (forall i :: r[k].name == PodName(i) ==> OnHost(members[k], PodHost(i, ns)))
  }

  lemma RefreshedOk(members: seq<Member>, r: seq<Member>, nextId: nat, ns: string)
    requires RingOk(members, nextId, ns) && Refreshed(members, r, ns)
    ensures RingOk(r, nextId, ns)
    ensures forall pc, i :: PcOk(members, pc, i, ns) ==> PcOk(r, pc, i, ns)
  {
    forall m | m in r ensures m.id < nextId && forall i :: m.name == PodName(i) ==> OnHost(m, PodHost(i, ns)) {
      var k :| 0 <= k < |r| && r[k] == m;
      assert members[k] in members;
    }
    forall pc, i | PcOk(members, pc, i, ns) ensures PcOk(r, pc, i, ns) {
      forall m | m in r && OnHost(m, PodHost(i, ns)) ensures !pc.Joining? && (pc.Leaving? ==> m.id == pc.id) {
        var k :| 0 <= k < |r| && r[k] == m;
        assert members[k] in members;
      }
    }
  }

  lemma CarriedRefreshed(members: seq<Member>, pod: string, strict: bool, ns: string)
    requires DistinctIds(members) && Placed(members, ns)
    ensures Refreshed(members, Carried(members, UpdatePlan(members, pod, strict)), ns)
  {
    var r := Carried(members, UpdatePlan(members, pod, strict));
    forall k | 0 <= k < |members|
      ensures r[k].id == members[k].id
      ensures forall i :: OnHost(r[k], PodHost(i, ns)) <==> OnHost(members[k], PodHost(i, ns))
      ensures forall i :: r[k].name == PodName(i) ==> OnHost(members[k], PodHost(i, ns))
    {
      UpdateKeepsOthers(members, pod, strict, k);
      assert members[k] in members;
    }
  }

  lemma PublishedRefreshed(members: seq<Member>, i: nat, ns: string)
    requires Placed(members, ns)
    ensures Refreshed(members, Published(members, i, ns), ns)
  {
    var r := Published(members, i, ns);
    forall k, j | 0 <= k < |members| && r[k].name == PodName(j) ensures OnHost(members[k], PodHost(j, ns)) {
      assert members[k] in members;
      if OnHost(members[k], PodHost(i, ns)) { PodHostInjective(i, j, ns); }
    }
  }

  lemma RemovedOk(members: seq<Member>, id: nat, nextId: nat, ns: string)
    requires RingOk(members, nextId, ns)
    ensures RingOk(Remove(members, id), nextId, ns)
    ensures forall pc, i :: PcOk(members, pc, i, ns) ==> PcOk(Remove(members, id), pc, i, ns)
  {
    RemoveExact(members, id);
    RemovedOnePerHost(members, id, ns);
  }

  lemma JoinedOk(s: State, i: nat, ns: string)
    requires Inv(s, ns) && At(s, i, Joining)
    ensures Inv(Apply(s, Join(i), ns), ns)
  {
    var t := Apply(s, Join(i), ns);
    var me := Joiner(s.nextId, PodName(i), ns, s.pods[i].strict);
    assert PcOk(s.members, s.pods[i].pc, i, ns) && t.members == s.members + [me];
    JoinedExact(s.members, s.nextId, i, ns, s.pods[i].strict);
    assert forall m :: m in t.members <==> m in s.members || m == me;
    forall j | j in t.pods ensures PcOk(t.members, t.pods[j].pc, j, ns) {
      if j != i {
        assert PcOk(s.members, s.pods[j].pc, j, ns);
        if OnHost(me, PodHost(j, ns)) { PodHostInjective(i, j, ns); }
      }
    }
  }

  lemma DecidedOk(s: State, i: nat, ns: string)
    requires Inv(s, ns) && At(s, i, Starting)
    ensures Inv(Apply(s, Decide(i), ns), ns)
  {
    var r := FindMember(s.members, PodName(i), PodHost(i, ns));
    FindMemberExact(s.members, PodName(i), PodHost(i, ns));
    if r.Found? { OnlyMember(s.members, s.nextId, r.member, i, ns); }
  }

  lemma InvStep(s: State, step: Step, ns: string)
    requires Inv(s, ns)
    ensures Inv(Apply(s, step, ns), ns)
  {
    hide Carried, UpdatePlan, Unwanted, Published, OnHost, FirstDead, Remove, FindMember, PodHost;
    match step {
      case UpdateUrls(i) =>
        if At(s, i, Starting) {
          CarriedRefreshed(s.members, PodName(i), s.pods[i].strict, ns);
          RefreshedOk(s.members, Apply(s, step, ns).members, s.nextId, ns);
        }
      case Decide(i) => if At(s, i, Starting) { DecidedOk(s, i, ns); }
      case Leave(i) =>
        if i in s.pods && s.pods[i].pc.Leaving? {
          RemovedOk(s.members, s.pods[i].pc.id, s.nextId, ns);
          RemoveExact(s.members, s.pods[i].pc.id);
        }
      case Join(i) => if At(s, i, Joining) { JoinedOk(s, i, ns); }
      case Publish(i) =>
        PublishedRefreshed(s.members, i, ns);
        RefreshedOk(s.members, Published(s.members, i, ns), s.nextId, ns);
      case FinishPass(i, probes, ok) =>
        if i in s.pods && s.pods[i].pc.Pruning? {
          var dead := FirstDead(s.pods[i].pc.list, PodName(i), probes);
          if dead.Some? { RemovedOk(s.members, dead.value.id, s.nextId, ns); }
        }
      case _ =>
    }
  }

  /**
   In every reachable state, for any interleaving of launchers, pruning, crashes and restarts, at most one member
   carries the host name of any pod.
   */
  lemma {:induction false} OneMemberPerPod(s: State, steps: seq<Step>, ns: string)
    requires Inv(s, ns)
    ensures Inv(Exec(s, steps, ns), ns)
    ensures OnePerHost(Exec(s, steps, ns).members, ns)
    decreases |steps|
  {
    if steps == [] {
    } else {
      InvStep(s, steps[0], ns);
      OneMemberPerPod(Apply(s, steps[0], ns), steps[1..], ns);
    }
  }

  /** In an orderly ring at most one member carries a pod's name, so that a repeated update changes nothing. */
  lemma UpdateOnceInRing(s: State, i: nat, ns: string)
    requires Inv(s, ns)
    ensures NamedOnce(s.members, PodName(i))
    ensures Apply(Apply(s, UpdateUrls(i), ns), UpdateUrls(i), ns) == Apply(s, UpdateUrls(i), ns)
  {
    forall a, b | 0 <= a < b < |s.members| && s.members[a].name == PodName(i) ensures s.members[b].name != PodName(i) {
      assert s.members[a] in s.members && s.members[b] in s.members;
    }
    if At(s, i, Starting) { UpdateIdempotent(s.members, PodName(i), s.pods[i].strict); }
  }

  /** The steps of an undisturbed start-up are the launcher's start-up decision. */
  lemma StartUpIsSteps(s: State, i: nat, ns: string)
    requires At(s, i, Starting)
    ensures var t, pod := Apply(Apply(Apply(s, Decide(i), ns), Leave(i), ns), Join(i), ns), s.pods[i];
            && StartUp(t.pods[i].pc.Running?, t.members, t.nextId)
            == StartedUp(s.members, s.nextId, PodName(i), ns, pod.strict, pod.hasData, Calls(true, true, true))
            && forall j :: j != i ==> (j in t.pods <==> j in s.pods) && (j in s.pods ==> t.pods[j] == s.pods[j])
  {
    FindMemberExact(s.members, PodName(i), PodHost(i, ns));
  }

  /** In the ring, too, an undisturbed start-up keeps the member of a pod with data and replaces that of one without. */
  lemma StartUpInRing(s: State, i: nat, ns: string)
    requires Inv(s, ns) && At(s, i, Starting) && forall m :: m in s.members ==> HostKnown(m)
    ensures var t, pod := Apply(Apply(Apply(s, Decide(i), ns), Leave(i), ns), Join(i), ns), s.pods[i];
            StartedBy(StartUp(true, s.members, s.nextId), StartUp(t.pods[i].pc.Running?, t.members, t.nextId),
                      i, ns, pod.strict, pod.hasData, Calls(true, true, true))
  {
    hide StartedBy, Apply;
    StartUpIsSteps(s, i, ns);
    StartUpExact(s.members, s.nextId, i, ns, s.pods[i].strict, s.pods[i].hasData, Calls(true, true, true));
  }

  /** Whatever happens next, the decision itself: start with data, leave by the own member's id without, else join. */
  lemma DecideExact(s: State, i: nat, ns: string)
    requires Inv(s, ns) && At(s, i, Starting) && forall m :: m in s.members ==> HostKnown(m)
    ensures var t := Apply(s, Decide(i), ns);
            && t.members == s.members && t.nextId == s.nextId
            && (if forall m :: m in s.members ==> !OnHost(m, PodHost(i, ns)) then t.pods[i].pc == Joining
                else if s.pods[i].hasData then t.pods[i].pc == Running
                else forall m :: m in s.members && OnHost(m, PodHost(i, ns)) ==> t.pods[i].pc == Leaving(m.id))
  {
    FindMemberExact(s.members, PodName(i), PodHost(i, ns));
    FindMemberKnown(s.members, PodName(i), PodHost(i, ns));
    var r := FindMember(s.members, PodName(i), PodHost(i, ns));
    if r.Found? { OnlyMember(s.members, s.nextId, r.member, i, ns); }
  }

  /** The URLs an update step gives the pod's own member, and that it touches no other. */
  lemma OwnUrlsInRing(s: State, i: nat, k: nat, ns: string)
    requires Inv(s, ns) && At(s, i, Starting) && k < |s.members| && s.members[k].name == PodName(i)
    requires forall j :: 0 <= j <= k ==> HostKnown(s.members[j])
    ensures var t, strict, u := Apply(s, UpdateUrls(i), ns), s.pods[i].strict, s.members[k].peerUrls;
            var h := u[0].host;
            var urls := if !strict && (|u| == 1 || u[0].scheme != "http")
                        then [Url("http", h, "2380"), Url("https", h, "2381")]
                        else if strict && |u| == 2 then [Url("https", h, "2381")]
                        else u;
            t == s.(members := s.members[k := s.members[k].(peerUrls := urls)])
  {
    var t := Apply(s, UpdateUrls(i), ns);
    UpdateOnceInRing(s, i, ns);
    OwnUrlsExact(s.members, PodName(i), s.pods[i].strict, k);
    forall j | 0 <= j < |s.members| && (j != k || t.members[k].peerUrls == s.members[k].peerUrls)
      ensures t.members[j] == s.members[j]
    {
      UpdateKeepsOthers(s.members, PodName(i), s.pods[i].strict, j);
    }
    UpdateKeepsOthers(s.members, PodName(i), s.pods[i].strict, k);
  }

  // ---------- what pruning never takes ----------

  ghost predicate Has(s: State, id: nat) {
    exists m :: m in s.members && m.id == id
  }

  /** Some prune pass of the run takes the member out. */
  ghost predicate EverPruned(s: State, steps: seq<Step>, id: nat, ns: string)
    decreases |steps|
  {
    steps != []
    && var t := Apply(s, steps[0], ns);
       (steps[0].FinishPass? && Has(s, id) && !Has(t, id)) || EverPruned(t, steps[1..], id, ns)
  }

  ghost predicate SafeMembers(members: seq<Member>, nextId: nat, id: nat, hosts: seq<string>) {
    && DistinctIds(members)
    && (forall m :: m in members ==> m.id < nextId)
    && (forall m :: m in members && m.id == id ==> Wanted(m, hosts))
  }

  ghost predicate Unlisted(pc: Pc, id: nat) {
    pc.Pruning? ==> forall m :: m in pc.list ==> m.id != id
  }

  /**
   The member has one or two peer URLs, all on the first `n` pods' hosts, no launcher at work has read a smaller size,
   and no prune pass under way lists the member.
   */
  ghost predicate Safe(s: State, id: nat, n: nat, ns: string) {
    && n <= s.size && id < s.nextId && SafeMembers(s.members, s.nextId, id, PeerHosts(n, ns))
    && (forall i :: i in s.pods ==> Unlisted(s.pods[i].pc, id) && (s.pods[i].pc.Down? || n <= s.pods[i].size))
  }

  lemma MoreHosts(host: string, n: nat, k: nat, ns: string)
    requires host in PeerHosts(n, ns) && n <= k
    ensures host in PeerHosts(k, ns)
  {
    var i :| 0 <= i < n && PeerHosts(n, ns)[i] == host;
    PeerHostsExact(k, i, ns);
  }

  lemma StartedPassSafe(s: State, id: nat, n: nat, size: nat, ns: string)
    requires Safe(s, id, n, ns) && n <= size
    requires forall m :: m in s.members ==> Readable(m)
    ensures forall m :: m in Unwanted(s.members, PeerHosts(size, ns)) ==> m.id != id
  {
    forall m | m in Unwanted(s.members, PeerHosts(size, ns)) ensures m.id != id {
      UnwantedExact(s.members, PeerHosts(size, ns), m);
      if Wanted(m, PeerHosts(n, ns)) {
        forall u | u in m.peerUrls ensures u.Url? && u.host in PeerHosts(size, ns) {
          var k :| 0 <= k < |m.peerUrls| && m.peerUrls[k] == u;
          MoreHosts(u.host, n, size, ns);
        }
        assert forall k :: 0 <= k < |m.peerUrls| ==> m.peerUrls[k] in m.peerUrls;
      }
    }
  }

  /** A start-up leaves a wanted member wanted. */
  lemma CarriedSafe(members: seq<Member>, nextId: nat, pod: string, strict: bool, hosts: seq<string>, id: nat)
    requires SafeMembers(members, nextId, id, hosts)
    ensures SafeMembers(Carried(members, UpdatePlan(members, pod, strict)), nextId, id, hosts)
  {
    var r := Carried(members, UpdatePlan(members, pod, strict));
    forall m | m in r ensures m.id < nextId && (m.id == id ==> Wanted(m, hosts)) {
      var k :| 0 <= k < |r| && r[k] == m;
      UpdateKeepsOthers(members, pod, strict, k);
      assert members[k] in members && members[k].id == m.id;
    }
  }

  lemma PublishedSafe(members: seq<Member>, nextId: nat, i: nat, hosts: seq<string>, id: nat, ns: string)
    requires SafeMembers(members, nextId, id, hosts)
    ensures SafeMembers(Published(members, i, ns), nextId, id, hosts)
  {
    var r := Published(members, i, ns);
    forall m | m in r ensures m.id < nextId && (m.id == id ==> Wanted(m, hosts)) {
      var k :| 0 <= k < |r| && r[k] == m;
      assert members[k] in members;
    }
  }

  lemma RemovedSafe(members: seq<Member>, nextId: nat, gone: nat, hosts: seq<string>, id: nat)
    requires SafeMembers(members, nextId, id, hosts)
    ensures SafeMembers(Remove(members, gone), nextId, id, hosts)
    ensures gone != id ==> forall m :: m in members && m.id == id ==> m in Remove(members, gone)
  {
    RemoveExact(members, gone);
  }

  lemma SafeMembersStep(s: State, step: Step, id: nat, n: nat, ns: string)
    requires Safe(s, id, n, ns)
    ensures var t := Apply(s, step, ns);
            SafeMembers(t.members, t.nextId, id, PeerHosts(n, ns)) && s.nextId <= t.nextId
  {
    var hosts := PeerHosts(n, ns);
    match step {
      case UpdateUrls(i) =>
        if At(s, i, Starting) { CarriedSafe(s.members, s.nextId, PodName(i), s.pods[i].strict, hosts, id); }
      case Leave(i) =>
        if i in s.pods && s.pods[i].pc.Leaving? { RemovedSafe(s.members, s.nextId, s.pods[i].pc.id, hosts, id); }
      case Join(i) =>
        if i in s.pods { DistinctSnoc(s.members, Joiner(s.nextId, PodName(i), ns, s.pods[i].strict)); }
      case Publish(i) => PublishedSafe(s.members, s.nextId, i, hosts, id, ns);
      case FinishPass(i, probes, ok) =>
        if i in s.pods && s.pods[i].pc.Pruning? {
          var dead := FirstDead(s.pods[i].pc.list, PodName(i), probes);
          if dead.Some? { RemovedSafe(s.members, s.nextId, dead.value.id, hosts, id); }
        }
      case _ =>
    }
  }

  lemma UnlistedStep(s: State, step: Step, id: nat, n: nat, ns: string)
    requires Safe(s, id, n, ns)
    ensures var t := Apply(s, step, ns);
            forall i :: i in t.pods ==> Unlisted(t.pods[i].pc, id) && (t.pods[i].pc.Down? || n <= t.pods[i].size)
  {
    hide Carried, UpdatePlan, Published, FindMember, Remove, SafeMembers, FirstDead, PodHost, PodName;
    var t := Apply(s, step, ns);
    forall i | i in t.pods ensures Unlisted(t.pods[i].pc, id) && (t.pods[i].pc.Down? || n <= t.pods[i].size) {
      assert Unlisted(s.pods[i].pc, id);
      if step == StartPass(i) && At(s, i, Running) && (forall m | m in s.members :: Readable(m)) {
        StartedPassSafe(s, id, n, s.pods[i].size, ns);
      }
    }
  }

  lemma PassKeeps(s: State, i: nat, probes: Probes, ok: bool, id: nat, n: nat, ns: string)
    requires Safe(s, id, n, ns) && Has(s, id)
    ensures Has(Apply(s, FinishPass(i, probes, ok), ns), id)
  {
    var m :| m in s.members && m.id == id;
    if i in s.pods && s.pods[i].pc.Pruning? {
      assert Unlisted(s.pods[i].pc, id);
      FirstDeadExact(s.pods[i].pc.list, PodName(i), probes);
      var dead := FirstDead(s.pods[i].pc.list, PodName(i), probes);
      if dead.Some? { RemovedSafe(s.members, s.nextId, dead.value.id, PeerHosts(n, ns), id); }
    }
    assert m in Apply(s, FinishPass(i, probes, ok), ns).members;
  }

  /**
   While the ring size never drops below `n`, no launcher's prune loop ever removes a member with one or two peer
   URLs, all on the hosts of the first `n` pods, however launchers, restarts and resizes interleave.
   */
  lemma {:induction false} NeverPruned(s: State, steps: seq<Step>, id: nat, n: nat, ns: string)
    requires Safe(s, id, n, ns)
    requires forall k :: 0 <= k < |steps| && steps[k].Resize? ==> n <= steps[k].n
    ensures !EverPruned(s, steps, id, ns)
    decreases |steps|
  {
    if steps == [] {
    } else {
      SafeMembersStep(s, steps[0], id, n, ns);
      UnlistedStep(s, steps[0], id, n, ns);
      if steps[0].FinishPass? && Has(s, id) { PassKeeps(s, steps[0].i, steps[0].probes, steps[0].ok, id, n, ns); }
      NeverPruned(Apply(s, steps[0], ns), steps[1..], id, n, ns);
    }
  }

  /** Run without interruption, the steps of a prune pass are the launcher's prune method. */
  lemma PassIsPruned(s: State, i: nat, probes: Probes, ok: bool, ns: string)
    requires At(s, i, Running)
    ensures var t := Apply(Apply(Apply(s, ReadSize(i), ns), StartPass(i), ns), FinishPass(i, probes, ok), ns);
            t.members == Pruned(s.members, PeerHosts(s.size, ns), Pass(PodName(i), true, probes, ok))
  {
  }

  // ---------- where runs begin ----------

  function Founder(i: nat, ns: string, strict: bool): Member {
    Member(i, PodName(i), PeerUrls(PodHost(i, ns), strict), [])
  }

  function Founders(n: nat, ns: string, strict: bool): seq<Member> {
    seq(n, i requires 0 <= i < n => Founder(i, ns, strict))
  }

  /** A ring bootstrapped with one member for each of the first `n` pods, before any launcher has started. */
  function Bootstrapped(n: nat, ns: string, strict: bool, pods: set<nat>): State {
    State(Founders(n, ns, strict), n, n, map i | i in pods :: Launcher(Down, false, n, strict))
  }

  lemma FoundersOk(n: nat, ns: string, strict: bool)
    ensures RingOk(Founders(n, ns, strict), n, ns)
  {
    var members := Founders(n, ns, strict);
    hide Founder, PodHost, PodName;
    forall a: nat, i: nat | a < n ensures OnHost(members[a], PodHost(i, ns)) <==> a == i {
      FounderOk(a, i, ns, strict);
    }
    forall a: nat, i: nat | a < n ensures members[a].name == PodName(i) ==> a == i { FounderOk(a, i, ns, strict); }
    forall a: nat | a < n ensures members[a].id == a { FounderOk(a, a, ns, strict); }
    forall m, i | m in members && m.name == PodName(i) ensures OnHost(m, PodHost(i, ns)) {
      var a: nat :| a < n && members[a] == m;
    }
    forall m | m in members ensures m.id < n {
      var a: nat :| a < n && members[a] == m;
    }
  }

  lemma FounderOk(a: nat, i: nat, ns: string, strict: bool)
    ensures var m := Founder(a, ns, strict);
            m.id == a && (m.name == PodName(i) ==> a == i) && (OnHost(m, PodHost(i, ns)) <==> a == i)
  {
    assert Founder(a, ns, strict).peerUrls[0].host == PodHost(a, ns);
    if PodName(a) == PodName(i) || PodHost(a, ns) == PodHost(i, ns) { PodHostInjective(a, i, ns); }
  }

  lemma FoundersSafe(n: nat, ns: string, strict: bool, id: nat)
    ensures SafeMembers(Founders(n, ns, strict), n, id, PeerHosts(n, ns))
  {
    var members := Founders(n, ns, strict);
    forall m | m in members ensures m.id < n && Wanted(m, PeerHosts(n, ns)) {
      var a :| 0 <= a < n && members[a] == m;
      PeerHostsExact(n, a, ns);
    }
  }

  /** What the results about all runs ask of their first state holds there, for every member. */
  lemma BootstrappedOk(n: nat, ns: string, strict: bool, pods: set<nat>)
    ensures var s := Bootstrapped(n, ns, strict, pods); Inv(s, ns) && forall id: nat :: id < n ==> Safe(s, id, n, ns)
  {
    hide RingOk, SafeMembers, Founders;
    FoundersOk(n, ns, strict);
    forall id: nat | id < n ensures Safe(Bootstrapped(n, ns, strict, pods), id, n, ns) {
      FoundersSafe(n, ns, strict, id);
    }
  }

  /** From there on, at most one member per pod in every reachable state, and none is pruned while the size is kept. */
  lemma BootstrappedRuns(n: nat, ns: string, strict: bool, pods: set<nat>, steps: seq<Step>)
    ensures var s := Bootstrapped(n, ns, strict, pods);
            && OnePerHost(Exec(s, steps, ns).members, ns)
            && ((forall k :: 0 <= k < |steps| && steps[k].Resize? ==> n <= steps[k].n) ==>
                  forall id: nat :: id < n ==> !EverPruned(s, steps, id, ns))
  {
    var s := Bootstrapped(n, ns, strict, pods);
    BootstrappedOk(n, ns, strict, pods);
    OneMemberPerPod(s, steps, ns);
    if forall k :: 0 <= k < |steps| && steps[k].Resize? ==> n <= steps[k].n {
      forall id: nat | id < n ensures !EverPruned(s, steps, id, ns) { NeverPruned(s, steps, id, n, ns); }
    }
  }
}
