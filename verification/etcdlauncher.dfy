/** The etcd launcher of one pod: start-up decision, peer-URL update and pruning of dead members. */
module EtcdLauncher {
  import opened EtcdMembers
  import opened Options

  // ---------- health polling ----------

  datatype Probe = Healthy | Unhealthy | ProbeError

  /** What each attempt of each member's health poll meets. */
  type Probes = (nat, nat) -> Probe

  const POLLS: nat := 15  // every second for fifteen seconds

  predicate HealthyAt(m: Member, probes: Probes, k: nat) {
    m.clientUrls != [] && probes(m.id, k) == Healthy && forall j | 0 <= j < k :: probes(m.id, j) == Unhealthy
  }

  /** The poll ends well: some attempt succeeds and none before it ends the poll with an error. */
  predicate Responds(m: Member, probes: Probes) {
    exists k | 0 <= k < POLLS :: HealthyAt(m, probes, k)
  }

  /** The first entry that is not the launcher's own and whose whole poll failed. */
  function FirstDead(list: seq<Member>, pod: string, probes: Probes): Option<Member> {
    if list == [] then None
    else if list[0].name != pod && !Responds(list[0], probes) then Some(list[0])
    else FirstDead(list[1..], pod, probes)
  }

  function Remove(members: seq<Member>, id: nat): seq<Member> {
    if members == [] then []
    else
      var front, last := Remove(members[..|members| - 1], id), members[|members| - 1];
      if last.id == id then front else front + [last]
  }

  // ---------- the launcher ----------

  const DEFAULT_CLUSTER_SIZE: nat := 3

  /** etcd's own membership, shared by all launchers. */
  class Ring {
    var members: seq<Member>
    var nextId: nat
  }

  class EtcdCluster {
    const namespace: string
    const podName: string
    const ring: Ring
    var clusterSize: nat
    var usePeerTLSOnly: bool

    /** A new cluster starts with TLS peering only, an initialised one when strict mode is asked for. */
    constructor (namespace: string, podName: string, ring: Ring, initialized: bool, strict: bool)
      ensures this.namespace == namespace && this.podName == podName && this.ring == ring
      ensures clusterSize == 3 && (usePeerTLSOnly <==> initialized ==> strict)
    {
      this.namespace, this.podName, this.ring := namespace, podName, ring;
      clusterSize, usePeerTLSOnly := DEFAULT_CLUSTER_SIZE, !initialized || strict;
    }

    method SetClusterSize(replicas: Option<nat>)
      modifies `clusterSize
      ensures clusterSize == if replicas.None? then 3 else replicas.value
    {
      clusterSize := DEFAULT_CLUSTER_SIZE;
      if replicas.Some? {
        clusterSize := replicas.value;
      }
    }

    method PeerHostsList() returns (hosts: seq<string>)
      ensures hosts == PeerHosts(clusterSize, namespace)
    {
      hosts := [];
      for i := 0 to clusterSize
        invariant hosts == PeerHosts(i, namespace)
      {
        hosts := hosts + [PodHost(i, namespace)];
      }
    }

    /** Start-up rewrites the launcher's own member when its URLs do not fit the peer TLS mode. */
    method UpdatePeerURLs() returns (plan: Plan)
      modifies ring
      ensures plan == UpdatePlan(old(ring.members), podName, usePeerTLSOnly)
      ensures ring.members == Carried(old(ring.members), plan)
      ensures ring.nextId == old(ring.nextId)
      ensures forall k: nat :: OwnAt(old(ring.members), podName, k) ==>
                var u, r := old(ring.members)[k].peerUrls, ring.members[k].peerUrls;
                var h := u[0].host;
                if !usePeerTLSOnly && (|u| == 1 || u[0].scheme != "http")
                then r == [Url("http", h, "2380"), Url("https", h, "2381")]
                else if usePeerTLSOnly && |u| == 2 then r == [Url("https", h, "2381")]
                else r == u
    {
      forall k: nat | OwnAt(ring.members, podName, k) { OwnUrlsExact(ring.members, podName, usePeerTLSOnly, k); }
      var members := ring.members;
      for i := 0 to |members|
        invariant ring.members == members && ring.nextId == old(ring.nextId)
        invariant UpdatePlan(members[i..], podName, usePeerTLSOnly) == UpdatePlan(members, podName, usePeerTLSOnly)
      {
        assert members[i..][1..] == members[i + 1..];
        var urls := members[i].peerUrls;
        if urls == [] {
          return PlanCrash;
        }
        if urls[0].Malformed? {
          return PlanUnparsable;
        }
        if members[i].name == podName {
          if !usePeerTLSOnly && (|urls| == 1 || urls[0].scheme != "http") {
            plan := Update(members[i].id,
                           [Url("http", urls[0].host, PLAIN_PORT), Url("https", urls[0].host, TLS_PORT)]);
            ring.members := Carried(members, plan);
            return;
          }
          if |urls| == 2 && usePeerTLSOnly {
            plan := Update(members[i].id, [Url("https", urls[0].host, TLS_PORT)]);
            ring.members := Carried(members, plan);
            return;
          }
        }
      }
      plan := NoUpdate;
    }

    method GetMemberByName() returns (r: Lookup)
      ensures r == FindMember(ring.members, podName, HostOf(podName, namespace))
    {
      var members := ring.members;
      for i := 0 to |members|
        invariant FindMember(members[i..], podName, HostOf(podName, namespace))
                == FindMember(members, podName, HostOf(podName, namespace))
      {
        assert members[i..][1..] == members[i + 1..];
        if members[i].peerUrls == [] {
          return Crash;
        }
        var url := members[i].peerUrls[0];
        if url.Malformed? {
          return Unparsable;
        }
        if members[i].name == podName || url.host == HostOf(podName, namespace) {
          return Found(members[i]);
        }
      }
      r := Absent;
    }

    /** None when some URL that has to be looked at does not parse. */
    method GetUnwantedMembers() returns (r: Option<seq<Member>>)
      ensures r.Some? <==> forall m :: m in ring.members ==> Readable(m)
      ensures r.Some? ==> r.value == Unwanted(ring.members, PeerHosts(clusterSize, namespace))
    {
      var members := ring.members;
      var expected := PeerHostsList();
      var unwanted := [];
      for i := 0 to |members|
        invariant forall m :: m in members[..i] ==> Readable(m)
        invariant unwanted == Unwanted(members[..i], expected)
      {
        var m := members[i];
        assert members[..i + 1][..i] == members[..i];
        assert m in members;
        assert forall x :: x in members[..i + 1] <==> x in members[..i] || x == m;
        var entries := CheckMember(m, expected);
        if entries.None? {
          return None;
        }
        unwanted := unwanted + entries.value;
      }
      assert members[..|members|] == members;
      r := Some(unwanted);
    }

    /** The list entries of one member, or None at the first URL that does not parse. */
    method CheckMember(m: Member, expected: seq<string>) returns (r: Option<seq<Member>>)
      ensures r.Some? <==> Readable(m)
      ensures r.Some? ==> r.value == UnwantedEntries(m, expected)
    {
      if |m.peerUrls| != 1 && |m.peerUrls| != 2 {
        return Some([m]);
      }
      var entries := [];
      for k := 0 to |m.peerUrls|
        invariant forall j :: 0 <= j < k ==> m.peerUrls[j].Url?
        invariant entries == ForeignUrls(m, m.peerUrls[..k], expected)
      {
        if m.peerUrls[k].Malformed? {
          return None;
        }
        assert m.peerUrls[..k + 1][..k] == m.peerUrls[..k];
        if m.peerUrls[k].host !in expected {
          entries := entries + [m];
        }
      }
      assert m.peerUrls[..|m.peerUrls|] == m.peerUrls;
      r := Some(entries);
    }

    method PollHealth(m: Member, probes: Probes) returns (ok: bool)
      ensures ok == Responds(m, probes)
      ensures ok <==> m.clientUrls != [] && exists k :: 0 <= k < 15 && probes(m.id, k) == Healthy
                                                     && forall j :: 0 <= j < k ==> probes(m.id, j) == Unhealthy
    {
      RespondsExact(m, probes);
      for k := 0 to POLLS
        invariant m.clientUrls != [] ==> forall j :: 0 <= j < k ==> probes(m.id, j) == Unhealthy
      {
        if m.clientUrls != [] {
          match probes(m.id, k)
          case Healthy => assert HealthyAt(m, probes, k); return true;
          case Unhealthy =>
          case ProbeError => return false;
        }
      }
      ok := false;
    }

    /** Removes the first dead entry and stops there; the removal call itself may fail. */
    method RemoveDeadMembers(unwanted: seq<Member>, probes: Probes, callSucceeds: bool)
      modifies ring
      ensures ring.nextId == old(ring.nextId)
      ensures var dead := FirstDead(unwanted, podName, probes);
              ring.members == if dead.Some? && callSucceeds then Remove(old(ring.members), dead.value.id)
                              else old(ring.members)
    {
      for i := 0 to |unwanted|
        invariant ring.members == old(ring.members) && ring.nextId == old(ring.nextId)
        invariant FirstDead(unwanted[i..], podName, probes) == FirstDead(unwanted, podName, probes)
      {
        assert unwanted[i..][1..] == unwanted[i + 1..];
        if unwanted[i].name != podName {
          var ok := PollHealth(unwanted[i], probes);
          if !ok {
            if callSucceeds {
              ring.members := Remove(ring.members, unwanted[i].id);
            }
            return;
          }
        }
      }
    }

    /** One pass of the endless prune loop. */
    method DeleteUnwantedDeadMembers(leader: bool, probes: Probes, callSucceeds: bool)
      modifies ring
      ensures ring.nextId == old(ring.nextId)
      ensures ring.members ==
              Pruned(old(ring.members), PeerHosts(clusterSize, namespace), Pass(podName, leader, probes, callSucceeds))
    {
      var unwanted := GetUnwantedMembers();
      if unwanted.None? || unwanted.value == [] || !leader {
        return;
      }
      RemoveDeadMembers(unwanted.value, probes, callSucceeds);
    }

    /**
     The start-up decision: a pod without data directory that is still listed leaves the ring and joins anew, an
     unlisted pod joins, everybody else just starts. `ok` is false when the launcher panics. From an orderly ring the
     ring stays orderly, nobody else's member is touched, and a launcher that could read the list and goes on has
     exactly one member: the old one if it has data, a new one otherwise.
     */
    method JoinIfNeeded(hasData: bool, calls: Calls) returns (ok: bool)
      modifies ring
      ensures StartUp(ok, ring.members, ring.nextId)
           == StartedUp(old(ring.members), old(ring.nextId), podName, namespace, usePeerTLSOnly, hasData, calls)
      ensures forall i :: podName == PodName(i) && RingOk(old(ring.members), old(ring.nextId), namespace) ==>
                StartedWell(StartUp(true, old(ring.members), old(ring.nextId)), StartUp(ok, ring.members, ring.nextId),
                            i, namespace, usePeerTLSOnly, hasData, calls)
    {
      forall i | podName == PodName(i) && RingOk(ring.members, ring.nextId, namespace)
        ensures var r := StartedUp(ring.members, ring.nextId, podName, namespace, usePeerTLSOnly, hasData, calls);
                StartedWell(StartUp(true, ring.members, ring.nextId), r, i, namespace, usePeerTLSOnly, hasData, calls)
      {
        StartUpExact(ring.members, ring.nextId, i, namespace, usePeerTLSOnly, hasData, calls);
      }
      if !calls.list {
        return true;
      }
      var found := GetMemberByName();
      match found {
        case Crash => return false;
        case Unparsable => return true;
        case Found(m) =>
          if hasData {
            return true;
          }
          if !calls.remove {
            return false;
          }
          ring.members := Remove(ring.members, m.id);
        case Absent =>
      }
      if calls.add {
        ring.members := ring.members + [Joiner(ring.nextId, podName, namespace, usePeerTLSOnly)];
        ring.nextId := ring.nextId + 1;
      }
      ok := calls.add;
    }
  }

  /** A member as `MemberAdd` registers it: no name and no client URLs before it starts. */
  function Joiner(id: nat, pod: string, namespace: string, strict: bool): Member {
    Member(id, "", PeerUrls(HostOf(pod, namespace), strict), [])
  }

  // ---------- start-up ----------

  /** Which of the calls on the membership succeed. */
  datatype Calls = Calls(list: bool, remove: bool, add: bool)

  /** The outcome of a start-up: whether etcd is started, and the membership it leaves. */
  datatype StartUp = StartUp(ok: bool, members: seq<Member>, nextId: nat)

  function StartedUp(
    members: seq<Member>, nextId: nat, pod: string, ns: string, strict: bool, hasData: bool, calls: Calls): StartUp
  {
    if !calls.list then StartUp(true, members, nextId)
    else match FindMember(members, pod, HostOf(pod, ns))
      case Crash => StartUp(false, members, nextId)
      case Unparsable => StartUp(true, members, nextId)
      case Absent => Joined(members, nextId, pod, ns, strict, calls.add)
      case Found(m) =>
        if hasData then StartUp(true, members, nextId)
        else if !calls.remove then StartUp(false, members, nextId)
        else Joined(Remove(members, m.id), nextId, pod, ns, strict, calls.add)
  }

  function Joined(members: seq<Member>, nextId: nat, pod: string, ns: string, strict: bool, add: bool): StartUp {
    if add then StartUp(true, members + [Joiner(nextId, pod, ns, strict)], nextId + 1)
    else StartUp(false, members, nextId)
  }

  ghost predicate Placed(members: seq<Member>, ns: string) {
    forall m, i :: m in members && m.name == PodName(i) ==> OnHost(m, PodHost(i, ns))
  }

  ghost predicate OnePerHost(members: seq<Member>, ns: string) {
    forall a, b, i :: 0 <= a < b < |members| && OnHost(members[a], PodHost(i, ns)) ==>
      !OnHost(members[b], PodHost(i, ns))
  }

  ghost predicate RingOk(members: seq<Member>, nextId: nat, ns: string) {
    && DistinctIds(members) && (forall m :: m in members ==> m.id < nextId)
    && Placed(members, ns) && OnePerHost(members, ns)
  }

  predicate HostKnown(m: Member) { m.peerUrls != [] && m.peerUrls[0].Url? }

  ghost predicate OnceOnHost(members: seq<Member>, host: string) {
    exists k :: 0 <= k < |members| && OnHost(members[k], host)
      && forall j :: 0 <= j < |members| && j != k ==> !OnHost(members[j], host)
  }

  ghost predicate OthersKept(members: seq<Member>, r: seq<Member>, host: string) {
    forall m :: !OnHost(m, host) ==> (m in r <==> m in members)
  }

  /** What a start-up of pod `i` that can read the whole list makes of `s`, case by case. */
  ghost predicate StartedBy(s: StartUp, r: StartUp, i: nat, ns: string, strict: bool, hasData: bool, calls: Calls) {
    var host := "etcd-" + Decimal(i) + ".etcd." + ns + ".svc.cluster.local";
    var urls := if strict then [Url("https", host, "2381")]
                else [Url("http", host, "2380"), Url("https", host, "2381")];
    if (exists m :: m in s.members && OnHost(m, host)) && hasData
    then r.ok && r.members == s.members && r.nextId == s.nextId
    else if (exists m :: m in s.members && OnHost(m, host)) && !calls.remove
    then !r.ok && r.members == s.members && r.nextId == s.nextId
    else if !calls.add
    then !r.ok && r.nextId == s.nextId && forall m :: m in r.members <==> m in s.members && !OnHost(m, host)
    else
      && r.ok && r.nextId == s.nextId + 1
      && (forall m :: m in r.members <==> (m in s.members && !OnHost(m, host)) || m == Member(s.nextId, "", urls, []))
      && (forall m :: m in r.members && OnHost(m, host) ==> m.id == s.nextId && m !in s.members)
  }

  ghost predicate StartedWell(s: StartUp, r: StartUp, i: nat, ns: string, strict: bool, hasData: bool, calls: Calls) {
    && RingOk(r.members, r.nextId, ns) && OthersKept(s.members, r.members, PodHost(i, ns))
    && (!calls.list ==> r.ok && r.members == s.members && r.nextId == s.nextId)
    && (calls.list && (forall m :: m in s.members ==> HostKnown(m)) ==>
          && StartedBy(s, r, i, ns, strict, hasData, calls)
          && (r.ok ==> OnceOnHost(r.members, PodHost(i, ns))))
  }

  lemma {:induction false} RemovedOnePerHost(members: seq<Member>, id: nat, ns: string)
    requires OnePerHost(members, ns)
    ensures OnePerHost(Remove(members, id), ns)
  {
    if members == [] {
    } else {
      var front, last := members[..|members| - 1], members[|members| - 1];
      RemovedOnePerHost(front, id, ns);
      RemoveMembers(front, id);
      forall m, i | m in Remove(front, id) && OnHost(m, PodHost(i, ns)) ensures !OnHost(last, PodHost(i, ns)) {
        var a :| 0 <= a < |front| && front[a] == m;
        assert members[a] == m;
      }
      OnePerHostSnoc(Remove(front, id), last, ns);
    }
  }

  lemma OnePerHostSnoc(members: seq<Member>, last: Member, ns: string)
    requires OnePerHost(members, ns)
    requires forall m, i :: m in members && OnHost(m, PodHost(i, ns)) ==> !OnHost(last, PodHost(i, ns))
    ensures OnePerHost(members + [last], ns)
  {
    forall a, b, i | 0 <= a < b < |members| + 1 && OnHost((members + [last])[a], PodHost(i, ns))
      ensures !OnHost((members + [last])[b], PodHost(i, ns))
    {
      assert members[a] in members;
    }
  }

  /** In an orderly ring a member named after a pod or on its host is the only one on the host. */
  lemma OnlyMember(members: seq<Member>, nextId: nat, m: Member, i: nat, ns: string)
    requires RingOk(members, nextId, ns) && m in members && (m.name == PodName(i) || OnHost(m, PodHost(i, ns)))
    ensures OnHost(m, PodHost(i, ns)) && OnceOnHost(members, PodHost(i, ns))
    ensures forall x :: x in members && OnHost(x, PodHost(i, ns)) ==> x == m
  {
    var k :| 0 <= k < |members| && members[k] == m;
    assert OnHost(members[k], PodHost(i, ns));
    assert forall j :: 0 <= j < |members| && j != k ==> !OnHost(members[j], PodHost(i, ns));
  }

  /** Removing the only member on a host leaves the others and an orderly ring. */
  lemma LeftOk(members: seq<Member>, nextId: nat, m: Member, i: nat, ns: string)
    requires RingOk(members, nextId, ns) && m in members && (m.name == PodName(i) || OnHost(m, PodHost(i, ns)))
    ensures var r := Remove(members, m.id);
            && RingOk(r, nextId, ns) && OthersKept(members, r, PodHost(i, ns))
            && forall x :: x in r ==> x in members && !OnHost(x, PodHost(i, ns))
  {
    OnlyMember(members, nextId, m, i, ns);
    RemoveExact(members, m.id);
    RemovedOnePerHost(members, m.id, ns);
    forall x | x in members && x.id == m.id ensures x == m {
      var a :| 0 <= a < |members| && members[a] == x;
      var b :| 0 <= b < |members| && members[b] == m;
    }
  }

  /** Adding a member on a host without one gives it exactly one. */
  lemma JoinedExact(members: seq<Member>, nextId: nat, i: nat, ns: string, strict: bool)
    requires RingOk(members, nextId, ns) && forall m :: m in members ==> !OnHost(m, PodHost(i, ns))
    ensures var r := members + [Joiner(nextId, PodName(i), ns, strict)];
            RingOk(r, nextId + 1, ns) && OthersKept(members, r, PodHost(i, ns)) && OnceOnHost(r, PodHost(i, ns))
  {
    var me := Joiner(nextId, PodName(i), ns, strict);
    var r := members + [me];
    assert forall m :: m in r <==> m in members || m == me;
    assert OnHost(me, PodHost(i, ns)) && r[|members|] == me;
    forall m, j | m in members && OnHost(m, PodHost(j, ns)) ensures !OnHost(me, PodHost(j, ns)) {
      if OnHost(me, PodHost(j, ns)) { PodHostInjective(i, j, ns); }
    }
    OnePerHostSnoc(members, me, ns);
    DistinctSnoc(members, me);
    forall j | 0 <= j < |r| && j != |members| ensures !OnHost(r[j], PodHost(i, ns)) { assert members[j] in members; }
  }

  /**
   A start-up keeps the ring orderly and everybody else's member; if it could read the list and goes on, its pod has
   exactly one member: the one it had when it has data, and otherwise a new one with the URLs of its mode.
   */
  lemma StartUpExact(members: seq<Member>, nextId: nat, i: nat, ns: string, strict: bool, hasData: bool, calls: Calls)
    requires RingOk(members, nextId, ns)
    ensures var r := StartedUp(members, nextId, PodName(i), ns, strict, hasData, calls);
            StartedWell(StartUp(true, members, nextId), r, i, ns, strict, hasData, calls)
  {
    hide RingOk, OthersKept, OnceOnHost, Remove, StartedBy;
    var pod, host := PodName(i), PodHost(i, ns);
    NothingDone(members, host);
    FindMemberExact(members, pod, host);
    if calls.list && forall m :: m in members ==> HostKnown(m) {
      FindMemberKnown(members, pod, host);
      StartedByExact(members, nextId, i, ns, strict, hasData, calls);
    }
    var found := FindMember(members, pod, host);
    if found.Found? {
      OnlyMember(members, nextId, found.member, i, ns);
      LeftOk(members, nextId, found.member, i, ns);
      var left := Remove(members, found.member.id);
      JoinedExact(left, nextId, i, ns, strict);
      KeptTransitive(members, left, left + [Joiner(nextId, pod, ns, strict)], host);
    } else if found.Absent? {
      JoinedExact(members, nextId, i, ns, strict);
    }
  }

  lemma StartedByExact(members: seq<Member>, nextId: nat, i: nat, ns: string, strict: bool, hasData: bool, calls: Calls)
    requires RingOk(members, nextId, ns) && calls.list && forall m :: m in members ==> HostKnown(m)
    ensures var r := StartedUp(members, nextId, PodName(i), ns, strict, hasData, calls);
            StartedBy(StartUp(true, members, nextId), r, i, ns, strict, hasData, calls)
  {
    hide RingOk, OthersKept, OnceOnHost, Remove, Decimal;
    var pod, host := PodName(i), PodHost(i, ns);
    FindMemberExact(members, pod, host);
    FindMemberKnown(members, pod, host);
    IdsBelow(members, nextId, ns);
    var found, me := FindMember(members, pod, host), Joiner(nextId, pod, ns, strict);
    assert me.peerUrls == if strict then [Url("https", host, "2381")]
                          else [Url("http", host, "2380"), Url("https", host, "2381")];
    if found.Found? {
      OnlyMember(members, nextId, found.member, i, ns);
      LeftOk(members, nextId, found.member, i, ns);
      LeftExact(members, nextId, found.member, i, ns);
      var left := Remove(members, found.member.id);
      assert forall m :: m in left + [me] <==> m in left || m == me;
    } else {
      assert forall m :: m in members + [me] <==> m in members || m == me;
    }
  }

  lemma IdsBelow(members: seq<Member>, nextId: nat, ns: string)
    requires RingOk(members, nextId, ns)
    ensures forall m :: m in members ==> m.id < nextId
  {
  }

  lemma LeftExact(members: seq<Member>, nextId: nat, m: Member, i: nat, ns: string)
    requires RingOk(members, nextId, ns) && m in members && (m.name == PodName(i) || OnHost(m, PodHost(i, ns)))
    ensures forall x :: x in Remove(members, m.id) <==> x in members && !OnHost(x, PodHost(i, ns))
  {
    LeftOk(members, nextId, m, i, ns);
  }

  /** At the first member whose URL cannot be read the lookup ends: without URLs in a panic, else in a plain start. */
  lemma StartUpUnreadable(s: StartUp, pod: string, ns: string, strict: bool, hasData: bool, calls: Calls, k: nat)
    requires calls.list && k < |s.members| && !HostKnown(s.members[k])
    requires forall i :: 0 <= i < k ==> var m := s.members[i];
               HostKnown(m) && m.name != pod && m.peerUrls[0].host != pod + ".etcd." + ns + ".svc.cluster.local"
    ensures StartedUp(s.members, s.nextId, pod, ns, strict, hasData, calls)
         == s.(ok := s.members[k].peerUrls != [])
  {
    FindMemberFirst(s.members, pod, HostOf(pod, ns), k);
  }

  lemma NothingDone(members: seq<Member>, host: string)
    ensures OthersKept(members, members, host)
  {
  }

  lemma KeptTransitive(a: seq<Member>, b: seq<Member>, c: seq<Member>, host: string)
    requires OthersKept(a, b, host) && OthersKept(b, c, host)
    ensures OthersKept(a, c, host)
  {
  }

  // ---------- pruning ----------

  /** Who runs a prune pass and what it meets. */
  datatype Pass = Pass(pod: string, leader: bool, probes: Probes, callSucceeds: bool)

  /** The membership after one prune pass. */
  function Pruned(members: seq<Member>, hosts: seq<string>, pass: Pass): seq<Member> {
    if !pass.leader || exists m | m in members :: !Readable(m) then members
    else
      var dead := FirstDead(Unwanted(members, hosts), pass.pod, pass.probes);
      if dead.Some? && pass.callSucceeds then Remove(members, dead.value.id) else members
  }

  lemma {:induction false} FirstDeadExact(list: seq<Member>, pod: string, probes: Probes)
    ensures var r := FirstDead(list, pod, probes);
            && (r.Some? ==> r.value in list && r.value.name != pod && !Responds(r.value, probes))
            && (r.None? <==> forall m :: m in list ==> m.name == pod || Responds(m, probes))
  {
    if list == [] {
    } else {
      FirstDeadExact(list[1..], pod, probes);
      assert forall m :: m in list <==> m == list[0] || m in list[1..];
    }
  }

  lemma {:induction false} RemoveMembers(members: seq<Member>, id: nat)
    ensures forall m :: m in Remove(members, id) <==> m in members && m.id != id
  {
    if members == [] {
    } else {
      var front, last := members[..|members| - 1], members[|members| - 1];
      RemoveMembers(front, id);
      forall m ensures m in Remove(members, id) <==> m in members && m.id != id {
        assert m in members <==> m in front || m == last;
        assert m in Remove(front, id) + [last] <==> m in Remove(front, id) || m == last;
      }
    }
  }

  lemma {:induction false} RemoveNothing(members: seq<Member>, id: nat)
    requires forall m :: m in members ==> m.id != id
    ensures Remove(members, id) == members
  {
    if members == [] {
    } else {
      var front, last := members[..|members| - 1], members[|members| - 1];
      assert forall m :: m in front ==> m in members;
      RemoveNothing(front, id);
      assert last in members && members == front + [last];
    }
  }

  lemma DistinctFront(members: seq<Member>)
    requires members != [] && DistinctIds(members)
    ensures var front, last := members[..|members| - 1], members[|members| - 1];
            DistinctIds(front) && forall m :: m in front ==> m.id != last.id
  {
    var front, last := members[..|members| - 1], members[|members| - 1];
    forall m | m in front ensures m.id != last.id {
      var i :| 0 <= i < |front| && front[i] == m;
      assert members[i].id != last.id;
    }
  }

  lemma {:induction false} RemoveExact(members: seq<Member>, id: nat)
    requires DistinctIds(members)
    ensures forall m :: m in Remove(members, id) <==> m in members && m.id != id
    ensures DistinctIds(Remove(members, id))
  {
    RemoveMembers(members, id);
    if members == [] {
    } else {
      var front, last := members[..|members| - 1], members[|members| - 1];
      DistinctFront(members);
      RemoveExact(front, id);
      DistinctSnoc(Remove(front, id), last);
    }
  }

  lemma {:induction false} RemoveCount(members: seq<Member>, m: Member)
    requires DistinctIds(members) && m in members
    ensures |Remove(members, m.id)| == |members| - 1
  {
    var front, last := members[..|members| - 1], members[|members| - 1];
    DistinctFront(members);
    if m == last {
      RemoveNothing(front, m.id);
    } else {
      assert members == front + [last];
      assert m in front;
      RemoveCount(front, m);
    }
  }

  lemma DistinctSnoc(members: seq<Member>, last: Member)
    ensures DistinctIds(members) && (forall m :: m in members ==> m.id != last.id) ==> DistinctIds(members + [last])
  {
  }

  lemma RespondsExact(m: Member, probes: Probes)
    ensures Responds(m, probes) <==>
            m.clientUrls != [] && exists k :: 0 <= k < 15 && probes(m.id, k) == Healthy
                                           && forall j :: 0 <= j < k ==> probes(m.id, j) == Unhealthy
  {
    if m.clientUrls != [] {
      forall k | 0 <= k < 15 && probes(m.id, k) == Healthy && forall j :: 0 <= j < k ==> probes(m.id, j) == Unhealthy
        ensures HealthyAt(m, probes, k)
      {
      }
    }
  }

  /**
   What a pass may remove: not the launcher's own member, with no peer URL, more than two or one on an unexpected host,
   and with no client URL or without a good answer in fifteen attempts before one that ends the poll.
   */
  ghost predicate Doomed(m: Member, hosts: seq<string>, pass: Pass) {
    && m.name != pass.pod
    && (|m.peerUrls| == 0 || |m.peerUrls| > 2 || exists u :: u in m.peerUrls && u.Url? && u.host !in hosts)
    && (m.clientUrls == [] || forall k :: 0 <= k < 15 && pass.probes(m.id, k) == Healthy ==>
          exists j :: 0 <= j < k && pass.probes(m.id, j) != Unhealthy)
  }

  lemma DoomedExact(m: Member, hosts: seq<string>, pass: Pass)
    requires Readable(m)
    ensures Doomed(m, hosts, pass) <==> !Wanted(m, hosts) && m.name != pass.pod && !Responds(m, pass.probes)
  {
    RespondsExact(m, pass.probes);
    assert forall i :: 0 <= i < |m.peerUrls| ==> m.peerUrls[i] in m.peerUrls;
  }

  lemma {:induction false} FirstDeadConcat(a: seq<Member>, b: seq<Member>, pod: string, probes: Probes)
    ensures var r := FirstDead(a, pod, probes);
            FirstDead(a + b, pod, probes) == if r.Some? then r else FirstDead(b, pod, probes)
  {
    if a == [] {
      assert a + b == b;
    } else {
      assert (a + b)[1..] == a[1..] + b;
      FirstDeadConcat(a[1..], b, pod, probes);
    }
  }

  /** The first dead entry of the list, in which members may stand twice, is the first doomed member of the ring. */
  lemma {:induction false} FirstDoomed(members: seq<Member>, hosts: seq<string>, pass: Pass, k: nat)
    requires forall m :: m in members ==> Readable(m)
    requires k <= |members| && forall i :: 0 <= i < k ==> !Doomed(members[i], hosts, pass)
    requires k < |members| ==> Doomed(members[k], hosts, pass)
    ensures FirstDead(Unwanted(members, hosts), pass.pod, pass.probes)
         == if k < |members| then Some(members[k]) else None
  {
    hide Doomed, Responds, Wanted, UnwantedEntries;
    if members == [] {
    } else {
      var front, last := members[..|members| - 1], members[|members| - 1];
      assert forall m :: m in front ==> m in members;
      assert last in members;
      FirstDoomed(front, hosts, pass, if k <= |front| then k else |front|);
      DoomedExact(last, hosts, pass);
      FirstDeadExact(UnwantedEntries(last, hosts), pass.pod, pass.probes);
      forall x ensures x in UnwantedEntries(last, hosts) <==> x == last && !Wanted(last, hosts) {
        UnwantedEntriesExact(last, hosts, x);
      }
      FirstDeadConcat(Unwanted(front, hosts), UnwantedEntries(last, hosts), pass.pod, pass.probes);
    }
  }

  lemma {:induction false} RemoveAt(members: seq<Member>, k: nat)
    requires DistinctIds(members) && k < |members|
    ensures Remove(members, members[k].id) == members[..k] + members[k + 1..]
  {
    var front, last := members[..|members| - 1], members[|members| - 1];
    DistinctFront(members);
    if k == |front| {
      RemoveNothing(front, last.id);
      assert members[k + 1..] == [];
    } else {
      RemoveAt(front, k);
      assert front[k] in front && members[..k] == front[..k] && members[k + 1..] == front[k + 1..] + [last];
    }
  }

  /**
   A pass by the leader that can read every URL takes out the first doomed member and nothing else; without one, without
   leading or when its call fails it changes nothing.
   */
  lemma PrunedFirst(members: seq<Member>, hosts: seq<string>, pass: Pass, k: nat)
    requires DistinctIds(members)
    requires k <= |members| && forall i :: 0 <= i < k ==> !Doomed(members[i], hosts, pass)
    requires k < |members| ==> Doomed(members[k], hosts, pass)
    ensures Pruned(members, hosts, pass) ==
            if && pass.leader && pass.callSucceeds && k < |members|
               && forall m, u :: m in members && 1 <= |m.peerUrls| <= 2 && u in m.peerUrls ==> u.Url?
            then members[..k] + members[k + 1..] else members
  {
    hide Doomed, FirstDead, Unwanted, Remove;
    forall m ensures Readable(m) <==> (1 <= |m.peerUrls| <= 2 ==> forall u :: u in m.peerUrls ==> u.Url?) {
      assert forall i :: 0 <= i < |m.peerUrls| ==> m.peerUrls[i] in m.peerUrls;
    }
    if pass.leader && forall m :: m in members ==> Readable(m) {
      FirstDoomed(members, hosts, pass, k);
      if k < |members| { RemoveAt(members, k); }
    }
  }

  /** A pass removes nothing, or exactly one member: unwanted, not the launcher's own, and dead for the whole poll. */
  lemma PrunedExact(members: seq<Member>, hosts: seq<string>, pass: Pass)
    requires DistinctIds(members)
    ensures Pruned(members, hosts, pass) == members
            || exists m :: m in members && !Wanted(m, hosts) && m.name != pass.pod && !Responds(m, pass.probes)
                 && Pruned(members, hosts, pass) == Remove(members, m.id)
                 && |Pruned(members, hosts, pass)| == |members| - 1
    ensures DistinctIds(Pruned(members, hosts, pass))
  {
    if Pruned(members, hosts, pass) != members {
      var list := Unwanted(members, hosts);
      FirstDeadExact(list, pass.pod, pass.probes);
      var m := FirstDead(list, pass.pod, pass.probes).value;
      UnwantedExact(members, hosts, m);
      RemoveExact(members, m.id);
      RemoveCount(members, m);
    }
  }

  /** Passes of any launchers under any ring sizes, one after the other. */
  ghost function PruneRun(members: seq<Member>, passes: seq<(seq<string>, Pass)>): seq<Member>
    decreases |passes|
  {
    if passes == [] then members else PruneRun(Pruned(members, passes[0].0, passes[0].1), passes[1..])
  }

  ghost function Ids(members: seq<Member>): set<nat> {
    set m | m in members :: m.id
  }

  /** A responsive majority survives any number of prune passes, and stays a majority. */
  lemma {:induction false} MajorityKept(members: seq<Member>, passes: seq<(seq<string>, Pass)>, majority: set<nat>)
    requires DistinctIds(members)
    requires majority <= Ids(members) && 2 * |majority| > |members|
    requires forall i, m :: 0 <= i < |passes| && m in members && m.id in majority ==> Responds(m, passes[i].1.probes)
    ensures majority <= Ids(PruneRun(members, passes))
    ensures 2 * |majority| > |PruneRun(members, passes)|
    decreases |passes|
  {
    if passes == [] {
    } else {
      var next := Pruned(members, passes[0].0, passes[0].1);
      PrunedExact(members, passes[0].0, passes[0].1);
      if next != members {
        var m :| m in members && !Responds(m, passes[0].1.probes) && next == Remove(members, m.id);
        RemoveExact(members, m.id);
        assert m.id !in majority;
        forall id | id in majority ensures id in Ids(next) {
          var k :| k in members && k.id == id;
          assert k in next;
        }
      }
      MajorityKept(next, passes[1..], majority);
    }
  }

  // ---------- scale-down ----------

  /** Unwanted members other than the pruning launcher's own. */
  predicate Stray(m: Member, hosts: seq<string>, pod: string) {
    !Wanted(m, hosts) && m.name != pod
  }

  /** The members that are strays, or those that are not. */
  ghost function Select(members: seq<Member>, hosts: seq<string>, pod: string, stray: bool): seq<Member> {
    if members == [] then []
    else
      var front, last := Select(members[..|members| - 1], hosts, pod, stray), members[|members| - 1];
      if Stray(last, hosts, pod) == stray then front + [last] else front
  }

  lemma {:induction false} SelectExact(members: seq<Member>, hosts: seq<string>, pod: string, stray: bool)
    ensures forall m :: m in Select(members, hosts, pod, stray) <==> m in members && Stray(m, hosts, pod) == stray
    ensures Select(members, hosts, pod, true) == [] ==> Select(members, hosts, pod, false) == members
  {
    if members == [] {
    } else {
      var front, last := members[..|members| - 1], members[|members| - 1];
      SelectExact(front, hosts, pod, stray);
      assert members == front + [last];
      assert forall m :: m in members <==> m in front || m == last;
    }
  }

  /** Removing one member removes it from its own selection and leaves the other one alone. */
  lemma {:induction false} SelectRemove(members: seq<Member>, hosts: seq<string>, pod: string, stray: bool, m: Member)
    requires DistinctIds(members) && m in members
    ensures Select(Remove(members, m.id), hosts, pod, stray) == Remove(Select(members, hosts, pod, stray), m.id)
    ensures Stray(m, hosts, pod) != stray ==>
              Select(Remove(members, m.id), hosts, pod, stray) == Select(members, hosts, pod, stray)
    ensures Stray(m, hosts, pod) == stray ==>
              |Select(Remove(members, m.id), hosts, pod, stray)| == |Select(members, hosts, pod, stray)| - 1
  {
    SelectCommutes(members, hosts, pod, stray, m.id);
    SelectExact(members, hosts, pod, stray);
    SelectDistinct(members, hosts, pod, stray);
    var selected := Select(members, hosts, pod, stray);
    if Stray(m, hosts, pod) == stray {
      RemoveCount(selected, m);
    } else {
      forall x | x in selected ensures x.id != m.id {
        var i :| 0 <= i < |members| && members[i] == x;
        var j :| 0 <= j < |members| && members[j] == m;
      }
      RemoveNothing(selected, m.id);
    }
  }

  lemma {:induction false} SelectCommutes(members: seq<Member>, hosts: seq<string>, pod: string, stray: bool, id: nat)
    ensures Select(Remove(members, id), hosts, pod, stray) == Remove(Select(members, hosts, pod, stray), id)
  {
    if members == [] {
    } else {
      var front, last := members[..|members| - 1], members[|members| - 1];
      SelectCommutes(front, hosts, pod, stray, id);
      var rf, sf := Remove(front, id), Select(front, hosts, pod, stray);
      assert (rf + [last])[..|rf|] == rf && (sf + [last])[..|sf|] == sf;
    }
  }

  lemma {:induction false} SelectDistinct(members: seq<Member>, hosts: seq<string>, pod: string, stray: bool)
    requires DistinctIds(members)
    ensures DistinctIds(Select(members, hosts, pod, stray))
  {
    if members == [] {
    } else {
      var front, last := members[..|members| - 1], members[|members| - 1];
      DistinctFront(members);
      SelectDistinct(front, hosts, pod, stray);
      SelectExact(front, hosts, pod, stray);
      DistinctSnoc(Select(front, hosts, pod, stray), last);
    }
  }

  /** The conditions of a scale-down: URLs parse, this launcher leads, and the strays stay down. */
  ghost predicate ScalingDown(members: seq<Member>, hosts: seq<string>, pass: Pass) {
    && DistinctIds(members) && (forall m :: m in members ==> Readable(m))
    && pass.leader && pass.callSucceeds
    && forall m :: m in members && Stray(m, hosts, pass.pod) ==> !Responds(m, pass.probes)
  }

  /** One pass takes out exactly one stray while there is one, and changes nothing once there is none. */
  lemma ScaleDownPass(members: seq<Member>, hosts: seq<string>, pass: Pass)
    requires ScalingDown(members, hosts, pass)
    ensures var next := Pruned(members, hosts, pass);
            && Select(next, hosts, pass.pod, false) == Select(members, hosts, pass.pod, false)
            && (Select(members, hosts, pass.pod, true) == [] ==> next == members)
            && (Select(members, hosts, pass.pod, true) != [] ==>
                  |Select(next, hosts, pass.pod, true)| == |Select(members, hosts, pass.pod, true)| - 1)
            && DistinctIds(next) && forall m :: m in next ==> m in members
  {
    var list, strays := Unwanted(members, hosts), Select(members, hosts, pass.pod, true);
    FirstDeadExact(list, pass.pod, pass.probes);
    SelectExact(members, hosts, pass.pod, true);
    var dead := FirstDead(list, pass.pod, pass.probes);
    if dead.Some? {
      UnwantedExact(members, hosts, dead.value);
      SelectRemove(members, hosts, pass.pod, false, dead.value);
      SelectRemove(members, hosts, pass.pod, true, dead.value);
      RemoveExact(members, dead.value.id);
    } else if strays != [] {
      assert strays[0] in strays;
      UnwantedExact(members, hosts, strays[0]);
    }
  }

  /**
   Scale-down converges: as many passes as there are strays leave exactly the other members, in order, and more
   passes change nothing - although a member with two foreign URLs is listed twice.
   */
  lemma {:induction false} ScaleDownConverges(
    members: seq<Member>, hosts: seq<string>, pod: string, passes: seq<(seq<string>, Pass)>)
    requires forall i :: 0 <= i < |passes| ==> passes[i].0 == hosts && passes[i].1.pod == pod
    requires forall i :: 0 <= i < |passes| ==> ScalingDown(members, hosts, passes[i].1)
    requires |passes| >= |Select(members, hosts, pod, true)|
    ensures PruneRun(members, passes) == Select(members, hosts, pod, false)
    decreases |passes|
  {
    SelectExact(members, hosts, pod, true);
    if passes == [] {
    } else {
      ScaleDownPass(members, hosts, passes[0].1);
      var next := Pruned(members, hosts, passes[0].1);
      forall i | 0 <= i < |passes[1..]| ensures ScalingDown(next, hosts, passes[1..][i].1) {
        assert passes[1..][i] == passes[i + 1];
      }
      ScaleDownConverges(next, hosts, pod, passes[1..]);
    }
  }
}
