/** etcd members as the launcher sees them: peer URLs, pod host names, and who belongs in the ring. */
module EtcdMembers {

  /** A peer URL, or a text `url.Parse` rejects. */
  datatype Url = Url(scheme: string, host: string, port: string) | Malformed(text: string)

  datatype Member = Member(id: nat, name: string, peerUrls: seq<Url>, clientUrls: seq<string>)

  // ---------- host names ----------

  function Digit(d: nat): char
    requires d < 10
  {
    "0123456789"[d]
  }

  /** `%d` of a natural number. */
  function Decimal(n: nat): string {
    if n < 10 then [Digit(n)] else Decimal(n / 10) + [Digit(n % 10)]
  }

  predicate Digits(s: string) {
    forall i :: 0 <= i < |s| ==> '0' <= s[i] <= '9'
  }

  /** The number a text of decimal digits stands for. */
  function Value(s: string): nat
    requires Digits(s)
  {
    if s == "" then 0 else 10 * Value(s[..|s| - 1]) + (s[|s| - 1] as nat - '0' as nat)
  }

  lemma ValueSnoc(s: string, d: nat)
    requires Digits(s) && d < 10
    ensures Digits(s + [Digit(d)]) && Value(s + [Digit(d)]) == 10 * Value(s) + d
  {
    assert (s + [Digit(d)])[..|s|] == s;
  }

  /** Printed numbers read back as themselves. */
  lemma {:induction false} DecimalExact(n: nat)
    ensures Digits(Decimal(n)) && Value(Decimal(n)) == n
  {
    hide Digit;
    if n < 10 {
      assert "" + [Digit(n)] == [Digit(n)];
      ValueSnoc("", n);
    } else {
      hide Value, Digits;
      DecimalExact(n / 10);
      ValueSnoc(Decimal(n / 10), n % 10);
    }
  }

  lemma {:induction false} NoLeadingZero(n: nat)
    ensures Decimal(n) != "" && (n > 0 ==> Decimal(n)[0] != '0')
  {
    if n < 10 {
    } else {
      NoLeadingZero(n / 10);
    }
  }

  lemma DecimalInjective(m: nat, n: nat)
    requires Decimal(m) == Decimal(n)
    ensures m == n
  {
    DecimalExact(m);
    DecimalExact(n);
  }

  function PodName(i: nat): string { "etcd-" + Decimal(i) }

  function HostOf(pod: string, namespace: string): string {
    pod + ".etcd." + namespace + ".svc.cluster.local"
  }

  function PodHost(i: nat, namespace: string): string { HostOf(PodName(i), namespace) }

  lemma PodHostInjective(i: nat, j: nat, namespace: string)
    requires PodName(i) == PodName(j) || PodHost(i, namespace) == PodHost(j, namespace)
    ensures i == j
  {
    var suffix := ".etcd." + namespace + ".svc.cluster.local";
    if PodHost(i, namespace) == PodHost(j, namespace) {
      var h := PodHost(i, namespace);
      assert h == PodName(i) + suffix && h == PodName(j) + suffix;
      assert PodName(i) == h[..|h| - |suffix|] == PodName(j);
    }
    assert Decimal(i) == PodName(i)[5..] && Decimal(j) == PodName(j)[5..];
    DecimalInjective(i, j);
  }

  function PeerHosts(n: nat, namespace: string): seq<string> {
    seq(n, i requires 0 <= i => PodHost(i, namespace))
  }

  /** The host of pod `i` is expected exactly when the ring has more than `i` members. */
  lemma PeerHostsExact(n: nat, i: nat, namespace: string)
    ensures PodHost(i, namespace) in PeerHosts(n, namespace) <==> i < n
  {
    var hosts := PeerHosts(n, namespace);
    if i < n {
      assert hosts[i] == PodHost(i, namespace);
    } else if PodHost(i, namespace) in hosts {
      var k :| 0 <= k < n && hosts[k] == PodHost(i, namespace);
      PodHostInjective(i, k, namespace);
    }
  }

  // ---------- looking a member up ----------

  datatype Lookup = Found(member: Member) | Absent | Unparsable | Crash

  /** The first member with the name or, as a member has no name before it starts, with the host. */
  function FindMember(members: seq<Member>, name: string, host: string): Lookup {
    if members == [] then Absent
    else
      var m := members[0];
      if m.peerUrls == [] then Crash
      else if m.peerUrls[0].Malformed? then Unparsable
      else if m.name == name || m.peerUrls[0].host == host then Found(m)
      else FindMember(members[1..], name, host)
  }

  predicate OnHost(m: Member, host: string) {
    m.peerUrls != [] && m.peerUrls[0].Url? && m.peerUrls[0].host == host
  }

  lemma {:induction false} FindMemberExact(members: seq<Member>, name: string, host: string)
    ensures var r := FindMember(members, name, host);
            && (r.Found? ==> r.member in members && (r.member.name == name || OnHost(r.member, host)))
            && (r.Absent? ==> forall m :: m in members ==> m.name != name && !OnHost(m, host))
  {
    if members == [] {
    } else {
      FindMemberExact(members[1..], name, host);
      assert forall m :: m in members <==> m == members[0] || m in members[1..];
    }
  }

  /** The answer of the lookup is decided by the first member that matches or cannot be read. */
  lemma {:induction false} FindMemberFirst(members: seq<Member>, name: string, host: string, k: nat)
    requires k < |members|
    requires forall i :: 0 <= i < k ==>
               var m := members[i];
               m.peerUrls != [] && m.peerUrls[0].Url? && m.name != name && m.peerUrls[0].host != host
    ensures var m, r := members[k], FindMember(members, name, host);
            && (m.peerUrls == [] ==> r == Crash)
            && (m.peerUrls != [] && m.peerUrls[0].Malformed? ==> r == Unparsable)
            && (m.peerUrls != [] && m.peerUrls[0].Url? && (m.name == name || m.peerUrls[0].host == host) ==>
                  r == Found(m))
  {
    if k == 0 {
    } else {
      assert forall i :: 0 <= i < k - 1 ==> members[1..][i] == members[i + 1];
      assert members[0].peerUrls != [] && members[0].peerUrls[0].Url?;
      FindMemberFirst(members[1..], name, host, k - 1);
    }
  }

  /** A list whose hosts can be read gives a plain answer. */
  lemma {:induction false} FindMemberKnown(members: seq<Member>, name: string, host: string)
    requires forall m :: m in members ==> m.peerUrls != [] && m.peerUrls[0].Url?
    ensures FindMember(members, name, host).Found? || FindMember(members, name, host).Absent?
  {
    if members == [] {
    } else {
      FindMemberKnown(members[1..], name, host);
    }
  }

  // ---------- unwanted members ----------

  predicate Listable(m: Member) {
    |m.peerUrls| == 1 || |m.peerUrls| == 2
  }

  predicate Readable(m: Member) {
    Listable(m) ==> forall i :: 0 <= i < |m.peerUrls| ==> m.peerUrls[i].Url?
  }

  /** One or two peer URLs, all on expected hosts. */
  predicate Wanted(m: Member, hosts: seq<string>) {
    Listable(m) && forall i :: 0 <= i < |m.peerUrls| ==> m.peerUrls[i].Url? && m.peerUrls[i].host in hosts
  }

  /** The entries one member contributes: one per foreign URL, or one for a wrong number of URLs. */
  function UnwantedEntries(m: Member, hosts: seq<string>): seq<Member>
    requires Readable(m)
  {
    if !Listable(m) then [m] else ForeignUrls(m, m.peerUrls, hosts)
  }

  function ForeignUrls(m: Member, urls: seq<Url>, hosts: seq<string>): seq<Member>
    requires forall i :: 0 <= i < |urls| ==> urls[i].Url?
  {
    if urls == [] then []
    else ForeignUrls(m, urls[..|urls| - 1], hosts) + if urls[|urls| - 1].host in hosts then [] else [m]
  }

  function Unwanted(members: seq<Member>, hosts: seq<string>): seq<Member>
    requires forall m :: m in members ==> Readable(m)
  {
    if members == [] then []
    else Unwanted(members[..|members| - 1], hosts) + UnwantedEntries(members[|members| - 1], hosts)
  }

  lemma {:induction false} ForeignUrlsExact(m: Member, urls: seq<Url>, hosts: seq<string>)
    requires forall i :: 0 <= i < |urls| ==> urls[i].Url?
    ensures ForeignUrls(m, urls, hosts) == [] <==> forall i :: 0 <= i < |urls| ==> urls[i].host in hosts
    ensures forall x :: x in ForeignUrls(m, urls, hosts) ==> x == m
  {
    if urls == [] {
    } else {
      var front := urls[..|urls| - 1];
      ForeignUrlsExact(m, front, hosts);
      assert forall i :: 0 <= i < |front| ==> urls[i] == front[i];
    }
  }

  lemma UnwantedEntriesExact(m: Member, hosts: seq<string>, x: Member)
    requires Readable(m)
    ensures x in UnwantedEntries(m, hosts) <==> x == m && !Wanted(m, hosts)
  {
    if Listable(m) {
      ForeignUrlsExact(m, m.peerUrls, hosts);
      var entries := ForeignUrls(m, m.peerUrls, hosts);
      assert entries != [] ==> entries[0] in entries;
    }
  }

  /** A member is in the unwanted list exactly when it is in the ring and not wanted. */
  lemma {:induction false} UnwantedExact(members: seq<Member>, hosts: seq<string>, x: Member)
    requires forall m :: m in members ==> Readable(m)
    ensures x in Unwanted(members, hosts) <==> x in members && !Wanted(x, hosts)
  {
    if members == [] {
    } else {
      var last, front := members[|members| - 1], members[..|members| - 1];
      assert last in members && forall m :: m in front ==> m in members;
      UnwantedExact(front, hosts, x);
      UnwantedEntriesExact(last, hosts, x);
      assert x in members <==> x in front || x == last;
    }
  }

  // ---------- peer URLs ----------

  const PLAIN_PORT := "2380"
  const TLS_PORT := "2381"

  function PeerUrls(host: string, strict: bool): seq<Url> {
    (if strict then [] else [Url("http", host, PLAIN_PORT)]) + [Url("https", host, TLS_PORT)]
  }

  /** The URLs a launcher in the given mode replaces its member's URLs with; unchanged where it leaves them alone. */
  function UpdatedUrls(urls: seq<Url>, strict: bool): seq<Url>
    requires urls != [] && urls[0].Url?
  {
    if !strict && (|urls| == 1 || urls[0].scheme != "http") then PeerUrls(urls[0].host, false)
    else if strict && |urls| == 2 then PeerUrls(urls[0].host, true)
    else urls
  }

  /** Whether the launcher would issue an update at all. */
  predicate NeedsUpdate(urls: seq<Url>, strict: bool)
    requires urls != [] && urls[0].Url?
  {
    if strict then |urls| == 2 else |urls| == 1 || urls[0].scheme != "http"
  }

  datatype Plan = NoUpdate | Update(id: nat, urls: seq<Url>) | PlanUnparsable | PlanCrash

  /** The single update a start-up issues: the first own member, in list order, whose URLs need it. */
  function UpdatePlan(members: seq<Member>, pod: string, strict: bool): Plan {
    if members == [] then NoUpdate
    else
      var m := members[0];
      if m.peerUrls == [] then PlanCrash
      else if m.peerUrls[0].Malformed? then PlanUnparsable
      else if m.name == pod && NeedsUpdate(m.peerUrls, strict) then Update(m.id, UpdatedUrls(m.peerUrls, strict))
      else UpdatePlan(members[1..], pod, strict)
  }

  /** The membership after the plan is carried out. */
  function Carried(members: seq<Member>, plan: Plan): (r: seq<Member>)
    ensures |r| == |members|
  {
    if plan.Update?
    then seq(|members|, i requires 0 <= i < |members| =>
               if members[i].id == plan.id then members[i].(peerUrls := plan.urls) else members[i])
    else members
  }

  ghost predicate DistinctIds(members: seq<Member>) {
    forall i, j :: 0 <= i < j < |members| ==> members[i].id != members[j].id
  }

  lemma {:induction false} UpdatePlanExact(members: seq<Member>, pod: string, strict: bool) returns (k: nat)
    ensures var p := UpdatePlan(members, pod, strict);
            p.Update? ==>
              && k < |members| && members[k].id == p.id && members[k].name == pod
              && members[k].peerUrls != [] && members[k].peerUrls[0].Url?
              && p.urls == PeerUrls(members[k].peerUrls[0].host, strict) == UpdatedUrls(members[k].peerUrls, strict)
              && NeedsUpdate(members[k].peerUrls, strict)
              && forall i :: 0 <= i < k ==> PassedOver(members[i], pod, strict)
  {
    k := 0;
    if members == [] {
    } else {
      var m := members[0];
      if m.peerUrls != [] && m.peerUrls[0].Url? && !(m.name == pod && NeedsUpdate(m.peerUrls, strict)) {
        k := UpdatePlanExact(members[1..], pod, strict);
        k := k + 1;
      }
    }
  }

  /** Start-up rewrites at most its own member, to one or two URLs on the same host. */
  lemma UpdateKeepsOthers(members: seq<Member>, pod: string, strict: bool, i: nat)
    requires DistinctIds(members) && i < |members|
    ensures var r := Carried(members, UpdatePlan(members, pod, strict));
            && r[i].(peerUrls := members[i].peerUrls) == members[i]
            && (r[i] == members[i]
                || (members[i].name == pod && members[i].peerUrls != [] && members[i].peerUrls[0].Url?
                    && r[i].peerUrls == PeerUrls(members[i].peerUrls[0].host, strict)))
  {
    var k := UpdatePlanExact(members, pod, strict);
  }

  /** An update leaves nothing for a repeat in the same mode to do. */
  lemma UpdatedOnce(urls: seq<Url>, strict: bool)
    requires urls != [] && urls[0].Url?
    ensures NeedsUpdate(urls, strict) ==> !NeedsUpdate(UpdatedUrls(urls, strict), strict)
    ensures UpdatedUrls(urls, strict) != [] && UpdatedUrls(urls, strict)[0].Url?
  {
  }

  /** A member that the start-up of `pod` passes over on its way through the list. */
  predicate PassedOver(m: Member, pod: string, strict: bool) {
    m.peerUrls != [] && m.peerUrls[0].Url? && !(m.name == pod && NeedsUpdate(m.peerUrls, strict))
  }

  /** Members passed over do not matter to the plan. */
  lemma {:induction false} PlanAfter(members: seq<Member>, pod: string, strict: bool, k: nat)
    requires k <= |members| && forall i :: 0 <= i < k ==> PassedOver(members[i], pod, strict)
    ensures UpdatePlan(members, pod, strict) == UpdatePlan(members[k..], pod, strict)
  {
    if k == 0 {
      assert members[0..] == members;
    } else {
      PlanAfter(members[1..], pod, strict, k - 1);
      assert members[1..][k - 1..] == members[k..];
    }
  }

  /**
   What a repeat of the start-up in the same mode does, exactly: nothing but what the members after the updated one
   call for. So it updates again if and only if one of these, before the first that cannot be read, is named after the
   pod and needs it.
   */
  lemma UpdateAgainExact(members: seq<Member>, pod: string, strict: bool) returns (k: nat)
    requires DistinctIds(members)
    ensures var p := UpdatePlan(members, pod, strict);
            && (p.Update? ==>
                  && k < |members| && members[k].id == p.id && members[k].name == pod
                  && UpdatePlan(Carried(members, p), pod, strict) == UpdatePlan(members[k + 1..], pod, strict))
            && (!p.Update? ==> UpdatePlan(Carried(members, p), pod, strict) == p)
  {
    k := UpdatePlanExact(members, pod, strict);
    var p := UpdatePlan(members, pod, strict);
    if p.Update? {
      var r := Carried(members, p);
      UpdatedOnce(members[k].peerUrls, strict);
      assert r[k].peerUrls == p.urls == UpdatedUrls(members[k].peerUrls, strict);
      forall i | 0 <= i < k + 1 ensures PassedOver(r[i], pod, strict) {
        assert i < k ==> PassedOver(members[i], pod, strict) && r[i] == members[i];
      }
      PlanAfter(r, pod, strict, k + 1);
      assert r[k + 1..] == members[k + 1..];
    }
  }

  /** At most one member carries the name. */
  ghost predicate NamedOnce(members: seq<Member>, pod: string) {
    forall i, j :: 0 <= i < j < |members| && members[i].name == pod ==> members[j].name != pod
  }

  /** Start-up is idempotent: with one member of the pod's name at most, a repeat in the same mode updates nothing. */
  lemma UpdateIdempotent(members: seq<Member>, pod: string, strict: bool)
    requires DistinctIds(members) && NamedOnce(members, pod)
    ensures var r := Carried(members, UpdatePlan(members, pod, strict));
            !UpdatePlan(r, pod, strict).Update? && Carried(r, UpdatePlan(r, pod, strict)) == r
  {
    var k := UpdateAgainExact(members, pod, strict);
    if UpdatePlan(members, pod, strict).Update? {
      var rest := members[k + 1..];
      var i := UpdatePlanExact(rest, pod, strict);
      assert forall j :: 0 <= j < |rest| ==> rest[j] == members[k + 1 + j];
    }
  }

  /** With two members of the name it need not be: a repeat updates the second. */
  lemma UpdateTwice(pod: string, host: string)
    ensures var urls := [Url("https", host, TLS_PORT)];
            var ms := [Member(0, pod, urls, []), Member(1, pod, urls, [])];
            UpdatePlan(Carried(ms, UpdatePlan(ms, pod, false)), pod, false) == Update(1, PeerUrls(host, false))
  {
    var m, n := Member(0, pod, [Url("https", host, TLS_PORT)], []), Member(1, pod, [Url("https", host, TLS_PORT)], []);
    assert UpdatePlan([m, n], pod, false) == Update(0, PeerUrls(host, false));
    var r := Carried([m, n], Update(0, PeerUrls(host, false)));
    assert r == [m.(peerUrls := PeerUrls(host, false)), n];
    assert r[1..] == [n];
    assert UpdatePlan(r, pod, false) == UpdatePlan(r[1..], pod, false);
  }

  /** A member that a start-up of the pod gets to see: its own, the only one of the name, behind readable ones. */
  ghost predicate OwnAt(members: seq<Member>, pod: string, k: nat) {
    && DistinctIds(members) && NamedOnce(members, pod) && k < |members| && members[k].name == pod
    && forall i :: 0 <= i <= k ==> members[i].peerUrls != [] && members[i].peerUrls[0].Url?
  }

  /**
   What a start-up makes of the pod's own URLs, in all cases. In mixed mode a single URL, whatever it is, and a list
   that does not begin with plain HTTP become both ports on the same host; in strict mode two URLs become the TLS one.
   */
  lemma OwnUrlsExact(members: seq<Member>, pod: string, strict: bool, k: nat)
    requires OwnAt(members, pod, k)
    ensures var u, r := members[k].peerUrls, Carried(members, UpdatePlan(members, pod, strict))[k].peerUrls;
            var h := u[0].host;
            && (!strict && (|u| == 1 || u[0].scheme != "http") ==>
                  r == [Url("http", h, "2380"), Url("https", h, "2381")])
            && (!strict && |u| != 1 && u[0].scheme == "http" ==> r == u)
            && (strict && |u| == 2 ==> r == [Url("https", h, "2381")])
            && (strict && |u| != 2 ==> r == u)
  {
    forall i | 0 <= i < k ensures PassedOver(members[i], pod, strict) {
      assert members[i].name != pod;
    }
    PlanAfter(members, pod, strict, k);
    var rest := members[k..];
    assert rest[0] == members[k];
    if PassedOver(members[k], pod, strict) {
      assert rest[1..] == members[k + 1..];
      NoneNamed(rest[1..], pod, strict);
    }
  }

  /** A start-up that meets a member it cannot read stops there: in a panic without URLs, else with an error. */
  lemma UnreadableEnds(members: seq<Member>, pod: string, strict: bool, k: nat)
    requires k < |members| && forall i :: 0 <= i < k ==>
               members[i].peerUrls != [] && members[i].peerUrls[0].Url? && members[i].name != pod
    ensures members[k].peerUrls == [] ==> UpdatePlan(members, pod, strict) == PlanCrash
    ensures members[k].peerUrls != [] && members[k].peerUrls[0].Malformed? ==>
              UpdatePlan(members, pod, strict) == PlanUnparsable
  {
    assert forall i :: 0 <= i < k ==> PassedOver(members[i], pod, strict);
    PlanAfter(members, pod, strict, k);
  }

  /** Without a member of the name nothing is updated. */
  lemma NoneNamed(members: seq<Member>, pod: string, strict: bool)
    requires forall i :: 0 <= i < |members| ==> members[i].name != pod
    ensures !UpdatePlan(members, pod, strict).Update?
  {
    var k := UpdatePlanExact(members, pod, strict);
  }

  /** The URLs after a series of restarts in the given modes. */
  ghost function Restarts(urls: seq<Url>, modes: seq<bool>): seq<Url>
    requires urls != [] && urls[0].Url?
    decreases |modes|
  {
    if modes == [] then urls else Restarts(UpdatedUrls(urls, modes[0]), modes[1..])
  }

  /** URLs a first restart in the given mode brings into the mode's own form. */
  predicate Convertible(urls: seq<Url>, strict: bool)
    requires urls != [] && urls[0].Url?
  {
    NeedsUpdate(urls, strict) || urls == PeerUrls(urls[0].host, strict)
  }

  /** Either mode converts either mode's form into its own. */
  lemma FormConvertible(host: string, was: bool, strict: bool)
    ensures Convertible(PeerUrls(host, was), strict)
    ensures UpdatedUrls(PeerUrls(host, was), strict) == PeerUrls(host, strict)
  {
  }

  /** A restart either brings the URLs into the mode's form or leaves them alone. */
  lemma RestartStep(urls: seq<Url>, strict: bool)
    requires urls != [] && urls[0].Url?
    ensures UpdatedUrls(urls, strict) == if Convertible(urls, strict) then PeerUrls(urls[0].host, strict) else urls
    ensures !Convertible(urls, strict) ==> urls != PeerUrls(urls[0].host, strict)
  {
  }

  lemma {:induction false} RestartsConverted(host: string, was: bool, modes: seq<bool>)
    requires modes != []
    ensures Restarts(PeerUrls(host, was), modes) == PeerUrls(host, modes[|modes| - 1])
    decreases |modes|
  {
    FormConvertible(host, was, modes[0]);
    if |modes| == 1 {
      assert modes[1..] == [];
    } else {
      RestartsConverted(host, modes[0], modes[1..]);
    }
  }

  /**
   Along any restarts the member ends with exactly the last mode's URLs - both ports in mixed mode, TLS only in strict
   mode - if and only if some of the modes finds its original URLs convertible. In particular the two-port URLs of
   mixed mode always qualify, while a lone plaintext URL stays as it is until a restart in mixed mode.
   */
  lemma {:induction false} RestartsExact(urls: seq<Url>, modes: seq<bool>)
    requires urls != [] && urls[0].Url? && modes != []
    ensures Restarts(urls, modes) == PeerUrls(urls[0].host, modes[|modes| - 1]) <==>
              exists i :: 0 <= i < |modes| && Convertible(urls, modes[i])
    ensures urls == PeerUrls(urls[0].host, false) ==> Convertible(urls, modes[0])
    decreases |modes|
  {
    var rest := modes[1..];
    RestartStep(urls, modes[0]);
    assert forall i :: 0 <= i < |rest| ==> rest[i] == modes[i + 1];
    if Convertible(urls, modes[0]) {
      if rest != [] { RestartsConverted(urls[0].host, modes[0], rest); }
    } else if rest != [] {
      RestartsExact(urls, rest);
      assert (exists i :: 0 <= i < |rest| && Convertible(urls, rest[i])) <==>
             (exists i :: 0 <= i < |modes| && Convertible(urls, modes[i])) by {
        if i :| 0 <= i < |modes| && Convertible(urls, modes[i]) { assert Convertible(urls, rest[i - 1]); }
      }
    }
  }

  /** When a mode can convert, written out. */
  lemma ConvertibleExact(urls: seq<Url>, strict: bool)
    requires urls != [] && urls[0].Url?
    ensures var h := urls[0].host;
            Convertible(urls, strict) <==>
              if strict then |urls| == 2 || urls == [Url("https", h, "2381")]
              else |urls| == 1 || urls[0].scheme != "http" || urls == [Url("http", h, "2380"), Url("https", h, "2381")]
  {
  }

  /** A lone plaintext URL ends with the last mode's URLs if and only if one of the restarts is in mixed mode. */
  lemma LonePlaintextRestarts(h: string, modes: seq<bool>)
    requires modes != []
    ensures var both, tls := [Url("http", h, "2380"), Url("https", h, "2381")], [Url("https", h, "2381")];
            Restarts([Url("http", h, "2380")], modes) ==
              if false !in modes then [Url("http", h, "2380")] else if modes[|modes| - 1] then tls else both
  {
    var urls := [Url("http", h, "2380")];
    RestartsExact(urls, modes);
    forall i | 0 <= i < |modes| ensures Convertible(urls, modes[i]) <==> !modes[i] { ConvertibleExact(urls, modes[i]); }
    assert PeerUrls(h, true) == [Url("https", h, "2381")];
    assert PeerUrls(h, false) == [Url("http", h, "2380"), Url("https", h, "2381")];
    if false !in modes {
      LonePlaintextStrict(h, modes);
    } else {
      var i :| 0 <= i < |modes| && modes[i] == false;
    }
  }

  lemma {:induction false} LonePlaintextStrict(h: string, modes: seq<bool>)
    requires false !in modes
    ensures Restarts([Url("http", h, "2380")], modes) == [Url("http", h, "2380")]
    decreases |modes|
  {
    if modes == [] {
    } else {
      assert modes[0] in modes && forall b :: b in modes[1..] ==> b in modes;
      LonePlaintextStrict(h, modes[1..]);
    }
  }

  lemma LonePlaintextStays(host: string)
    ensures UpdatedUrls([Url("http", host, PLAIN_PORT)], true) == [Url("http", host, PLAIN_PORT)]
    ensures !Convertible([Url("http", host, PLAIN_PORT)], true)
  {
    assert [Url("http", host, PLAIN_PORT)][0].scheme != PeerUrls(host, true)[0].scheme;
  }
}
