/** What a deletion run must never do: the book it keeps of deleted load balancers, and the entries of its log. */
module Ledger {
  import opened Text
  import opened StringSets
  import opened World

  /** Which sense the last line of the load-balancer check is given: as documented and used, or as written. */
  datatype Sense = Documented | Written

  // ---------- the verdict on the load balancers ----------

  /** The recorded load balancers whose deletion no event has confirmed. */
  function Unconfirmed(ids: string, events: set<string>): set<string> { Parse(ids) - events }

  function FinalAnswer(sense: Sense, remaining: set<string>): bool {
    match sense
    case Documented => remaining == {}
    case Written => remaining != {}
  }

  /** The check consults the events at all. */
  predicate Consults(cfg: Config, ids: string, w: World) {
    (cfg.aws || cfg.azure || cfg.openstack) && ids != "" && w.now <= cfg.deletedAt + 7200
  }

  function Verdict(sense: Sense, cfg: Config, ids: string, w: World): bool {
    Consults(cfg, ids, w) ==> FinalAnswer(sense, Unconfirmed(ids, w.lb.events))
  }

  /** No provider needs its load balancers to be waited for, or the two hours, in seconds, are over. */
  predicate NoWaitDue(cfg: Config, w: World) {
    !(cfg.aws || cfg.azure || cfg.openstack) || w.now > cfg.deletedAt + 7200
  }

  /** "Gone" is justified when nothing has to be waited for, or nothing is left to wait for. */
  predicate Justified(cfg: Config, ids: string, w: World) {
    NoWaitDue(cfg, w) || Unconfirmed(ids, w.lb.events) == {}
  }

  /**
   As documented, the verdict is "gone" exactly when that is justified. As written, it is never wrong exactly when
   the events are not consulted or all deletions are confirmed, and the two verdicts agree exactly when they are not
   consulted.
   */
  lemma VerdictExact(cfg: Config, ids: string, w: World)
    ensures Verdict(Documented, cfg, ids, w) <==> Justified(cfg, ids, w)
    ensures (Verdict(Written, cfg, ids, w) ==> Justified(cfg, ids, w)) <==>
              !(Consults(cfg, ids, w) && Unconfirmed(ids, w.lb.events) != {})
    ensures Verdict(Written, cfg, ids, w) == Verdict(Documented, cfg, ids, w) <==> !Consults(cfg, ids, w)
  {
    ParseEmpty();
  }

  lemma ParseEmpty()
    ensures Parse("") == {} && Encode({}) == ""
  {
    assert SortedList({}) == [];
  }

  // ---------- the ledger ----------

  /**
   `deleted`: load-balancer services the controller deleted; `seen`: those whose event it saw; `broken`: those of which
   some cleanup was broken off between the deletion and the end of the wait for the lister; `doubt`: those of which it
   is not known whether the annotation has them.
   */
  datatype Ledger = Ledger(deleted: set<string>, seen: set<string>, doubt: set<string>, broken: set<string>)

  /** A cleanup has deleted the service and, if nothing follows, was broken off; one on record stays on record. */
  function Begun(l: Ledger, uid: string): Ledger {
    Ledger(l.deleted + {uid}, l.seen, if uid in l.deleted - l.doubt then l.doubt else l.doubt + {uid}, l.broken + {uid})
  }

  /** A cleanup of the service has completed; an earlier doubt goes if the wait was sure to meet a lasting record. */
  function Finished(l: Ledger, uid: string, sure: bool): Ledger {
    l.(deleted := l.deleted + {uid}, doubt := if sure then l.doubt - {uid} else l.doubt)
  }

  /** Deletions, sightings and broken-off cleanups only accumulate; new doubt only comes from the newly broken off. */
  ghost predicate Extends(l: Ledger, m: Ledger) {
    && l.deleted <= m.deleted && l.seen <= m.seen && l.broken <= m.broken
    && m.doubt <= l.doubt + (m.broken - l.broken)
  }

  /** The same, with at most `failures` more services whose cleanup was broken off. */
  ghost predicate Grown(l: Ledger, m: Ledger, failures: nat) {
    Extends(l, m) && |m.broken| <= |l.broken| + failures
  }

  lemma GrownTransitive(l: Ledger, m: Ledger, n: Ledger, some: nat, more: nat, failures: nat)
    requires Grown(l, m, some) && Grown(m, n, more) && some + more <= failures
    ensures Grown(l, n, failures)
  {
  }

  lemma GrownReflexive(l: Ledger)
    ensures Grown(l, l, 0) && Grown(l, l, 1)
  {
  }

  lemma BegunGrows(l: Ledger, uid: string)
    requires l.broken <= l.deleted
    ensures Grown(l, Begun(l, uid), 1) && l.deleted <= Begun(l, uid).deleted && uid in Begun(l, uid).deleted
  {
  }

  lemma FinishedGrows(l: Ledger, uid: string, sure: bool)
    ensures Grown(l, Finished(l, uid, sure), 0) && Grown(l, Finished(l, uid, sure), 1)
    ensures Finished(l, uid, sure).deleted == l.deleted + {uid} && Finished(l, uid, sure).doubt <= l.doubt
    ensures uid !in Finished(l, uid, true).doubt
  {
  }

  /** Without failures nothing was broken off, and no doubt is new. */
  lemma GrownUnbroken(l: Ledger, m: Ledger)
    requires Grown(l, m, 0)
    ensures m.broken == l.broken && m.doubt <= l.doubt
  {
    assert m.broken == l.broken + (m.broken - l.broken);
  }

  ghost function Pending(l: Ledger): set<string> { l.deleted - l.doubt - l.seen }

  ghost predicate Records(a: string, l: Ledger) {
    Pending(l) <= Parse(a) <= l.deleted
  }

  /** A version records nothing but deleted UIDs, and all pending ones if the lister may still serve it. */
  ghost predicate VersionOk(s: Store, j: nat, l: Ledger) {
    && j < |s.versions| && Parse(s.versions[j].annotation) <= l.deleted
    && (s.cached <= j ==> Pending(l) <= Parse(s.versions[j].annotation))
  }

  ghost predicate Recorded(s: Store, l: Ledger) {
    forall j: nat :: j < |s.versions| ==> VersionOk(s, j, l)
  }

  /** No load-balancer service is being deleted without being entered, and no other is entered. */
  ghost predicate LedgerOk(w: World, l: Ledger) {
    && l.doubt + l.broken <= l.deleted <= w.lb.used && (forall u :: u in l.deleted ==> IsUid(u))
    && l.seen <= w.lb.used && l.seen !! w.lb.cloud
    && w.lb.services.deleting * w.lb.ofType <= l.deleted <= w.lb.ofType
    && Recorded(w.store, l)
  }

  lemma LedgerBounds(w: World, l: Ledger)
    requires LedgerOk(w, l)
    ensures l.doubt <= l.deleted && l.broken <= l.deleted
  {
  }

  lemma RecordedStable(s: Store, t: Store, l: Ledger)
    requires StoreOk(s) && Recorded(s, l) && StoreSteady(s, t) && SameAnnotation(s, t)
    ensures Recorded(t, l)
  {
    forall j: nat | j < |t.versions| ensures VersionOk(t, j, l) {
      if j < |s.versions| {
        assert VersionOk(s, j, l) && t.versions[j] == s.versions[j];
      } else {
        assert VersionOk(s, Last(s), l) && t.versions[j].annotation == Current(s).annotation;
      }
    }
  }

  /** What the lister serves records everything pending. */
  lemma CachedRecords(w: World, l: Ledger)
    requires WellFormed(w) && LedgerOk(w, l)
    ensures Normal(w.store.versions[w.store.cached].annotation)
    ensures Records(w.store.versions[w.store.cached].annotation, l) && Records(Current(w.store).annotation, l)
  {
    assert VersionOk(w.store, w.store.cached, l) && VersionOk(w.store, Last(w.store), l);
  }

  lemma LedgerStable(w: World, v: World, l: Ledger)
    requires WellFormed(w) && LedgerOk(w, l) && Steady(w, v) && SameAnnotation(w.store, v.store)
    requires v.lb.services.deleting <= w.lb.services.deleting + l.deleted
    ensures LedgerOk(v, l)
  {
    hide Normal, Parse;
    RecordedStable(w.store, v.store, l);
  }

  /** Writing an annotation that records the ledger keeps everything recorded. */
  lemma PutRecorded(s: Store, c: Cluster, l: Ledger)
    requires StoreOk(s) && Recorded(s, l) && Records(c.annotation, l)
    ensures Recorded(Put(s, c), l)
  {
    var t := Put(s, c);
    forall j: nat | j < |t.versions| ensures VersionOk(t, j, l) {
      if j < |s.versions| { assert VersionOk(s, j, l); }
    }
  }

  /** On annotations the controller wrote, the lister wait's substring test is membership. */
  lemma ContainsUid(a: string, u: string)
    requires Normal(a) && IsUid(u)
    ensures Contains(a, u) <==> u in Parse(a)
  {
    ParseExact(a, u);
    ContainsIsMembership(Parse(a), u);
  }

  /** Inserting a UID gives a well-formed annotation with exactly one more element. */
  lemma InsertUid(a: string, u: string)
    requires Normal(a) && IsUid(u)
    ensures var b := Encode(Parse(a) + {u}); Parse(b) == Parse(a) + {u} && Normal(b) && (b == a <==> u in Parse(a))
  {
    ParseExact(a, u);
    var more := Parse(a) + {u};
    RoundTrip(more);
    if u in Parse(a) { assert more == Parse(a); }
  }

  lemma RetainUids(a: string, keep: set<string>)
    requires Normal(a) && keep <= Parse(a)
    ensures var b := Encode(keep); Parse(b) == keep && Normal(b) && (b == a <==> keep == Parse(a))
  {
    ParseExact(a, "");
    RoundTrip(keep);
  }

  /** What the API server makes of a merge patch from the annotation `from` to `to`. */
  function Patched(s: Store, from: string, to: string): Store
    requires s.versions != []
  {
    if to == from || to == Current(s).annotation then s else Put(s, Current(s).(annotation := to))
  }

  /** The UID, once in a version the lister may still serve, is in all later ones: no stale patch overwrote it. */
  ghost predicate Lasting(s: Store, uid: string) {
    forall j, k :: s.cached <= j <= k < |s.versions| && HasUid(s, j, uid) ==> HasUid(s, k, uid)
  }

  /** No record was overwritten at all. */
  ghost predicate AllLasting(s: Store) { forall uid :: Lasting(s, uid) }

  ghost predicate HasUid(s: Store, j: nat, uid: string) {
    j < |s.versions| && uid in Parse(s.versions[j].annotation)
  }

  /** A store after the patch and a wait that found the UID in the version the lister serves. */
  ghost predicate Waited(u: Store, from: string, to: string, uid: string, t: Store)
    requires u.versions != []
  {
    && StoreSteady(Patched(u, from, to), t) && SameAnnotation(Patched(u, from, to), t)
    && t.cached < |t.versions| && HasUid(t, t.cached, uid)
  }

  /** `to` is the annotation `from` with the UID, and both are as the ledger has it. */
  ghost predicate Inserting(u: Store, from: string, to: string, uid: string, l: Ledger) {
    && u.cached < |u.versions| && !Gone(u) && Recorded(u, l) && Records(from, l)
    && Parse(to) == Parse(from) + {uid} && (to == from <==> uid in Parse(from))
    && StoreSteady(u, Patched(u, from, to))
  }

  /**
   The heart of the bookkeeping: once the lister serves a version that contains the UID just inserted, every version
   from there on records it together with everything pending before, unless an earlier record of it was overwritten.
   */
  lemma RecordedAfterWait(u: Store, t: Store, from: string, to: string, uid: string, l: Ledger)
    requires Inserting(u, from, to, uid, l) && Waited(u, from, to, uid, t)
    ensures Recorded(t, Finished(l, uid, Lasting(u, uid)))
    ensures Records(Current(Patched(u, from, to)).annotation, Finished(l, uid, Lasting(u, uid)))
  {
    WaitedCurrent(u, t, from, to, uid, l);
    forall j: nat | j < |t.versions| ensures VersionOk(t, j, Finished(l, uid, Lasting(u, uid))) {
      WaitedVersion(u, t, from, to, uid, l, j);
    }
  }

  lemma WaitedVersion(u: Store, t: Store, from: string, to: string, uid: string, l: Ledger, j: nat)
    requires Inserting(u, from, to, uid, l) && Waited(u, from, to, uid, t) && j < |t.versions|
    ensures VersionOk(t, j, Finished(l, uid, Lasting(u, uid)))
  {
    var s := Patched(u, from, to);
    if j < |u.versions| {
      assert t.versions[j] == s.versions[j] == u.versions[j] && VersionOk(u, j, l);
      if t.cached <= j {
        assert t.versions[t.cached] == s.versions[t.cached] == u.versions[t.cached] && VersionOk(u, t.cached, l);
        assert HasUid(u, t.cached, uid) && (HasUid(u, j, uid) <==> uid in Parse(t.versions[j].annotation));
      }
    } else {
      assert VersionOk(u, Last(u), l);
      assert t.versions[j].annotation == Current(s).annotation;
      WaitedCurrent(u, t, from, to, uid, l);
    }
  }

  /** The version a patch leaves current records the UID and everything pending. */
  lemma WaitedCurrent(u: Store, t: Store, from: string, to: string, uid: string, l: Ledger)
    requires Inserting(u, from, to, uid, l) && Waited(u, from, to, uid, t)
    ensures Records(Current(Patched(u, from, to)).annotation, Finished(l, uid, Lasting(u, uid)))
  {
    var s := Patched(u, from, to);
    assert VersionOk(u, Last(u), l);
    if t.cached < |u.versions| {
      assert t.versions[t.cached] == s.versions[t.cached] == u.versions[t.cached];
      assert HasUid(u, t.cached, uid) && (Lasting(u, uid) ==> HasUid(u, Last(u), uid));
    } else if s == u {
      assert t.versions[t.cached].annotation == Current(u).annotation;
    }
  }

  /**
   That exception is exact: an earlier doubt may go after every completed wait if and only if no version the lister
   may still serve has the UID while a later one has lost it.
   */
  lemma WaitExact(u: Store, from: string, to: string, uid: string, l: Ledger)
    requires Inserting(u, from, to, uid, l) && uid !in l.seen
    ensures Lasting(u, uid) <==> forall t :: Waited(u, from, to, uid, t) ==> Recorded(t, Finished(l, uid, true))
  {
    if Lasting(u, uid) {
      forall t | Waited(u, from, to, uid, t) ensures Recorded(t, Finished(l, uid, true)) {
        RecordedAfterWait(u, t, from, to, uid, l);
      }
    } else {
      var j: nat, k: nat :| u.cached <= j <= k < |u.versions| && HasUid(u, j, uid) && !HasUid(u, k, uid);
      var s := Patched(u, from, to);
      var t := s.(cached := j);
      assert t.versions[j] == u.versions[j] && t.versions[k] == u.versions[k];
      assert Waited(u, from, to, uid, t) && !VersionOk(t, k, Finished(l, uid, true));
    }
  }

  // ---------- the log ----------

  datatype Act =
    | DeleteDeployment | DeleteMachineSet | DeleteMachine | DeleteBackupConfig | DeleteSecret
    | Drop(names: set<Finalizer>)

  /** A call of the controller that took effect, and the world and ledger at that moment. */
  datatype Entry = Entry(act: Act, at: World, ledger: Ledger)

  ghost function Held(w: World): set<Finalizer>
    requires w.store.versions != []
  {
    Current(w.store).finalizers
  }

  /** The constraints cannot block anything any more; without a namespace there are none. */
  ghost predicate ConstraintsDone(cfg: Config, w: World)
    requires w.store.versions != []
  {
    cfg.namespace == "" || ConstraintCleanup !in Held(w)
  }

  ghost predicate InClusterDone(w: World)
    requires w.store.versions != []
  {
    LBCleanup !in Held(w) && PVCleanup !in Held(w)
  }

  /** Every cloud load balancer of a service whose cleanup completed is gone, or need not be waited for any longer. */
  ghost predicate BalancersAccounted(cfg: Config, w: World, l: Ledger) {
    NoWaitDue(cfg, w) || (l.deleted - l.doubt <= l.seen && l.deleted - l.doubt !! w.lb.cloud)
  }

  /** When the given stored finalizers may be removed. */
  ghost predicate DropOk(cfg: Config, sense: Sense, start: World, w: World, l: Ledger, names: set<Finalizer>)
    requires w.store.versions != []
  {
    && (LBCleanup in names && sense.Documented? ==> BalancersAccounted(cfg, w, l))
    && (PVCleanup in names ==> NoClaims(w.storage) && NoVolumes(w.storage))
    && (LBCleanup in names || PVCleanup in names ==> ConstraintsDone(cfg, w))
    && (LBCleanup in names ==> AllGone(start, w))
    && (BackupConfigCleanup in names || RoleBindingCleanup in names ==> InClusterDone(w))
    && (NodeDeletion in names ==> InClusterDone(w) && NoMachines(w.fleet))
    && (CredentialsCleanup in names ==> Held(w) <= {CredentialsCleanup} && (cfg.secretName == "" || !w.seed.secret))
  }

  /** When a call of the controller may take effect. */
  ghost predicate Safe(cfg: Config, sense: Sense, start: World, e: Entry) {
    e.at.store.versions != [] &&
    match e.act
    case DeleteDeployment => InClusterDone(e.at)
    case DeleteMachineSet => InClusterDone(e.at) && NoDeployments(e.at.fleet)
    case DeleteMachine => InClusterDone(e.at) && NoMachineSets(e.at.fleet)
    case DeleteBackupConfig => InClusterDone(e.at)
    case DeleteSecret => Held(e.at) <= {CredentialsCleanup}
    case Drop(names) => names <= Held(e.at) && DropOk(cfg, sense, start, e.at, e.ledger, names)
  }

  /** The entry belongs to a moment of the run, and its ledger to that moment. */
  ghost predicate Moment(start: World, e: Entry, w: World) {
    WellFormed(e.at) && LedgerOk(e.at, e.ledger) && Steady(start, e.at) && Steady(e.at, w)
  }

  /** Every entry was made at a moment of the run, one after the other, and was safe there. */
  ghost predicate LogOk(cfg: Config, sense: Sense, start: World, log: seq<Entry>, w: World) {
    && w.store.versions != []
    && (forall i :: 0 <= i < |log| ==> Safe(cfg, sense, start, log[i]) && Moment(start, log[i], w))
    && (forall i, j :: 0 <= i < j < |log| ==> Steady(log[i].at, log[j].at))
  }

  lemma LogStable(cfg: Config, sense: Sense, start: World, log: seq<Entry>, w: World, v: World)
    requires LogOk(cfg, sense, start, log, w) && Steady(w, v)
    ensures LogOk(cfg, sense, start, log, v)
  {
    hide Safe, LedgerOk, WellFormed, Steady;
    VersionsStill(w, v);
    forall i | 0 <= i < |log| ensures Moment(start, log[i], v) {
      SteadyTransitive(log[i].at, w, v);
    }
  }

  lemma VersionsStill(w: World, v: World)
    requires Steady(w, v)
    ensures w.store.versions != [] && v.store.versions != []
  {
  }

  /** A safe call at the present moment may be logged. */
  lemma LogExtend(cfg: Config, sense: Sense, start: World, log: seq<Entry>, w: World, e: Entry, v: World)
    requires LogOk(cfg, sense, start, log, w) && e.at == w && Safe(cfg, sense, start, e)
    requires WellFormed(w) && LedgerOk(w, e.ledger) && Steady(start, w) && Steady(w, v)
    ensures LogOk(cfg, sense, start, log + [e], v)
  {
    hide Safe, LedgerOk, WellFormed, Steady;
    LogStable(cfg, sense, start, log, w, v);
    assert Moment(start, e, v);
    forall i | 0 <= i < |log| ensures Steady(log[i].at, e.at) {
      assert Moment(start, log[i], w);
    }
  }

  /** What allows a finalizer to be removed stays true while others act. */
  lemma DropStable(
    cfg: Config, sense: Sense, start: World, log: seq<Entry>, w: World, v: World, l: Ledger, names: set<Finalizer>)
    requires HistoryOk(cfg, sense, start, log, w) && WellFormed(w) && LedgerOk(w, l) && Steady(w, v)
    requires DropOk(cfg, sense, start, w, l, names * Held(w))
    ensures DropOk(cfg, sense, start, v, l, names * Held(v))
  {
    hide LogOk, Ordered, Complete, Normal, Parse;
    GoneStays(start, w, v);
  }

  /** Once the credentials are deleted nothing but their own finalizer is ever pending again. */
  lemma NothingPendingAfterSecret(cfg: Config, sense: Sense, start: World, log: seq<Entry>, w: World, i: nat)
    requires LogOk(cfg, sense, start, log, w) && i < |log| && log[i].act.DeleteSecret?
    ensures Held(w) <= {CredentialsCleanup}
    ensures forall j :: i < j < |log| ==> log[j].at.store.versions != [] && Held(log[j].at) <= {CredentialsCleanup}
    ensures forall j :: i < j < |log| && log[j].act.Drop? ==> log[j].act.names <= {CredentialsCleanup}
  {
    hide LedgerOk, WellFormed, BalancersSteady, StorageSteady, FleetSteady;
    assert Safe(cfg, sense, start, log[i]) && Moment(start, log[i], w);
    forall j | i < j < |log| ensures log[j].at.store.versions != [] && Held(log[j].at) <= {CredentialsCleanup} {
      assert Steady(log[i].at, log[j].at) && Safe(cfg, sense, start, log[j]);
    }
  }

  // ---------- the history ----------

  /**
   A change that leaves the Secret alone, drops no guarded finalizer and requests no deletion of machines, of backup
   configurations, of services that are no load balancers or, before the constraints are done, of any services and
   claims.
   */
  ghost predicate Tame(cfg: Config, w: World, v: World) {
    && w.store.versions != [] && v.store.versions != []
    && (ConstraintsDone(cfg, w) || (&& v.lb.services.deleting <= w.lb.services.deleting
                                    && v.storage.claims.deleting <= w.storage.claims.deleting))
    && v.lb.services.deleting <= w.lb.services.deleting + v.lb.ofType
    && v.seed.backups.deleting <= w.seed.backups.deleting
    && v.fleet.deployments.deleting <= w.fleet.deployments.deleting
    && v.fleet.machineSets.deleting <= w.fleet.machineSets.deleting
    && v.fleet.machines.deleting <= w.fleet.machines.deleting
    && v.seed.secret == w.seed.secret && Held(v) * GUARDED == Held(w) * GUARDED
  }

  lemma {:induction false} HappenAllTame(cfg: Config, w: World, es: seq<Event>)
    requires w.store.versions != []
    ensures var v := HappenAll(cfg, w, es);
            && Tame(cfg, w, v) && v.lb.services.deleting <= w.lb.services.deleting
            && v.storage.claims.deleting <= w.storage.claims.deleting
    decreases |es|
  {
    if es == [] {
    } else {
      var u := Happen(cfg, w, es[0]);
      assert Tame(cfg, w, u);
      HappenAllTame(cfg, u, es[1..]);
    }
  }

  /**
   The order of the deletion, read off the world alone. Compared with the start of the run: nobody asked for the
   deletion of a service that is no load balancer, while the constraint
   finalizer is stored nobody asked for the deletion of a service or claim, while a load-balancer or volume finalizer is
   stored nobody asked for that of a backup configuration or machine-level object, while a level exists nobody asked for
   that of anything below it, and a finalizer that is gone shows that its part of the work is done. In particular every
   load-balancer service of the start is gone with the load-balancer finalizer.
   */
  ghost predicate Ordered(cfg: Config, start: World, w: World)
    requires start.store.versions != [] && w.store.versions != []
  {
    && w.lb.services.deleting <= start.lb.services.deleting + w.lb.ofType
    && (!ConstraintsDone(cfg, w) ==> && w.lb.services.deleting <= start.lb.services.deleting
                                     && w.storage.claims.deleting <= start.storage.claims.deleting)
    && (!InClusterDone(w) ==> && w.seed.backups.deleting <= start.seed.backups.deleting
                              && w.fleet.deployments.deleting <= start.fleet.deployments.deleting)
    && (!InClusterDone(w) || !NoDeployments(w.fleet) ==>
          w.fleet.machineSets.deleting <= start.fleet.machineSets.deleting)
    && (!InClusterDone(w) || !NoMachineSets(w.fleet) ==> w.fleet.machines.deleting <= start.fleet.machines.deleting)
    && (LBCleanup in Held(start) - Held(w) ==> ConstraintsDone(cfg, w) && AllGone(start, w))
    && (PVCleanup in Held(start) - Held(w) ==> ConstraintsDone(cfg, w) && NoClaims(w.storage) && NoVolumes(w.storage))
    && (NodeDeletion in Held(start) - Held(w) ==> InClusterDone(w) && NoMachines(w.fleet))
    && (start.seed.secret && !w.seed.secret ==> Held(w) <= {CredentialsCleanup})
    && (CredentialsCleanup in Held(start) - Held(w) ==> Held(w) == {} && (cfg.secretName == "" || !w.seed.secret))
  }

  ghost predicate DroppedAt(log: seq<Entry>, i: nat, f: Finalizer) {
    i < |log| && log[i].act.Drop? && f in log[i].act.names
  }

  /** Every guarded finalizer that is gone was removed by an entry of the log. */
  ghost predicate Complete(start: World, log: seq<Entry>, w: World)
    requires start.store.versions != [] && w.store.versions != []
  {
    forall f :: f in (Held(start) - Held(w)) * GUARDED ==> exists i: nat :: DroppedAt(log, i, f)
  }

  ghost predicate HistoryOk(cfg: Config, sense: Sense, start: World, log: seq<Entry>, w: World) {
    && WellFormed(start) && Steady(start, w) && LogOk(cfg, sense, start, log, w)
    && Ordered(cfg, start, w) && Complete(start, log, w)
  }

  lemma HistorySteady(cfg: Config, sense: Sense, start: World, log: seq<Entry>, w: World)
    requires HistoryOk(cfg, sense, start, log, w)
    ensures WellFormed(start) && Steady(start, w)
  {
  }

  lemma OrderStable(cfg: Config, start: World, w: World, v: World)
    requires WellFormed(start) && Steady(start, w) && WellFormed(w) && Steady(w, v) && Tame(cfg, w, v)
    requires Ordered(cfg, start, w)
    ensures Ordered(cfg, start, v)
  {
    hide Normal;
    GoneStays(start, w, v);
    assert forall f :: f in GUARDED ==> (f in Held(v) * GUARDED <==> f in Held(v));
    assert forall f :: f in GUARDED ==> (f in Held(w) * GUARDED <==> f in Held(w));
  }

  lemma HistoryStable(cfg: Config, sense: Sense, start: World, log: seq<Entry>, w: World, v: World)
    requires HistoryOk(cfg, sense, start, log, w) && WellFormed(w) && Steady(w, v) && Tame(cfg, w, v)
    ensures HistoryOk(cfg, sense, start, log, v)
  {
    hide LogOk, Ordered, WellFormed, Steady;
    VersionsStill(start, w);
    SteadyTransitive(start, w, v);
    LogStable(cfg, sense, start, log, w, v);
    OrderStable(cfg, start, w, v);
    assert forall f :: f in GUARDED ==> (f in Held(v) * GUARDED <==> f in Held(v));
    assert forall f :: f in GUARDED ==> (f in Held(w) * GUARDED <==> f in Held(w));
    assert (Held(start) - Held(v)) * GUARDED == (Held(start) - Held(w)) * GUARDED;
  }

  /** The act changed nothing but what it is about. */
  ghost predicate Performed(act: Act, w: World, v: World)
    requires w.store.versions != [] && v.store.versions != []
  {
    match act
    case DeleteDeployment => v == w.(fleet := w.fleet.(deployments := v.fleet.deployments))
    case DeleteMachineSet => v == w.(fleet := w.fleet.(machineSets := v.fleet.machineSets))
    case DeleteMachine => v == w.(fleet := w.fleet.(machines := v.fleet.machines))
    case DeleteBackupConfig => v == w.(seed := w.seed.(backups := v.seed.backups))
    case DeleteSecret => v == w.(seed := w.seed.(secret := false))
    case Drop(names) => v == w.(store := v.store) && Held(v) == Held(w) - names
  }

  lemma PerformedOrdered(cfg: Config, sense: Sense, start: World, w: World, e: Entry, v: World)
    requires WellFormed(start) && Steady(start, w) && Steady(w, v) && Ordered(cfg, start, w)
    requires e.at == w && Safe(cfg, sense, start, e) && Performed(e.act, w, v)
    ensures Ordered(cfg, start, v)
  {
    hide Normal;
    GoneStays(start, w, v);
  }

  /** A safe call that took effect may be logged. */
  lemma HistoryExtend(cfg: Config, sense: Sense, start: World, log: seq<Entry>, w: World, e: Entry, v: World)
    requires HistoryOk(cfg, sense, start, log, w) && WellFormed(w) && LedgerOk(w, e.ledger) && Steady(w, v)
    requires e.at == w && Safe(cfg, sense, start, e) && Performed(e.act, w, v)
    ensures HistoryOk(cfg, sense, start, log + [e], v)
  {
    hide LogOk, Ordered, Safe, WellFormed, LedgerOk, Steady;
    VersionsStill(start, w);
    SteadyTransitive(start, w, v);
    LogExtend(cfg, sense, start, log, w, e, v);
    PerformedOrdered(cfg, sense, start, w, e, v);
    forall f | f in (Held(start) - Held(v)) * GUARDED ensures exists i: nat :: DroppedAt(log + [e], i, f) {
      if f in Held(w) {
        assert DroppedAt(log + [e], |log|, f);
      } else {
        assert f in (Held(start) - Held(w)) * GUARDED;
        var i: nat :| DroppedAt(log, i, f);
        assert DroppedAt(log + [e], i, f);
      }
    }
  }

  /** The ledgers of the entries lie between the one the run began with and the present one. */
  ghost predicate BookOk(book: Ledger, log: seq<Entry>, l: Ledger) {
    && Extends(book, l)
    && forall i :: 0 <= i < |log| ==> Extends(book, log[i].ledger) && Extends(log[i].ledger, l)
  }

  lemma BookGrows(book: Ledger, log: seq<Entry>, l: Ledger, m: Ledger)
    requires BookOk(book, log, l) && Grown(l, m, 1)
    ensures BookOk(book, log, m)
  {
  }

  lemma BookExtend(book: Ledger, log: seq<Entry>, l: Ledger, e: Entry)
    requires BookOk(book, log, l) && e.ledger == l
    ensures BookOk(book, log + [e], l)
  {
  }

  // ---------- what a run means for the load balancers ----------

  ghost predicate EverRecorded(s: Store, uid: string) {
    exists j: nat :: HasUid(s, j, uid)
  }

  /**
   The finalizer was removed at a moment of the run when no wait was due, or when every load balancer ever recorded up
   to then, doubtful ones aside, was gone from the cloud and stays so.
   */
  ghost predicate Released(cfg: Config, start: World, e: Entry, w: World, doubtful: set<string>) {
    && Steady(start, e.at) && Steady(e.at, w) && LBCleanup in Held(e.at)
    && (!(cfg.aws || cfg.azure || cfg.openstack) || e.at.now > cfg.deletedAt + 7200 ||
        (&& e.ledger.deleted - doubtful <= e.ledger.seen
         && forall u :: EverRecorded(e.at.store, u) && u !in doubtful ==> u !in e.at.lb.cloud + w.lb.cloud))
  }

  lemma EntryReleased(cfg: Config, start: World, e: Entry, w: World, doubtful: set<string>)
    requires Safe(cfg, Documented, start, e) && Moment(start, e, w) && e.act.Drop? && LBCleanup in e.act.names
    requires e.ledger.doubt <= doubtful
    ensures Released(cfg, start, e, w, doubtful)
  {
    hide Normal, Parse, StorageSteady, FleetSteady, BalancersOk;
    var at, l := e.at, e.ledger;
    if !NoWaitDue(cfg, at) {
      forall u | EverRecorded(at.store, u) && u !in doubtful ensures u !in at.lb.cloud + w.lb.cloud {
        var j: nat :| HasUid(at.store, j, u);
        assert VersionOk(at.store, j, l) && u in l.deleted - l.doubt;
        assert u in w.lb.cloud ==> u in w.lb.cloud * at.lb.used;
      }
    }
  }

  /** In the documented sense the finalizer is gone only because it was released. */
  lemma FinalizerReleased(cfg: Config, start: World, book: Ledger, log: seq<Entry>, w: World, l: Ledger)
    returns (i: nat)
    requires HistoryOk(cfg, Documented, start, log, w) && BookOk(book, log, l)
    requires start.store.versions != [] && w.store.versions != [] && LBCleanup in Held(start) - Held(w)
    ensures DroppedAt(log, i, LBCleanup) && Released(cfg, start, log[i], w, log[i].ledger.doubt)
    ensures Released(cfg, start, log[i], w, book.doubt + (l.broken - book.broken))
  {
    hide Safe, Moment, Steady, Released;
    assert LBCleanup in (Held(start) - Held(w)) * GUARDED;
    i :| DroppedAt(log, i, LBCleanup);
    assert Safe(cfg, Documented, start, log[i]) && Moment(start, log[i], w);
    EntryReleased(cfg, start, log[i], w, log[i].ledger.doubt);
    EntryReleased(cfg, start, log[i], w, book.doubt + (l.broken - book.broken));
  }

  /** What is stored and what is served have every deleted load balancer, doubtful ones aside, that still exists. */
  ghost predicate Remembered(w: World, l: Ledger, doubtful: set<string>)
    requires w.store.cached < |w.store.versions|
  {
    l.deleted * w.lb.cloud - doubtful <=
      Parse(w.store.versions[w.store.cached].annotation) * Parse(Current(w.store).annotation)
  }

  lemma PendingRemembered(w: World, book: Ledger, log: seq<Entry>, l: Ledger)
    requires WellFormed(w) && LedgerOk(w, l) && BookOk(book, log, l)
    ensures Remembered(w, l, l.doubt) && Remembered(w, l, book.doubt + (l.broken - book.broken))
  {
    hide Normal, Parse;
    CachedRecords(w, l);
  }

  /**
   A run that begins without doubt and in which no cleanup is broken off: every load-balancer service being deleted
   whose cloud load balancer exists is in the stored and in the served annotation, and the finalizer goes only when no
   wait is due or every load balancer recorded up to then is gone.
   */
  lemma UnbrokenRun(cfg: Config, start: World, book: Ledger, log: seq<Entry>, w: World, l: Ledger)
    requires WellFormed(start) && WellFormed(w) && LedgerOk(w, l)
    requires HistoryOk(cfg, Documented, start, log, w) && BookOk(book, log, l)
    requires book.doubt == {} && l.broken == book.broken
    ensures w.lb.services.deleting * w.lb.ofType * w.lb.cloud <=
              Parse(w.store.versions[w.store.cached].annotation) * Parse(Current(w.store).annotation)
    ensures LBCleanup in Held(start) - Held(w) ==>
              exists e :: Released(cfg, start, e, w, {}) && e in log
  {
    hide Normal, Parse, HistoryOk, Released, Recorded;
    PendingRemembered(w, book, log, l);
    if LBCleanup in Held(start) - Held(w) {
      var i := FinalizerReleased(cfg, start, book, log, w, l);
      assert book.doubt + (l.broken - book.broken) == {};
      assert Released(cfg, start, log[i], w, {}) && log[i] in log;
    }
  }

  /** A load balancer recorded from the start is gone if the finalizer was released in time. */
  lemma ReleasedGone(cfg: Config, start: World, e: Entry, w: World, uid: string)
    requires Released(cfg, start, e, w, {}) && EverRecorded(start.store, uid)
    requires (cfg.aws || cfg.azure || cfg.openstack) && w.now <= cfg.deletedAt + 7200
    ensures uid !in w.lb.cloud
  {
    hide Normal, Parse, StorageSteady, FleetSteady, BalancersSteady;
    var j: nat :| HasUid(start.store, j, uid);
    assert e.at.store.versions[j] == start.store.versions[j];
    assert HasUid(e.at.store, j, uid);
    assert uid !in e.at.lb.cloud + w.lb.cloud;
  }

  /** In such a run, a load balancer recorded at the start holds the finalizer while it exists and time is left. */
  lemma BalancerHoldsFinalizer(
    cfg: Config, start: World, book: Ledger, log: seq<Entry>, w: World, l: Ledger, uid: string)
    requires WellFormed(start) && WellFormed(w) && LedgerOk(w, l)
    requires HistoryOk(cfg, Documented, start, log, w) && BookOk(book, log, l)
    requires book.doubt == {} && l.broken == book.broken
    requires (cfg.aws || cfg.azure || cfg.openstack) && w.now <= cfg.deletedAt + 7200 && LBCleanup in Held(start)
    requires EverRecorded(start.store, uid) && uid in w.lb.cloud
    ensures LBCleanup in Held(w)
  {
    hide Normal, Parse, HistoryOk, LedgerOk, Steady, Released, EverRecorded;
    UnbrokenRun(cfg, start, book, log, w, l);
    if LBCleanup !in Held(w) {
      var e :| Released(cfg, start, e, w, {}) && e in log;
      ReleasedGone(cfg, start, e, w, uid);
    }
  }
}
