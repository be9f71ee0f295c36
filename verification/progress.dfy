/** How much work is left before a cluster is deleted, and which events and calls reduce it. */
module Progress {
  import opened StringSets
  import opened World

  ghost function PoolWeight(p: Pool): nat { 2 * |p.live| + |p.deleting| }

  /** Finalizers still set and versions the lister has not caught up with. */
  ghost function StoreWeight(s: Store): nat
    requires s.versions != []
  {
    3 * |Current(s).finalizers| + if s.cached <= Last(s) then Last(s) - s.cached else 0
  }

  /** Load-balancer services whose UID is not in the annotation. */
  ghost function Unrecorded(w: World): set<string>
    requires w.store.versions != []
  {
    w.lb.services.Names() * w.lb.ofType - Parse(Current(w.store).annotation)
  }

  /** Recording a UID costs less than it saves; `aside` are UIDs not counted. */
  ghost function BalancerWeight(w: World, aside: set<string>): nat
    requires w.store.versions != []
  {
    6 * |Unrecorded(w) - aside| + 3 * |Parse(Current(w.store).annotation)| + PoolWeight(w.lb.services) + |w.lb.cloud|
  }

  ghost function StorageWeight(s: Storage): nat {
    (if s.webhook then 0 else 1) + PoolWeight(s.claims) + |s.volumes| + PoolWeight(s.pods)
  }

  ghost function FleetWeight(f: Fleet): nat {
    PoolWeight(f.deployments) + PoolWeight(f.machineSets) + PoolWeight(f.machines)
  }

  ghost function SeedWeight(s: Seed): nat {
    PoolWeight(s.backups) + PoolWeight(s.constraints) + |s.gatekeeper| + if s.secret then 1 else 0
  }

  ghost function ClockWeight(cfg: Config, now: nat): nat {
    var due := cfg.deletedAt + BAIL_OUT + 1;
    if now < due then due - now else 0
  }

  ghost function Weight(cfg: Config, w: World, aside: set<string>): nat
    requires w.store.versions != []
  {
    StoreWeight(w.store) + BalancerWeight(w, aside) + StorageWeight(w.storage) + FleetWeight(w.fleet)
    + SeedWeight(w.seed) + ClockWeight(cfg, w.now)
  }

  /** Nothing changed, or less is left to do. */
  ghost predicate MovesOn(cfg: Config, w: World, v: World, aside: set<string>) {
    w.store.versions != [] && v.store.versions != [] && (v == w || Weight(cfg, v, aside) < Weight(cfg, w, aside))
  }

  ghost predicate Moves(cfg: Config, w: World, v: World) {
    MovesOn(cfg, w, v, {})
  }

  // ---------- events ----------

  /** The environment of a deletion that comes to an end: it finishes what was started and begins nothing new. */
  predicate Benign(e: Event) {
    match e
    case OnStore(s) => !s.Touch?
    case OnBalancers(b) => b.FinishService? || b.ReleaseBalancer?
    case OnStorage(v) => v.FinishClaim? || v.DropVolume? || v.FinishPod?
    case OnFleet(f) => f.FinishDeployment? || f.FinishMachineSet? || f.FinishMachine?
    case OnSeed(o) => o.FinishBackup? || o.FinishConstraint?
    case Tick(_) => true
  }

  lemma Fewer<T>(a: set<T>, b: set<T>)
    requires a <= b
    ensures |a| <= |b| && (a != b ==> |a| < |b|)
  {
    assert b == a + (b - a);
  }

  lemma WithoutWeight(p: Pool, n: string)
    ensures Without(p, n) == p || PoolWeight(Without(p, n)) < PoolWeight(p)
  {
    Fewer(p.live - {n}, p.live);
    Fewer(p.deleting - {n}, p.deleting);
  }

  lemma MarkedWeight(p: Pool, n: string)
    ensures Marked(p, n) == p || PoolWeight(Marked(p, n)) < PoolWeight(p)
  {
  }

  lemma MarkedAllWeight(p: Pool)
    ensures MarkedAll(p) == p || PoolWeight(MarkedAll(p)) < PoolWeight(p)
  {
    assert |p.live + p.deleting| == |p.live| + |p.deleting|;
    if p.live == {} { assert p.Names() == p.deleting; }
  }

  lemma StoreBenign(s: Store, e: StoreEvent)
    requires StoreOk(s) && !e.Touch?
    ensures var t := StoreHappen(s, e);
            t == s || (StoreWeight(t) < StoreWeight(s) && Current(t).annotation == Current(s).annotation)
  {
    if e.DropFinalizers? {
      Fewer(Current(s).finalizers - (e.names - GUARDED), Current(s).finalizers);
    }
  }

  lemma BalancersBenign(w: World, e: BalancerEvent, aside: set<string>)
    requires WellFormed(w) && (e.FinishService? || e.ReleaseBalancer?)
    ensures var v := w.(lb := BalancersHappen(w.lb, e)); v == w || BalancerWeight(v, aside) < BalancerWeight(w, aside)
  {
    hide Parse, Normal, PoolWeight;
    var v := w.(lb := BalancersHappen(w.lb, e));
    if e.FinishService? {
      WithoutWeight(w.lb.services, e.uid);
      assert Unrecorded(v) <= Unrecorded(w);
      Fewer(Unrecorded(v) - aside, Unrecorded(w) - aside);
    }
  }

  lemma StorageBenign(s: Storage, e: StorageEvent)
    requires e.FinishClaim? || e.DropVolume? || e.FinishPod?
    ensures StorageHappen(s, e) == s || StorageWeight(StorageHappen(s, e)) < StorageWeight(s)
  {
    match e {
      case FinishClaim(n) => WithoutWeight(s.claims, n);
      case FinishPod(n) => WithoutWeight(s.pods, n);
      case DropVolume(v) => Fewer(s.volumes - {v}, s.volumes);
    }
  }

  lemma FleetBenign(f: Fleet, e: FleetEvent)
    requires e.FinishDeployment? || e.FinishMachineSet? || e.FinishMachine?
    ensures FleetHappen(f, e) == f || FleetWeight(FleetHappen(f, e)) < FleetWeight(f)
  {
    match e {
      case FinishDeployment(n) => WithoutWeight(f.deployments, n);
      case FinishMachineSet(n) => WithoutWeight(f.machineSets, n);
      case FinishMachine(n) => WithoutWeight(f.machines, n);
    }
  }

  lemma SeedBenign(s: Seed, e: SeedEvent)
    requires e.FinishBackup? || e.FinishConstraint?
    ensures SeedHappen(s, e) == s || SeedWeight(SeedHappen(s, e)) < SeedWeight(s)
  {
    match e {
      case FinishBackup(n) => WithoutWeight(s.backups, n);
      case FinishConstraint(n) => WithoutWeight(s.constraints, n);
    }
  }

  lemma BenignMoves(cfg: Config, w: World, e: Event, aside: set<string>)
    requires WellFormed(w) && Benign(e)
    ensures MovesOn(cfg, w, Happen(cfg, w, e), aside)
  {
    match e {
      case OnStore(s) => StoreBenign(w.store, s);
      case OnBalancers(b) => BalancersBenign(w, b, aside);
      case OnStorage(v) => StorageBenign(w.storage, v);
      case OnFleet(f) => FleetBenign(w.fleet, f);
      case OnSeed(o) => SeedBenign(w.seed, o);
      case Tick(_) =>
    }
  }

  lemma MovesOnTransitive(cfg: Config, a: World, b: World, c: World, aside: set<string>)
    ensures MovesOn(cfg, a, b, aside) && MovesOn(cfg, b, c, aside) ==> MovesOn(cfg, a, c, aside) && (c == a ==> b == a)
  {
  }

  /** However many benign events happen, they leave the world alone or less to do. */
  lemma {:induction false} AllBenignMove(cfg: Config, w: World, es: seq<Event>, aside: set<string>)
    requires WellFormed(w) && forall i :: 0 <= i < |es| ==> Benign(es[i])
    ensures MovesOn(cfg, w, HappenAll(cfg, w, es), aside)
    decreases |es|
  {
    if es == [] {
    } else {
      var u := Happen(cfg, w, es[0]);
      HappenOk(cfg, w, es[0]);
      BenignMoves(cfg, w, es[0], aside);
      AllBenignMove(cfg, u, es[1..], aside);
      MovesOnTransitive(cfg, w, u, HappenAll(cfg, w, es), aside);
    }
  }

  /** A cooperative environment creates no services. */
  ghost predicate ServicesShrink(w: World, v: World) {
    v.lb.services.Names() <= w.lb.services.Names() && v.lb.ofType == w.lb.ofType
  }

  lemma {:induction false} AllBenignShrink(cfg: Config, w: World, es: seq<Event>)
    requires w.store.versions != [] && forall i :: 0 <= i < |es| ==> Benign(es[i])
    ensures ServicesShrink(w, HappenAll(cfg, w, es))
    decreases |es|
  {
    if es == [] {
    } else {
      AllBenignShrink(cfg, Happen(cfg, w, es[0]), es[1..]);
    }
  }

  // ---------- writing the annotation ----------

  lemma AsideWeight(cfg: Config, w: World, uid: string)
    requires w.store.versions != [] && uid in Unrecorded(w)
    ensures Weight(cfg, w, {}) == Weight(cfg, w, {uid}) + 6
  {
    hide Unrecorded, StoreWeight, StorageWeight, FleetWeight, SeedWeight, ClockWeight;
    var n := |Unrecorded(w)|;
    assert Unrecorded(w) - {} == Unrecorded(w);
    assert |Unrecorded(w) - {uid}| == n - 1;
  }

  lemma InsertedWeight(cfg: Config, u: World, uid: string, to: string)
    requires u.store.versions != [] && u.store.cached <= Last(u.store) && !Gone(u.store)
    requires Parse(to) == Parse(Current(u.store).annotation) + {uid} && uid !in Parse(Current(u.store).annotation)
    ensures Weight(cfg, u.(store := Put(u.store, Current(u.store).(annotation := to))), {}) == Weight(cfg, u, {uid}) + 4
  {
    hide Parse, PoolWeight, StorageWeight, FleetWeight, SeedWeight, ClockWeight;
    var v := u.(store := Put(u.store, Current(u.store).(annotation := to)));
    assert Unrecorded(v) - {} == Unrecorded(u) - {uid};
    assert |Parse(to)| == |Parse(Current(u.store).annotation)| + 1;
  }

  /** Recording the UID of a service pays off even if the service is gone by the time it is written. */
  lemma RecordingPays(cfg: Config, w: World, u: World, uid: string, to: string)
    requires w.store.versions != [] && u.store.versions != [] && u.store.cached <= Last(u.store) && !Gone(u.store)
    requires uid in Unrecorded(w) && MovesOn(cfg, w, u, {uid})
    requires Parse(to) == Parse(Current(u.store).annotation) + {uid} && uid !in Parse(Current(u.store).annotation)
    ensures Weight(cfg, u.(store := Put(u.store, Current(u.store).(annotation := to))), {}) < Weight(cfg, w, {})
  {
    hide Weight;
    AsideWeight(cfg, w, uid);
    InsertedWeight(cfg, u, uid, to);
  }

  /** Taking confirmed UIDs off the annotation is work done. */
  lemma RetainingPays(cfg: Config, u: World, to: string)
    requires WellFormed(u) && !Gone(u.store)
    requires Parse(to) < Parse(Current(u.store).annotation)
    requires (Parse(Current(u.store).annotation) - Parse(to)) !! u.lb.services.Names()
    ensures Weight(cfg, u.(store := Put(u.store, Current(u.store).(annotation := to))), {}) < Weight(cfg, u, {})
  {
    hide Parse, Normal, PoolWeight, StorageWeight, FleetWeight, SeedWeight, ClockWeight;
    var v := u.(store := Put(u.store, Current(u.store).(annotation := to)));
    assert Unrecorded(v) == Unrecorded(u);
    Fewer(Parse(to), Parse(Current(u.store).annotation));
  }

  // ---------- waiting and being done ----------

  /** The next move is not the controller's: something it waits for is under way. */
  predicate Outstanding(cfg: Config, w: World)
    requires w.store.versions != []
  {
    || w.store.cached < Last(w.store)
    || w.lb.services.deleting != {} || w.storage.claims.deleting != {} || Managed(w.storage.volumes) != {}
    || w.fleet.deployments.deleting != {} || w.fleet.machineSets.deleting != {} || w.fleet.machines.deleting != {}
    || w.seed.backups.deleting != {}
    || (w.now <= cfg.deletedAt + 7200 && Parse(Current(w.store).annotation) - w.lb.events != {})
  }

  /** No finalizer of the controller is left, apart from the credentials one while foreign ones remain. */
  predicate Done(w: World)
    requires w.store.versions != []
  {
    && (forall f :: f in Current(w.store).finalizers ==> f.Foreign? || f.CredentialsCleanup?)
    && Current(w.store).finalizers != {CredentialsCleanup}
  }

  /** Whatever is waited for, some benign event brings it nearer. */
  lemma OutstandingEvent(cfg: Config, w: World) returns (e: Event)
    requires WellFormed(w) && Outstanding(cfg, w)
    ensures Benign(e) && Happen(cfg, w, e) != w
  {
    if w.store.cached < Last(w.store) {
      e := OnStore(SyncCache(Last(w.store)));
    } else if n :| n in w.lb.services.deleting {
      e := OnBalancers(FinishService(n));
    } else if n :| n in w.storage.claims.deleting {
      e := OnStorage(FinishClaim(n));
    } else if v :| v in Managed(w.storage.volumes) {
      e := OnStorage(DropVolume(v));
    } else if n :| n in w.fleet.deployments.deleting {
      e := OnFleet(FinishDeployment(n));
    } else if n :| n in w.fleet.machineSets.deleting {
      e := OnFleet(FinishMachineSet(n));
    } else if n :| n in w.fleet.machines.deleting {
      e := OnFleet(FinishMachine(n));
    } else if n :| n in w.seed.backups.deleting {
      e := OnSeed(FinishBackup(n));
    } else {
      e := Tick(1);
    }
  }
}
