/**
 Everything outside the deletion controller: the Cluster object in the seed cluster, the objects in the user cluster
 that is being deleted, the cloud load balancers, the clock, and the actors that change them while the controller works.
 */
module World {
  import opened StringSets

  // ---------- the Cluster object ----------

  /** Finalizers of the Cluster object; those the deletion controller removes, and everybody else's. */
  datatype Finalizer =
    | LBCleanup | PVCleanup | NodeDeletion | CredentialsCleanup | BackupConfigCleanup | ConstraintCleanup
    | RoleBindingCleanup | Foreign(name: string)

  /** The finalizers whose order matters; nobody but the deletion controller removes them. */
  const GUARDED: set<Finalizer> := {LBCleanup, PVCleanup, NodeDeletion, CredentialsCleanup}

  /** One stored version of the Cluster: its finalizers and the annotation with the cleaned-up load balancers. */
  datatype Cluster = Cluster(finalizers: set<Finalizer>, annotation: string)

  /** What never changes about the cluster while it is deleted. */
  datatype Config = Config(
    aws: bool, azure: bool, openstack: bool, deletedAt: nat, namespace: string, secretName: string)

  predicate NeedsEvents(cfg: Config) { cfg.aws || cfg.azure || cfg.openstack }

  const BAIL_OUT: nat := 7200  // two hours, in seconds

  /** UIDs have 36 characters, none of them a comma (section 3 of RFC 4122). */
  predicate IsUid(u: string) { |u| == 36 && ',' !in u }

  /** An annotation as the controller writes it. */
  ghost predicate Normal(a: string) {
    a == Encode(Parse(a)) && forall u :: u in Parse(a) ==> IsUid(u)
  }

  /** The stored versions of the Cluster, oldest first, and the one the lister serves. */
  datatype Store = Store(versions: seq<Cluster>, cached: nat)

  function Last(s: Store): nat
    requires s.versions != []
  {
    |s.versions| - 1
  }

  function Current(s: Store): Cluster
    requires s.versions != []
  {
    s.versions[Last(s)]
  }

  /** The API server drops a deleting object with its last finalizer. */
  predicate Gone(s: Store)
    requires s.versions != []
  {
    Current(s).finalizers == {}
  }

  function Put(s: Store, c: Cluster): Store
    requires s.versions != []
  {
    if Gone(s) then s else s.(versions := s.versions + [c])
  }

  ghost predicate Shrinking(versions: seq<Cluster>) {
    forall i, j :: 0 <= i <= j < |versions| ==> versions[j].finalizers <= versions[i].finalizers
  }

  ghost predicate StoreOk(s: Store) {
    && s.versions != [] && s.cached < |s.versions|
    && Shrinking(s.versions)
    && (forall i :: 0 <= i < |s.versions| ==> Normal(s.versions[i].annotation))
  }

  /** Versions are only added, finalizers only removed, and the lister only moves forward. */
  ghost predicate StoreSteady(s: Store, t: Store) {
    && s.versions != [] && s.versions <= t.versions && s.cached <= t.cached
    && Current(t).finalizers <= Current(s).finalizers
  }

  /** Nobody wrote the annotation. */
  ghost predicate SameAnnotation(s: Store, t: Store) {
    && s.versions != [] && s.versions <= t.versions
    && forall j :: |s.versions| <= j < |t.versions| ==> t.versions[j].annotation == Current(s).annotation
  }

  lemma SameAnnotationTransitive(a: Store, b: Store, c: Store)
    requires SameAnnotation(a, b) && SameAnnotation(b, c)
    ensures SameAnnotation(a, c)
  {
    assert Current(b).annotation == Current(a).annotation;
  }

  lemma PutOk(s: Store, c: Cluster)
    requires StoreOk(s) && c.finalizers <= Current(s).finalizers && Normal(c.annotation)
    ensures StoreOk(Put(s, c)) && StoreSteady(s, Put(s, c))
    ensures c.annotation == Current(s).annotation ==> SameAnnotation(s, Put(s, c))
  {
    var t := Put(s, c);
    forall i, j | 0 <= i <= j < |t.versions| ensures t.versions[j].finalizers <= t.versions[i].finalizers {
      if i < |s.versions| { assert Current(s).finalizers <= s.versions[i].finalizers; }
    }
  }

  // ---------- objects in the user cluster ----------

  /** Objects of one kind: those in normal use and those whose deletion has been requested. */
  datatype RawPool = Pool(live: set<string>, deleting: set<string>) {
    function Names(): set<string> { live + deleting }
  }
  type Pool = p: RawPool | p.live !! p.deleting witness Pool({}, {})

  function Marked(p: Pool, n: string): Pool {
    if n in p.live then Pool(p.live - {n}, p.deleting + {n}) else p
  }

  function MarkedAll(p: Pool): Pool { Pool({}, p.Names()) }

  function Without(p: Pool, n: string): Pool { Pool(p.live - {n}, p.deleting - {n}) }

  function With(p: Pool, n: string): Pool {
    if n in p.deleting then p else Pool(p.live + {n}, p.deleting)
  }

  /** Services by UID, which of them are load balancers, and what the cloud and the event log know about them. */
  datatype Balancers = Balancers(
    services: Pool, ofType: set<string>,
    used: set<string>,    // UIDs ever handed out
    cloud: set<string>,   // services whose cloud load balancer exists
    events: set<string>)  // services with a DeletedLoadBalancer event

  /** A cloud load balancer is reported deleted only once it and its service are gone; UIDs are not reused. */
  ghost predicate BalancersOk(b: Balancers) {
    && (forall u :: u in b.services.Names() ==> IsUid(u))
    && b.services.Names() + b.cloud + b.events <= b.used
    && b.events !! b.cloud && b.events !! b.services.Names()
  }

  /** Services and cloud load balancers that are gone do not come back under the same UID, and keep their type. */
  ghost predicate BalancersSteady(b: Balancers, c: Balancers) {
    && b.used <= c.used && c.cloud * b.used <= b.cloud
    && forall u :: u in b.used ==>
         (u in c.ofType <==> u in b.ofType) && (u in c.services.Names() ==> u in b.services.Names())
  }

  datatype ReclaimPolicy = Retain | Recycle | Delete
  datatype Volume = Volume(name: string, provisionedBy: string, policy: ReclaimPolicy)

  predicate IsManaged(v: Volume) { v.provisionedBy != "" && v.policy == Delete }

  function Managed(volumes: set<Volume>): set<Volume> { set v | v in volumes && IsManaged(v) }

  /** Claims, volumes and pods; `webhook` blocks the creation of claims and volumes. */
  datatype Storage = Storage(webhook: bool, claims: Pool, volumes: set<Volume>, pods: Pool, claiming: set<string>)

  ghost predicate NoClaims(s: Storage) { s.webhook && s.claims.Names() == {} }

  ghost predicate NoVolumes(s: Storage) { s.webhook && Managed(s.volumes) == {} }

  /** Every claim is being deleted, and no other can be created. */
  ghost predicate ClaimsDoomed(s: Storage) { s.webhook && s.claims.live == {} }

  /** Behind the webhook, what is gone or on its way out stays so. */
  ghost predicate StorageSteady(s: Storage, t: Storage) {
    && (s.webhook ==> t.webhook && t.claims.live <= s.claims.live)
    && (NoClaims(s) ==> NoClaims(t)) && (NoVolumes(s) ==> NoVolumes(t))
  }

  datatype Fleet = Fleet(deployments: Pool, machineSets: Pool, machines: Pool)

  ghost predicate NoDeployments(f: Fleet) { f.deployments.Names() == {} }

  ghost predicate NoMachineSets(f: Fleet) { NoDeployments(f) && f.machineSets.Names() == {} }

  ghost predicate NoMachines(f: Fleet) { NoMachineSets(f) && f.machines.Names() == {} }

  /** Once a level and those above it are gone, they stay gone. */
  ghost predicate FleetSteady(f: Fleet, g: Fleet) {
    && (NoDeployments(f) ==> NoDeployments(g)) && (NoMachineSets(f) ==> NoMachineSets(g))
    && (NoMachines(f) ==> NoMachines(g))
  }

  /** Other objects in the seed cluster; `gatekeeper` are the constraints with the gatekeeper finalizer. */
  datatype Seed = Seed(backups: Pool, constraints: Pool, gatekeeper: set<string>, secret: bool)

  // ---------- the world ----------

  datatype World = World(store: Store, lb: Balancers, storage: Storage, fleet: Fleet, seed: Seed, now: nat)

  predicate Expired(cfg: Config, w: World) { cfg.deletedAt + BAIL_OUT < w.now }

  ghost predicate WellFormed(w: World) { StoreOk(w.store) && BalancersOk(w.lb) }

  /** What holds between two moments, whatever the controller and everybody else did in between. */
  ghost predicate Steady(w: World, v: World) {
    && StoreSteady(w.store, v.store) && BalancersSteady(w.lb, v.lb) && StorageSteady(w.storage, v.storage)
    && FleetSteady(w.fleet, v.fleet) && (!w.seed.secret ==> !v.seed.secret) && w.now <= v.now
  }

  lemma SteadyTransitive(a: World, b: World, c: World)
    requires Steady(a, b) && Steady(b, c)
    ensures Steady(a, c)
  {
  }

  /** None of the load-balancer services of the first moment is there at the second. */
  ghost predicate AllGone(w: World, v: World) {
    w.lb.services.Names() * w.lb.ofType !! v.lb.services.Names()
  }

  /** Once they are all gone, they stay gone. */
  lemma GoneStays(w: World, v: World, x: World)
    requires WellFormed(w) && Steady(w, v) && Steady(v, x)
    ensures AllGone(w, v) ==> AllGone(w, x)
  {
  }

  /** A later look at what was there makes no difference. */
  lemma GoneSince(w: World, v: World, x: World)
    requires WellFormed(w) && Steady(w, v) && Steady(v, x)
    ensures AllGone(v, x) ==> AllGone(w, x)
  {
  }

  // ---------- the other actors ----------

  datatype StoreEvent =
    | SyncCache(version: nat)
    | DropFinalizers(names: set<Finalizer>)     // other controllers finish their part
    | Touch                                     // somebody changes another field of the Cluster

  datatype BalancerEvent =
    | CreateService(uid: string, balancer: bool)
    | FinishService(uid: string)
    | ReleaseBalancer(uid: string)              // the cloud controller deletes a load balancer and reports it
    | ExpireEvent(uid: string)

  datatype StorageEvent =
    | CreateClaim(name: string) | FinishClaim(name: string)
    | CreateVolume(volume: Volume) | DropVolume(volume: Volume)
    | CreatePod(name: string, claims: bool) | FinishPod(name: string)

  /** Only deployments create machine sets and only machine sets create machines. */
  datatype FleetEvent =
    | FinishDeployment(name: string)
    | CreateMachineSet(name: string) | FinishMachineSet(name: string)
    | CreateMachine(name: string) | FinishMachine(name: string)

  datatype SeedEvent =
    | CreateBackup(name: string) | FinishBackup(name: string)
    | CreateConstraint(name: string, gatekept: bool) | FinishConstraint(name: string)

  datatype Event =
    | OnStore(s: StoreEvent) | OnBalancers(b: BalancerEvent) | OnStorage(v: StorageEvent) | OnFleet(f: FleetEvent)
    | OnSeed(o: SeedEvent) | Tick(seconds: nat)

  // An event that is not possible in the state leaves it unchanged.

  function StoreHappen(s: Store, e: StoreEvent): Store
    requires s.versions != []
  {
    match e
    case SyncCache(v) => if s.cached <= v < |s.versions| then s.(cached := v) else s
    case DropFinalizers(names) =>
      var rest := Current(s).finalizers - (names - GUARDED);
      if rest == Current(s).finalizers then s else Put(s, Current(s).(finalizers := rest))
    case Touch => Put(s, Current(s))
  }

  function BalancersHappen(b: Balancers, e: BalancerEvent): Balancers {
    match e
    case CreateService(u, lb) =>
      if !IsUid(u) || u in b.used then b
      else if lb
      then b.(services := With(b.services, u), used := b.used + {u}, ofType := b.ofType + {u}, cloud := b.cloud + {u})
      else b.(services := With(b.services, u), used := b.used + {u}, ofType := b.ofType - {u})
    case FinishService(u) => b.(services := Without(b.services, u))
    case ReleaseBalancer(u) =>
      if u in b.cloud && u !in b.services.Names() then b.(cloud := b.cloud - {u}, events := b.events + {u}) else b
    case ExpireEvent(u) => b.(events := b.events - {u})
  }

  function StorageHappen(s: Storage, e: StorageEvent): Storage {
    match e
    case CreateClaim(n) => if s.webhook then s else s.(claims := With(s.claims, n))
    case FinishClaim(n) => s.(claims := Without(s.claims, n))
    case CreateVolume(v) => if s.webhook then s else s.(volumes := s.volumes + {v})
    case DropVolume(v) => s.(volumes := s.volumes - {v})
    case CreatePod(n, c) => s.(pods := With(s.pods, n), claiming := if c then s.claiming + {n} else s.claiming - {n})
    case FinishPod(n) => s.(pods := Without(s.pods, n))
  }

  function FleetHappen(f: Fleet, e: FleetEvent): Fleet {
    match e
    case FinishDeployment(n) => f.(deployments := Without(f.deployments, n))
    case CreateMachineSet(n) => if f.deployments.Names() == {} then f else f.(machineSets := With(f.machineSets, n))
    case FinishMachineSet(n) => f.(machineSets := Without(f.machineSets, n))
    case CreateMachine(n) => if f.machineSets.Names() == {} then f else f.(machines := With(f.machines, n))
    case FinishMachine(n) => f.(machines := Without(f.machines, n))
  }

  function SeedHappen(s: Seed, e: SeedEvent): Seed {
    match e
    case CreateBackup(n) => s.(backups := With(s.backups, n))
    case FinishBackup(n) => s.(backups := Without(s.backups, n))
    case CreateConstraint(n, g) =>
      s.(constraints := With(s.constraints, n), gatekeeper := if g then s.gatekeeper + {n} else s.gatekeeper)
    case FinishConstraint(n) => if n in s.gatekeeper then s else s.(constraints := Without(s.constraints, n))
  }

  /** The clock only matters up to the moment the bail-out is due. */
  function Later(cfg: Config, now: nat, seconds: nat): nat {
    var due := cfg.deletedAt + BAIL_OUT + 1;
    if now + seconds <= due then now + seconds else if now <= due then due else now
  }

  function Happen(cfg: Config, w: World, e: Event): World
    requires w.store.versions != []
  {
    match e
    case OnStore(s) => w.(store := StoreHappen(w.store, s))
    case OnBalancers(b) => w.(lb := BalancersHappen(w.lb, b))
    case OnStorage(v) => w.(storage := StorageHappen(w.storage, v))
    case OnFleet(f) => w.(fleet := FleetHappen(w.fleet, f))
    case OnSeed(o) => w.(seed := SeedHappen(w.seed, o))
    case Tick(s) => w.(now := Later(cfg, w.now, s))
  }

  function HappenAll(cfg: Config, w: World, es: seq<Event>): World
    requires w.store.versions != []
    ensures HappenAll(cfg, w, es).store.versions != []
    decreases |es|
  {
    if es == [] then w else HappenAll(cfg, Happen(cfg, w, es[0]), es[1..])
  }

  // ---------- what no event can undo ----------

  lemma StoreHappenOk(s: Store, e: StoreEvent)
    requires StoreOk(s)
    ensures var t := StoreHappen(s, e); StoreOk(t) && StoreSteady(s, t) && SameAnnotation(s, t)
  {
    match e {
      case SyncCache(_) =>
      case DropFinalizers(names) => PutOk(s, Current(s).(finalizers := Current(s).finalizers - (names - GUARDED)));
      case Touch => PutOk(s, Current(s));
    }
  }

  lemma BalancersHappenOk(b: Balancers, e: BalancerEvent)
    requires BalancersOk(b)
    ensures BalancersOk(BalancersHappen(b, e)) && BalancersSteady(b, BalancersHappen(b, e))
  {
  }

  lemma StorageHappenOk(s: Storage, e: StorageEvent)
    ensures StorageSteady(s, StorageHappen(s, e))
  {
  }

  lemma FleetHappenOk(f: Fleet, e: FleetEvent)
    ensures FleetSteady(f, FleetHappen(f, e))
  {
  }

  lemma Nonempty(s: Store)
    ensures StoreOk(s) ==> s.versions != []
  {
  }

  lemma HappenOk(cfg: Config, w: World, e: Event)
    requires WellFormed(w)
    ensures var v := Happen(cfg, w, e); WellFormed(v) && Steady(w, v) && SameAnnotation(w.store, v.store)
  {
    hide Normal, StoreHappen, BalancersHappen, StorageHappen, FleetHappen, StoreOk, BalancersOk;
    Nonempty(w.store);
    match e {
      case OnStore(s) => StoreHappenOk(w.store, s);
      case OnBalancers(b) => BalancersHappenOk(w.lb, b);
      case OnStorage(v) => StorageHappenOk(w.storage, v);
      case OnFleet(f) => FleetHappenOk(w.fleet, f);
      case _ =>
    }
  }

  /** Any number of events: the finalizers shrink, the annotation stands, and what is gone stays gone. */
  lemma {:induction false} HappenAllOk(cfg: Config, w: World, es: seq<Event>)
    requires WellFormed(w)
    ensures var v := HappenAll(cfg, w, es); WellFormed(v) && Steady(w, v) && SameAnnotation(w.store, v.store)
    decreases |es|
  {
    if es == [] {
    } else {
      var u, v := Happen(cfg, w, es[0]), HappenAll(cfg, w, es);
      HappenOk(cfg, w, es[0]);
      HappenAllOk(cfg, u, es[1..]);
      SteadyTransitive(w, u, v);
      SameAnnotationTransitive(w.store, u.store, v.store);
    }
  }
}
