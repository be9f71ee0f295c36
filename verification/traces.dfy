/** Runs of the deletion controller in which a load balancer outlives its finalizer. */
module Traces {
  import opened StringSets
  import opened World
  import opened Ledger
  import opened Progress
  import opened Runs
  import opened Deletion

  /** The lister is up to date, the load-balancer finalizer is set and the constraints are done. */
  ghost predicate Waiting(cfg: Config, w: World) {
    WellFormed(w) && w.store.cached == Last(w.store) && LBCleanup in Held(w) && ConstraintsDone(cfg, w)
  }

  /**
   An in-cluster stage that finds recorded deletions without an event, in a user cluster with nothing left to delete,
   keeps the finalizer in the documented sense and drops it in the written one.
   */
  method StageWhileUnconfirmed(cfg: Config, sense: Sense, start: World, ghost book: Ledger) returns (after: World)
    requires Waiting(cfg, start) && LedgerOk(start, book) && Settled(start)
    requires Consults(cfg, Current(start.store).annotation, start)
    ensures after.store.versions != [] && after.lb == start.lb
    ensures LBCleanup in Held(after) <==> sense.Documented?
  {
    hide Normal, LedgerOk, HistoryOk, BookOk, Parse;
    var d := new Deletion(cfg, sense, (i: nat) => Turn([], Succeeds), start, book);
    StoredNormal(start, Last(start.store));
    NonEmptyIds(Current(start.store).annotation);
    var _ := d.CleanupInClusterResources();
    after := d.w;
  }

  /** A user cluster without services whose one load balancer is recorded as deleted but still exists. */
  method WrittenSenseLosesBalancer(uid: string) returns (cfg: Config, start: World, after: World)
    requires IsUid(uid)
    ensures Waiting(cfg, start) && uid in Parse(Current(start.store).annotation)
    ensures after.store.versions != [] && LBCleanup !in Held(after) && uid in after.lb.cloud
  {
    RoundTrip({uid});
    var c := Cluster({LBCleanup}, Encode({uid}));
    var lb := Balancers(Pool({}, {}), {uid}, {uid}, {uid}, {});
    var storage := Storage(true, Pool({}, {}), {}, Pool({}, {}), {});
    var fleet := Fleet(Pool({}, {}), Pool({}, {}), Pool({}, {}));
    start := World(Store([c], 0), lb, storage, fleet, Seed(Pool({}, {}), Pool({}, {}), {}, false), 0);
    cfg := Config(true, false, false, 0, "cluster", "");
    ghost var book := Ledger({uid}, {}, {}, {});
    after := StageWhileUnconfirmed(cfg, Written, start, book);
  }

  /**
   With nothing left to delete, a stage two hours after the deletion, or on a provider that reports no load balancers,
   drops the finalizer in either sense, whatever is recorded and whatever still exists in the cloud.
   */
  method StageAfterBailOut(cfg: Config, sense: Sense, start: World, ghost book: Ledger) returns (after: World)
    requires Waiting(cfg, start) && LedgerOk(start, book) && NothingLeft(start)
    requires !(cfg.aws || cfg.azure || cfg.openstack) || start.now > cfg.deletedAt + 7200
    ensures after.store.versions != [] && Held(after) == Held(start) - {LBCleanup, PVCleanup}
    ensures Current(after.store).annotation == Current(start.store).annotation && after.lb == start.lb
  {
    hide Normal, LedgerOk, HistoryOk, BookOk, Parse;
    var d := new Deletion(cfg, sense, (i: nat) => Turn([], Succeeds), start, book);
    var _ := d.CleanupInClusterResources();
    after := d.w;
  }

  /** With nothing recorded and nothing left to delete, a stage drops the finalizer. */
  method StageWithoutRecords(cfg: Config, start: World, ghost book: Ledger) returns (after: World)
    requires Waiting(cfg, start) && LedgerOk(start, book) && Current(start.store).annotation == ""
    requires start.lb.services.Names() == {} && NoClaims(start.storage) && NoVolumes(start.storage)
    ensures after.store.versions != [] && LBCleanup !in Held(after) && after.lb == start.lb
  {
    hide Normal, LedgerOk, HistoryOk, BookOk, Parse, MovesOn, Records, Moves;
    ParseEmpty();
    var d := new Deletion(cfg, Documented, (i: nat) => Turn([], Succeeds), start, book);
    var _ := d.CleanupInClusterResources();
    after := d.w;
  }

  /** The service is gone and the lister has caught up. */
  function LaterOn(cfg: Config, w: World, uid: string): World
    requires w.store.versions != []
  {
    HappenAll(cfg, w, [OnBalancers(FinishService(uid)), OnStore(SyncCache(Last(w.store)))])
  }

  lemma LaterOnOk(cfg: Config, w: World, uid: string, l: Ledger)
    requires WellFormed(w) && LedgerOk(w, l) && ConstraintsDone(cfg, w)
    ensures var v := LaterOn(cfg, w, uid);
            && WellFormed(v) && LedgerOk(v, l) && ConstraintsDone(cfg, v)
            && v.store == w.store.(cached := Last(w.store)) && v.lb.services.Names() == w.lb.services.Names() - {uid}
            && v.lb.cloud == w.lb.cloud && v.storage == w.storage
  {
    hide Normal, Parse, LedgerOk;
    var es := [OnBalancers(FinishService(uid)), OnStore(SyncCache(Last(w.store)))];
    var u := Happen(cfg, w, es[0]);
    assert es[1..] == [es[1]] && LaterOn(cfg, w, uid) == HappenAll(cfg, u, es[1..]) == Happen(cfg, u, es[1]);
    HappenAllOk(cfg, w, es);
    HappenAllTame(cfg, w, es);
    LedgerStable(w, LaterOn(cfg, w, uid), l);
  }

  /**
   The service is deleted, the patch that should record it fails, and the service is gone before the next pass: that
   pass drops the finalizer, also in the documented sense, while the cloud load balancer may still exist.
   */
  method BrokenOffCleanupLosesBalancer(cfg: Config, start: World, ghost book: Ledger, uid: string)
    returns (completed: bool, after: World)
    requires Waiting(cfg, start) && LedgerOk(start, book) && Current(start.store).annotation == ""
    requires start.lb.services.Names() == {uid} <= start.lb.ofType
    requires NoClaims(start.storage) && NoVolumes(start.storage)
    ensures !completed
    ensures after.store.versions != [] && LBCleanup !in Held(after) && after.lb.cloud == start.lb.cloud
  {
    hide Normal, LedgerOk, HistoryOk, BookOk, Parse, MovesOn, Records, Moves, ServicesShrink, Grown, Lasting, LaterOn,
         WellFormed;
    ServicesUsed(start);
    var script := (i: nat) => Turn([], if i == 1 then FailsBefore else Succeeds);
    var first := new Deletion(cfg, Documented, script, start, book);
    var err := first.CleanupLB(uid);
    LaterOnOk(cfg, first.w, uid, first.ledger);
    completed := !err;
    after := StageWithoutRecords(cfg, LaterOn(cfg, first.w, uid), first.ledger);
  }

  /** The two versions that the broken-off cleanups of two services leave behind, the first one overwritten. */
  ghost predicate Overwritten(start: World, w: World, uid: string, other: string) {
    var n := |start.store.versions|;
    && start.store.versions != [] && |w.store.versions| == n + 2 && w.store.cached == n
    && w.store.versions[n] == Current(start.store).(annotation := Encode({uid}))
    && w.store.versions[n + 1] == Current(start.store).(annotation := Encode({other}))
    && w.lb == start.lb.(services := w.lb.services) && w.lb.services.Names() == start.lb.services.Names()
    && w.storage == start.storage && w.now == start.now
  }

  /** The cleanup deletes the service and stores its UID, and is then broken off as the script has it. */
  method StoreAndBreakOff(cfg: Config, script: Script, start: World, ghost book: Ledger, uid: string)
    returns (after: World, ghost ledger: Ledger)
    requires WellFormed(start) && LedgerOk(start, book) && ConstraintsDone(cfg, start) && !Gone(start.store)
    requires uid in start.lb.services.Names() * start.lb.ofType && BrokenOff(script, 0)
    ensures WellFormed(after) && LedgerOk(after, ledger) && ConstraintsDone(cfg, after) && ledger == Begun(book, uid)
    ensures after == WithUid(MarkedService(start, uid), start.store.versions[start.store.cached].annotation, uid)
  {
    hide Normal, LedgerOk, HistoryOk, BookOk, Parse, MovesOn, Records, Moves, ServicesShrink, Grown, Lasting,
         AllLasting, Steady, WithUid, Begun;
    ServicesUsed(start);
    var d := new Deletion(cfg, Documented, script, start, book);
    var _ := d.CleanupLB(uid);
    SteadyKeeps(cfg, start, d.w);
    after, ledger := d.w, d.ledger;
  }

  /** An event between two passes. */
  method Between(cfg: Config, w: World, ghost l: Ledger, e: Event) returns (v: World)
    requires WellFormed(w) && LedgerOk(w, l) && ConstraintsDone(cfg, w)
    ensures v == Happen(cfg, w, e) && WellFormed(v) && LedgerOk(v, l) && ConstraintsDone(cfg, v)
  {
    hide Normal, LedgerOk, Steady, Tame;
    v := Happen(cfg, w, e);
    HappenAllOk(cfg, w, [e]);
    HappenAllTame(cfg, w, [e]);
    assert HappenAll(cfg, w, [e]) == v;
    LedgerStable(w, v, l);
    SteadyKeeps(cfg, w, v);
  }

  lemma OverwrittenSteps(cfg: Config, start: World, uid: string, other: string)
    requires start.store.versions != [] && start.store.cached == Last(start.store) && !Gone(start.store)
    requires Current(start.store).annotation == "" && IsUid(uid) && IsUid(other) && uid != other
    ensures var v := WithUid(MarkedService(start, uid), "", uid);
            var w := WithUid(MarkedService(v, other), "", other);
            && v.store.cached == start.store.cached && v.store.versions != [] && !Gone(v.store)
            && v.store.versions[v.store.cached] == Current(start.store)
            && v.lb.services.Names() == start.lb.services.Names() && v.lb.ofType == start.lb.ofType
            && w.store.versions != [] && !Gone(w.store)
            && Overwritten(start, Happen(cfg, w, OnStore(SyncCache(|start.store.versions|))), uid, other)
  {
    hide Parse, Encode;
    EncodedApart(uid, other);
    var v := WithUid(MarkedService(start, uid), "", uid);
    var w := WithUid(MarkedService(v, other), "", other);
    assert v.store.versions == start.store.versions + [Current(start.store).(annotation := Encode({uid}))];
    assert w.store.versions == v.store.versions + [Current(start.store).(annotation := Encode({other}))];
    assert Marked(start.lb.services, uid).Names() == start.lb.services.Names();
    assert Marked(v.lb.services, other).Names() == v.lb.services.Names();
  }

  /** Two cleanups, each from the copy without records, are broken off; then the lister serves the first record. */
  method OverwriteRecord(cfg: Config, start: World, ghost book: Ledger, uid: string, other: string)
    returns (after: World, ghost ledger: Ledger)
    requires Waiting(cfg, start) && LedgerOk(start, book) && Current(start.store).annotation == ""
    requires uid != other && {uid, other} <= start.lb.services.Names() * start.lb.ofType
    ensures WellFormed(after) && LedgerOk(after, ledger) && ConstraintsDone(cfg, after)
    ensures Overwritten(start, after, uid, other)
  {
    hide Normal, LedgerOk, Parse, ConstraintsDone, WellFormed, Encode, Begun, WithUid, MarkedService, Overwritten,
         Happen;
    Bounds(start);
    ServicesUsed(start);
    OverwrittenSteps(cfg, start, uid, other);
    var w: World;
    ghost var l: Ledger;
    w, l := StoreAndBreakOff(cfg, (i: nat) => Turn([], if i == 1 then FailsAfter else Succeeds), start, book, uid);
    w, l := StoreAndBreakOff(cfg, (i: nat) => Turn([], if i == 2 then FailsBefore else Succeeds), w, l, other);
    after := Between(cfg, w, l, OnStore(SyncCache(|start.store.versions|)));
    ledger := l;
  }

  lemma EncodedApart(uid: string, other: string)
    requires IsUid(uid) && IsUid(other) && uid != other
    ensures Encode({uid}) != "" && Encode({uid}) != Encode({other})
    ensures Encode(Parse("") + {uid}) == Encode({uid}) && Encode(Parse("") + {other}) == Encode({other})
    ensures Encode({other}) != ""
  {
    ParseEmpty();
    RoundTrip({uid});
    RoundTrip({other});
    assert uid in {uid} && uid !in {other};
    assert Parse("") + {uid} == {uid} && Parse("") + {other} == {other};
  }

  /** The cleanup finds the overwritten record served, patches nothing, and its wait ends at once. */
  method CleanupOverwritten(cfg: Config, start: World, w: World, ghost l: Ledger, uid: string, other: string)
    returns (completed: bool, after: World, ghost ledger: Ledger)
    requires WellFormed(w) && LedgerOk(w, l) && ConstraintsDone(cfg, w) && Overwritten(start, w, uid, other)
    requires LBCleanup in Held(start) && uid != other && {uid, other} == w.lb.services.Names() <= w.lb.ofType
    ensures completed && after == MarkedService(w, uid)
    ensures WellFormed(after) && LedgerOk(after, ledger) && ConstraintsDone(cfg, after)
  {
    hide Normal, LedgerOk, HistoryOk, BookOk, Parse, Encode, MovesOn, Records, Moves, ServicesShrink, Grown, Lasting,
         AllLasting, Steady, Begun, Finished, WellFormed;
    ServicesUsed(w);
    assert uid in w.lb.services.Names();
    RoundTrip({uid});
    assert {uid} + {uid} == {uid};
    var d := new Deletion(cfg, Documented, (i: nat) => Turn([], Succeeds), w, l);
    var err := d.CleanupLB(uid);
    SteadyKeeps(cfg, w, d.w);
    completed, after, ledger := !err, d.w, d.ledger;
  }

  /** Both services end, the cloud reports the second load balancer gone, and the lister catches up. */
  method EndServices(cfg: Config, w: World, ghost l: Ledger, uid: string, other: string) returns (v: World)
    requires WellFormed(w) && LedgerOk(w, l) && ConstraintsDone(cfg, w)
    requires w.lb.services.Names() == {uid, other} && other in w.lb.cloud
    ensures WellFormed(v) && LedgerOk(v, l) && ConstraintsDone(cfg, v)
    ensures v.store == w.store.(cached := Last(w.store)) && v.lb.services.Names() == {} && v.storage == w.storage
    ensures v.lb.cloud == w.lb.cloud - {other} && other in v.lb.events && v.now == w.now
  {
    hide Normal, LedgerOk, ConstraintsDone, WellFormed, Parse;
    Bounds(w);
    v := Between(cfg, w, l, OnBalancers(FinishService(uid)));
    v := Between(cfg, v, l, OnBalancers(FinishService(other)));
    assert v.lb.services.Names() == {};
    v := Between(cfg, v, l, OnBalancers(ReleaseBalancer(other)));
    v := Between(cfg, v, l, OnStore(SyncCache(Last(v.store))));
  }

  /** A stage that finds all recorded deletions confirmed empties the annotation; the next one drops the finalizer. */
  method StagesWhenConfirmed(cfg: Config, start: World, ghost book: Ledger) returns (after: World)
    requires Waiting(cfg, start) && LedgerOk(start, book) && Consults(cfg, Current(start.store).annotation, start)
    requires Parse(Current(start.store).annotation) <= start.lb.events
    requires start.lb.services.Names() == {} && NoClaims(start.storage) && NoVolumes(start.storage)
    ensures after.store.versions != [] && LBCleanup !in Held(after) && after.lb == start.lb
  {
    hide Normal, LedgerOk, HistoryOk, BookOk, Parse, Encode, MovesOn, Records, Moves, Grown, AllLasting, Steady,
         NoneInDoubt;
    assert NothingLeft(start);
    var d := new Deletion(cfg, Documented, (i: nat) => Turn([], Succeeds), start, book);
    var _ := d.CleanupInClusterResources();
    after := d.w;
    SteadyKeeps(cfg, start, d.w);
    if LBCleanup in Current(after.store).finalizers {
      StoredNormal(d.w, Last(d.w.store));
      NonEmptyIds(Current(d.w.store).annotation);
      var next := Between(cfg, d.w, d.ledger, OnStore(SyncCache(Last(d.w.store))));
      after := StageWithoutRecords(cfg, next, d.ledger);
    }
  }

  /**
   From a start without doubt: the patch that records a service lands but its answer is lost; the next pass, served the
   older version, overwrites the record with another service's and is broken off; then the lister serves the overwritten
   record, so that a third cleanup of the first service completes without error and without recording it. Once both
   services are gone and the second load balancer is reported gone, the finalizer goes while the first may still exist.
   */
  method OverwrittenRecordLosesBalancer(cfg: Config, start: World, ghost book: Ledger, uid: string, other: string)
    returns (completed: bool, after: World)
    requires Waiting(cfg, start) && LedgerOk(start, book) && book.doubt == {} && Current(start.store).annotation == ""
    requires uid != other && start.lb.services.Names() == {uid, other} <= start.lb.ofType && other in start.lb.cloud
    requires NoClaims(start.storage) && NoVolumes(start.storage)
    requires (cfg.aws || cfg.azure || cfg.openstack) && start.now <= cfg.deletedAt + 7200
    ensures completed
    ensures after.store.versions != [] && LBCleanup !in Held(after) && after.lb.cloud == start.lb.cloud - {other}
  {
    hide Normal, LedgerOk, ConstraintsDone, WellFormed, Parse, Encode, NoClaims, NoVolumes;
    ServicesUsed(start);
    EncodedApart(uid, other);
    RoundTrip({other});
    var w: World;
    ghost var l: Ledger;
    w, l := OverwriteRecord(cfg, start, book, uid, other);
    completed, w, l := CleanupOverwritten(cfg, start, w, l, uid, other);
    w := EndServices(cfg, w, l, uid, other);
    after := StagesWhenConfirmed(cfg, w, l);
  }
}
