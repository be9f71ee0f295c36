/**
 The deletion controller. A pass reads a possibly stale copy of the Cluster, issues calls against the two API servers
 and removes finalizers stage by stage. Before every call the script lets the other actors move, and it decides
 whether the call succeeds, fails, or takes effect although its answer is lost.
 */
module Deletion {
  import opened Text
  import opened StringSets
  import opened World
  import opened Ledger
  import opened Progress
  import opened Runs
  import F = Finalizers

  class Deletion {
    const cfg: Config
    const sense: Sense
    const script: Script
    ghost const start: World  // where the run began
    ghost const book: Ledger  // and what had been deleted and seen by then
    var tick: nat
    var w: World
    var cluster: Cluster     // the controller's copy of the Cluster
    var base: nat            // the version the copy was read at
    ghost var ledger: Ledger
    ghost var log: seq<Entry>

    ghost predicate Valid()
      reads `w, `ledger, `log
    {
      && w.store.versions != [] && w.store.cached < |w.store.versions|
      && WellFormed(w) && LedgerOk(w, ledger) && HistoryOk(cfg, sense, start, log, w)
      && BookOk(book, log, ledger)
    }

    /** The copy's annotation is well-formed and records everything pending. */
    ghost predicate NotesOk()
      reads `cluster, `ledger
    {
      Normal(cluster.annotation) && Records(cluster.annotation, ledger)
    }

    /** However stale the copy is, it has all stored finalizers. */
    ghost predicate CopyOk()
      reads `w, `cluster, `ledger
      requires w.store.versions != []
    {
      Held(w) <= cluster.finalizers && NotesOk()
    }

    ghost predicate Fresh()
      reads `w, `cluster
      requires w.store.versions != []
    {
      w.store.cached == Last(w.store) && cluster == Current(w.store)
    }

    ghost predicate InSync()
      reads `w, `cluster
      requires w.store.versions != []
    {
      cluster.annotation == Current(w.store).annotation
    }

    ghost predicate Coop()
    {
      Cooperative(script)
    }

    /** Lets everybody else move and says how the next call ends. */
    method Call() returns (o: Outcome)
      requires Valid()
      modifies `w, `tick
      ensures Kept(w.store) == Kept(old(w).store)
      ensures Valid() && Calmly(cfg, Coop(), old(w), w)
      ensures Coop() ==> o.Succeeds? && ServicesShrink(old(w), w) && forall aside :: MovesOn(cfg, old(w), w, aside)
      ensures Quiet(script) ==> o.Succeeds? && w == old(w)
      ensures tick == old(tick) + 1 && o == script(old(tick)).outcome
      ensures script(old(tick)).events == [] ==> w == old(w)
    {
      hide MovesOn, HistoryOk, BookOk, Tame, LedgerOk, Normal;
      var t := script(tick);
      tick := tick + 1;
      var next := HappenAll(cfg, w, t.events);
      HappenAllOk(cfg, w, t.events);
      HappenAllTame(cfg, w, t.events);
      TameKept(cfg, w, next);
      LedgerStable(w, next, ledger);
      HistoryStable(cfg, sense, start, log, w, next);
      if Coop() {
        AllBenignShrink(cfg, w, t.events);
        forall aside ensures MovesOn(cfg, w, next, aside) { AllBenignMove(cfg, w, t.events, aside); }
      }
      w := next;
      o := t.outcome;
    }

    // ---------- the Cluster object ----------

    /** Reads the Cluster through the lister's cache into the copy. */
    method Get() returns (r: Reply)
      requires Valid() && NotesOk()
      modifies `w, `tick, `cluster, `base
      ensures Valid() && NotesOk() && Calmly(cfg, Coop(), old(w), w)
      ensures r.Ok? || r.NotFound? || r.Failed?
      ensures r.Ok? ==> base == w.store.cached && cluster == w.store.versions[base] && CopyOk()
      ensures !r.Ok? ==> cluster == old(cluster)
      ensures r.NotFound? ==> Held(w) == {}
      ensures Coop() ==> !r.Failed?
      ensures Quiet(script) ==> w == old(w) && (r.NotFound? <==> old(w.store.cached == Last(w.store) && Gone(w.store)))
      ensures Quiet(script) ==> !r.Failed?
      ensures tick == old(tick) + 1
      ensures old(Uniform(w.store) && InSync()) ==> InSync()
    {
      hide Normal, MovesOn, HistoryOk, BookOk, LedgerOk, BalancersOk, Records, Parse;
      var o := Call();
      if !o.Succeeds? {
        return Failed;
      }
      if Uniform(old(w).store) { UniformStable(old(w).store, w.store); }
      var s := w.store;
      if s.cached == Last(s) && Gone(s) {
        return NotFound;
      }
      cluster, base := s.versions[s.cached], s.cached;
      CachedRecords(w, ledger);
      r := Ok;
    }

    /** The server stores the copy, which starts from the stored version. */
    method Accept(ghost names: set<Finalizer>)
      requires Valid() && !(Held(w) !! names)
      requires cluster == Current(w.store).(finalizers := Held(w) - names)
      requires DropOk(cfg, sense, start, w, ledger, names * Held(w))
      modifies `w, `log
      ensures Valid() && Calmly(cfg, true, old(w), w)
      ensures w == old(w).(store := Put(old(w).store, cluster)) && w != old(w)
      ensures cluster == Current(w.store)
    {
      hide Normal, MovesOn, HistoryOk, BookOk, LedgerOk, DropOk;
      var next := w.(store := Put(w.store, cluster));
      DropMoves(cfg, w, names);
      LedgerStable(w, next, ledger);
      ghost var e := Entry(Drop(names * Held(w)), w, ledger);
      HistoryExtend(cfg, sense, start, log, w, e, next);
      BookExtend(book, log, ledger, e);
      w := next;
      log := log + [e];
    }

    /** Sends the copy back; accepted only if it still starts from the stored version. */
    method Update(ghost names: set<Finalizer>) returns (r: Reply)
      requires Valid() && NotesOk() && base < |w.store.versions|
      requires cluster == w.store.versions[base].(finalizers := w.store.versions[base].finalizers - names)
      requires !(w.store.versions[base].finalizers !! names)
      requires DropOk(cfg, sense, start, w, ledger, names * Held(w))
      modifies `w, `tick, `base, `log
      ensures Valid() && Calmly(cfg, Coop(), old(w), w)
      ensures r.Ok? ==> Last(w.store) == old(base) + 1 == base
      ensures r.Ok? ==> cluster == Current(w.store)
      ensures r.Conflict? ==> DropOk(cfg, sense, start, w, ledger, names * Held(w))
      ensures Coop() && old(base == Last(w.store)) ==> w != old(w)
      ensures Quiet(script) && old(base == Last(w.store)) ==> r.Ok? && w == old(w).(store := Put(old(w).store, cluster))
      ensures Quiet(script) && old(base != Last(w.store)) ==>
                w == old(w) && if Gone(old(w).store) then r.Failed? else r.Conflict?
      ensures tick == old(tick) + 1
      ensures Quiet(script) ==> w == old(w).(store := w.store)
    {
      hide Normal, WellFormed, MovesOn, HistoryOk, BookOk, LedgerOk, DropOk, BalancersOk, BalancersSteady,
           FleetSteady, StorageSteady, SameAnnotation;
      var o := Call();
      DropStable(cfg, sense, start, log, old(w), w, ledger, names);
      assert w.store.versions[base] == old(w).store.versions[base];
      if o.FailsBefore? || Gone(w.store) {
        return Failed;
      }
      if base != Last(w.store) {
        return Conflict;
      }
      ghost var u := w;
      Accept(names);
      CalmlyTransitive(cfg, Coop(), old(w), u, w);
      if o.FailsAfter? {
        return Failed;
      }
      base := Last(w.store);
      r := Ok;
    }

    /** One get-modify-update attempt. */
    method Attempt(names: set<Finalizer>) returns (r: Reply)
      requires Valid() && NotesOk() && DropOk(cfg, sense, start, w, ledger, names * Held(w))
      modifies `w, `tick, `cluster, `base, `log
      ensures Valid() && NotesOk() && Calmly(cfg, Coop(), old(w), w)
      ensures r.Ok? ==> CopyOk() && Held(w) !! names
      ensures r.Conflict? ==> DropOk(cfg, sense, start, w, ledger, names * Held(w))
      ensures Coop() && old(Fresh()) && w == old(w) ==> r.Ok? && Fresh()
      ensures old(Uniform(w.store) && InSync()) ==> InSync()
      ensures Quiet(script) ==> Removed(old(w), w, names, !r.Ok?) && CopyServed(old(w), old(cluster), names, w, cluster)
      ensures Quiet(script) && old(Lags(w.store, names)) && !Gone(old(w).store) ==>
                r.Conflict? && tick == old(tick) + 2
      ensures Quiet(script) ==> w == old(w).(store := w.store)
    {
      hide Normal, WellFormed, MovesOn, HistoryOk, BookOk, LedgerOk, DropOk, BalancersOk, BalancersSteady,
           FleetSteady, StorageSteady, SameAnnotation, Records, Uniform, Kept;
      r := Get();
      ghost var mid := w;
      DropStable(cfg, sense, start, log, old(w), w, ledger, names);
      if r.Failed? {
        return;
      }
      if r.NotFound? {
        return Ok;
      }
      var remaining := cluster.finalizers - names;
      if remaining == cluster.finalizers {
        return;
      }
      cluster := cluster.(finalizers := remaining);
      if old(Uniform(w.store) && InSync()) { UniformIn(cfg, old(w), mid); }
      r := Update(names);
      CalmlyTransitive(cfg, Coop(), old(w), mid, w);
      if old(Uniform(w.store) && InSync()) { UniformIn(cfg, mid, w); }
      if r.NotFound? {
        r := Failed;
      }
    }

    /** Removes finalizers from the stored Cluster; no error means they are gone from it, for good. */
    method TryRemoveFinalizer(names: set<Finalizer>) returns (err: bool)
      requires Valid() && CopyOk() && DropOk(cfg, sense, start, w, ledger, names * Held(w))
      modifies `w, `tick, `cluster, `base, `log
      ensures Valid() && NotesOk() && Calmly(cfg, Coop(), old(w), w)
      ensures !err ==> CopyOk() && Held(w) !! names
      ensures Coop() && old(Fresh()) && w == old(w) ==> !err && Fresh()
      ensures old(Uniform(w.store) && InSync()) ==> InSync()
      ensures Quiet(script) ==> Removed(old(w), w, names, err) && CopyServed(old(w), old(cluster), names, w, cluster)
      ensures Quiet(script) && old(Lags(w.store, names)) && !Gone(old(w).store) ==> tick == old(tick) + 2 * 5
      ensures Quiet(script) ==> w == old(w).(store := w.store)
    {
      hide Normal, WellFormed, Calmly, HistoryOk, BookOk, LedgerOk, DropOk, Records, Uniform;
      CalmlyReflexive(cfg, Coop(), w);
      var attempt := 0;
      while attempt < F.ATTEMPTS
        invariant Valid() && NotesOk() && Calmly(cfg, Coop(), old(w), w) && attempt <= F.ATTEMPTS
        invariant Quiet(script) ==> w == old(w).(store := w.store)
        invariant DropOk(cfg, sense, start, w, ledger, names * Held(w))
        invariant attempt == 0 ==> w == old(w) && cluster == old(cluster)
        invariant attempt > 0 && Coop() && old(Fresh()) ==> w != old(w)
        invariant attempt > 0 && Quiet(script) ==> Removed(old(w), w, names, true)
        invariant Quiet(script) && old(Lags(w.store, names)) && !Gone(old(w).store) ==>
                    w == old(w) && tick == old(tick) + 2 * attempt
        invariant old(Uniform(w.store) && InSync()) ==> Uniform(w.store) && InSync()
      {
        ghost var start := w;
        var r := Attempt(names);
        CalmlyTransitive(cfg, Coop(), old(w), start, w);
        if Uniform(start.store) { UniformIn(cfg, start, w); }
        if r.Ok? {
          return false;
        }
        if !r.Conflict? {
          return true;
        }
        attempt := attempt + 1;
      }
      err := true;
    }

    /** A call of the controller that leaves the Cluster, the machines and the Secret alone takes effect. */
    method Effect(next: World)
      requires Valid() && WellFormed(next) && Calmly(cfg, true, w, next) && next.store == w.store
      requires next.fleet == w.fleet && next.seed.secret == w.seed.secret
      requires next.lb.services.deleting <= w.lb.services.deleting + ledger.deleted
      requires next.lb.services.deleting <= w.lb.services.deleting + next.lb.ofType
      requires next.seed.backups == w.seed.backups
      requires ConstraintsDone(cfg, w) || (next.lb.services == w.lb.services && next.storage.claims == w.storage.claims)
      modifies `w
      ensures Valid() && w == next
    {
      hide WellFormed, HistoryOk, BookOk, LedgerOk, MovesOn, ConstraintsDone;
      LedgerStable(w, next, ledger);
      HistoryStable(cfg, sense, start, log, w, next);
      w := next;
    }

    /** A call of the controller that has to be safe takes effect. */
    method Perform(next: World, ghost act: Act)
      requires Valid() && WellFormed(next) && Calmly(cfg, true, w, next) && next.store == w.store
      requires next.lb == w.lb && Performed(act, w, next) && Safe(cfg, sense, start, Entry(act, w, ledger))
      modifies `w, `log
      ensures Valid() && w == next && log == old(log) + [Entry(act, old(w), ledger)]
    {
      hide WellFormed, HistoryOk, BookOk, LedgerOk, MovesOn, Safe, Performed;
      LedgerStable(w, next, ledger);
      HistoryExtend(cfg, sense, start, log, w, Entry(act, w, ledger), next);
      BookExtend(book, log, ledger, Entry(act, w, ledger));
      log := log + [Entry(act, w, ledger)];
      w := next;
    }

    method DeleteFromFleet(act: Act, name: string) returns (err: bool)
      requires Valid() && OnFleetLevel(act) && LevelReached(w, act)
      modifies `w, `tick, `log
      ensures Valid() && Calmly(cfg, Coop(), old(w), w) && LevelReached(w, act)
      ensures Coop() && w == old(w) && name in Level(w.fleet, act).Names() ==>
                !err && name in Level(w.fleet, act).deleting
      ensures Quiet(script) && name in Level(old(w).fleet, act).Names() ==>
                !err && w == old(w).(fleet := SetLevel(old(w).fleet, act, Marked(Level(old(w).fleet, act), name)))
    {
      hide WellFormed, HistoryOk, BookOk, LedgerOk, MovesOn, SameAnnotation, BalancersSteady, StorageSteady;
      var o := Call();
      LevelStable(old(w), w, act);
      if o.FailsBefore? || name !in Level(w.fleet, act).Names() {
        return true;
      }
      ghost var u := w;
      var next := w.(fleet := SetLevel(w.fleet, act, Marked(Level(w.fleet, act), name)));
      MarkLevel(cfg, w, act, name);
      Perform(next, act);
      CalmlyTransitive(cfg, Coop(), old(w), u, w);
      LevelStable(u, w, act);
      err := o.FailsAfter?;
    }

    /** Deletes everything listed at one level; `some` tells whether there was anything. */
    method TearDown(act: Act) returns (some: bool, err: bool)
      requires Valid() && OnFleetLevel(act) && LevelReached(w, act)
      modifies `w, `tick, `log
      ensures Valid() && Calmly(cfg, Coop(), old(w), w) && LevelReached(w, act)
      ensures !err && !some ==> Level(w.fleet, act).Names() == {}
      ensures Coop() && w == old(w) ==> !err && (some ==> Level(w.fleet, act).deleting != {})
      ensures Quiet(script) ==>
                !err && some == (Level(old(w).fleet, act).Names() != {}) && w == LevelCleared(old(w), act)
    {
      hide WellFormed, HistoryOk, BookOk, LedgerOk, Calmly, LevelReached, LevelMarked, SetLevel;
      var o := Call();
      CalmLevel(cfg, Coop(), old(w), w, act);
      if !o.Succeeds? {
        return false, true;
      }
      var listed := Level(w.fleet, act).Names();
      var todo := listed;
      LevelMarkedStep(old(w), act, {}, "");
      assert listed - todo == {};
      while todo != {}
        invariant Quiet(script) ==>
                    listed == Level(old(w).fleet, act).Names() && w == LevelMarked(old(w), act, listed - todo)
        invariant Valid() && Calmly(cfg, Coop(), old(w), w) && LevelReached(w, act) && todo <= listed
        invariant listed == {} ==> Level(w.fleet, act).Names() == {}
        invariant Coop() && w == old(w) ==> listed == Level(w.fleet, act).Names()
        invariant Coop() && w == old(w) && todo != listed ==> Level(w.fleet, act).deleting != {}
      {
        var name :| name in todo;
        LevelMarkedStep(old(w), act, listed - todo, name);
        assert listed - (todo - {name}) == (listed - todo) + {name};
        todo := todo - {name};
        ghost var u := w;
        err := DeleteFromFleet(act, name);
        CalmlyTransitive(cfg, Coop(), old(w), u, w);
        if err {
          return true, true;
        }
      }
      assert listed - todo == listed;
      some, err := listed != {}, false;
    }

    /** Machine deployments first, then machine sets, then machines; `some` tells whether there was anything. */
    method TearDownFleet() returns (some: bool, err: bool)
      requires Valid() && InClusterDone(w)
      modifies `w, `tick, `log
      ensures Valid() && Calmly(cfg, Coop(), old(w), w)
      ensures !err && !some ==> NoMachines(w.fleet)
      ensures Coop() && w == old(w) ==> !err && (some ==> Outstanding(cfg, w))
      ensures Quiet(script) ==> !err && some == !NoMachines(old(w).fleet) && w == TornDown(old(w))
    {
      hide WellFormed, HistoryOk, BookOk, LedgerOk, Calmly, InClusterDone, Outstanding, LevelCleared, SetLevel;
      forall act | OnFleetLevel(act) { LevelMarkedStep(w, act, {}, ""); }
      some, err := TearDown(DeleteDeployment) by { assert LevelReached(w, DeleteDeployment); }
      CalmlyKeeps(cfg, Coop(), old(w), w);
      LevelOutstanding(cfg, w, DeleteDeployment);
      if err || some {
        return;
      }
      ghost var u := w;
      some, err := TearDown(DeleteMachineSet) by { LevelEmpty(w, DeleteDeployment); }
      CalmlyTransitive(cfg, Coop(), old(w), u, w);
      CalmlyKeeps(cfg, Coop(), old(w), w);
      LevelOutstanding(cfg, w, DeleteMachineSet);
      if err || some {
        return;
      }
      u := w;
      some, err := TearDown(DeleteMachine) by { LevelEmpty(w, DeleteMachineSet); }
      CalmlyTransitive(cfg, Coop(), old(w), u, w);
      CalmlyKeeps(cfg, Coop(), old(w), w);
      LevelOutstanding(cfg, w, DeleteMachine);
      if !err && !some { LevelEmpty(w, DeleteMachine); }
    }

    /** The machines, level by level, and the finalizer when all are gone. */
    method CleanupNodes() returns (err: bool)
      requires Valid() && CopyOk() && InClusterDone(w)
      modifies `w, `tick, `cluster, `base, `log
      ensures Valid() && NotesOk() && Calmly(cfg, Coop(), old(w), w) && (!err ==> CopyOk())
      ensures Coop() && old(Fresh()) && w == old(w) ==>
                !err && Fresh() && (NodeDeletion in Held(w) ==> Outstanding(cfg, w))
      ensures Quiet(script) ==> NodesHandled(old(w), w, old(cluster.finalizers), err)
      ensures Quiet(script) ==>
                if NodeDeletion in old(cluster.finalizers) && NoMachines(old(w).fleet)
                then CopyServed(old(w), old(cluster), {NodeDeletion}, w, cluster) else cluster == old(cluster)
    {
      hide WellFormed, HistoryOk, BookOk, LedgerOk, Calmly, DropOk, Normal, Records, InClusterDone, Outstanding,
           LevelCleared, Removed, CopyServed;
      CalmlyReflexive(cfg, Coop(), w);
      if !F.HasFinalizer(cluster.finalizers, {NodeDeletion}) {
        return false;
      }
      var some: bool;
      some, err := TearDownFleet();
      CalmlyKeeps(cfg, Coop(), old(w), w);
      if err || some {
        return;
      }
      NodeDropOk(cfg, sense, start, w, ledger);
      ghost var u := w;
      err := TryRemoveFinalizer({NodeDeletion});
      CalmlyTransitive(cfg, Coop(), old(w), u, w);
    }

    // ---------- backup configs ----------

    method DeleteBackup(name: string) returns (err: bool)
      requires Valid() && InClusterDone(w)
      modifies `w, `tick, `log
      ensures Valid() && Calmly(cfg, Coop(), old(w), w)
      ensures Coop() && w == old(w) && name in w.seed.backups.Names() ==> !err && name in w.seed.backups.deleting
      ensures Quiet(script) && name in old(w).seed.backups.Names() ==> !err && w == MarkedBackup(old(w), name)
    {
      hide WellFormed, HistoryOk, BookOk, LedgerOk, Calmly, MarkedBackup, InClusterDone, Performed;
      var o := Call();
      CalmlyKeeps(cfg, Coop(), old(w), w);
      if o.FailsBefore? || name !in w.seed.backups.Names() {
        return true;
      }
      ghost var u := w;
      MarkBackup(cfg, w, name);
      Perform(MarkedBackup(w, name), DeleteBackupConfig);
      CalmlyTransitive(cfg, Coop(), old(w), u, w);
      err := o.FailsAfter?;
    }

    method CleanupEtcdBackupConfigs() returns (err: bool)
      requires Valid() && CopyOk() && InClusterDone(w)
      modifies `w, `tick, `cluster, `base, `log
      ensures Valid() && NotesOk() && Calmly(cfg, Coop(), old(w), w) && (!err ==> CopyOk())
      ensures Coop() && old(Fresh()) && w == old(w) ==>
                !err && Fresh() && (BackupConfigCleanup in Held(w) ==> Outstanding(cfg, w))
      ensures Quiet(script) ==> BackupsHandled(old(w), w, old(cluster.finalizers), err)
      ensures Quiet(script) ==>
                if BackupConfigCleanup in old(cluster.finalizers) && old(w).seed.backups.Names() == {}
                then CopyServed(old(w), old(cluster), {BackupConfigCleanup}, w, cluster) else cluster == old(cluster)
    {
      hide WellFormed, HistoryOk, BookOk, LedgerOk, Calmly, DropOk, Normal, Records, Steady, NoClaims, NoVolumes,
           ConstraintsDone, InClusterDone, MovesOn;
      CalmlyReflexive(cfg, Coop(), w);
      if !F.HasFinalizer(cluster.finalizers, {BackupConfigCleanup}) {
        return false;
      }
      var o := Call();
      CalmlyKeeps(cfg, Coop(), old(w), w);
      if !o.Succeeds? {
        return true;
      }
      var listed := w.seed.backups.Names();
      if listed != {} {
        var todo := listed;
        MarkedSetStep(old(w).seed.backups, {}, "");
        while todo != {}
          invariant Valid() && Calmly(cfg, Coop(), old(w), w) && todo <= listed && cluster == old(cluster)
          invariant Held(w) <= Held(old(w)) && InClusterDone(w)
          invariant Quiet(script) ==> listed == old(w).seed.backups.Names()
          invariant Quiet(script) ==>
                      w == old(w).(seed := old(w).seed.(backups := MarkedSet(old(w).seed.backups, listed - todo)))
          invariant Coop() && w == old(w) ==> listed == w.seed.backups.Names()
          invariant Coop() && w == old(w) && todo != listed ==> w.seed.backups.deleting != {}
        {
          var name :| name in todo;
          MarkedSetStep(old(w).seed.backups, listed - todo, name);
          assert listed - (todo - {name}) == (listed - todo) + {name};
          todo := todo - {name};
          ghost var u := w;
          err := DeleteBackup(name);
          CalmlyTransitive(cfg, Coop(), old(w), u, w);
          CalmlyKeeps(cfg, Coop(), old(w), w);
          if err {
            return;
          }
        }
        return false;
      }
      FreeDropOk(cfg, sense, start, w, ledger, BackupConfigCleanup);
      ghost var u := w;
      err := TryRemoveFinalizer({BackupConfigCleanup});
      CalmlyTransitive(cfg, Coop(), old(w), u, w);
    }

    // ---------- constraints ----------

    method DeleteAllConstraints() returns (err: bool)
      requires Valid()
      modifies `w, `tick
      ensures Valid() && Calmly(cfg, Coop(), old(w), w) && (Coop() ==> !err)
      ensures Quiet(script) ==>
                !err && w == old(w).(seed := old(w).seed.(constraints := MarkedAll(old(w).seed.constraints)))
    {
      hide WellFormed, HistoryOk, BookOk, LedgerOk, MovesOn, SameAnnotation;
      var o := Call();
      if o.FailsBefore? {
        return true;
      }
      ghost var u := w;
      MarkedAllWeight(w.seed.constraints);
      SeedStep(cfg, w, w.seed.(constraints := MarkedAll(w.seed.constraints)));
      Effect(w.(seed := w.seed.(constraints := MarkedAll(w.seed.constraints))));
      CalmlyTransitive(cfg, Coop(), old(w), u, w);
      err := o.FailsAfter?;
    }

    /** Takes the gatekeeper finalizer off one constraint; a constraint that is gone is fine. */
    method ReleaseConstraint(name: string) returns (err: bool)
      requires Valid()
      modifies `w, `tick
      ensures Valid() && Calmly(cfg, Coop(), old(w), w) && (Coop() ==> !err)
      ensures !err ==> name !in w.seed.gatekeeper
      ensures Quiet(script) ==>
                !err && w == old(w).(seed := old(w).seed.(gatekeeper := old(w).seed.gatekeeper - {name}))
    {
      hide WellFormed, HistoryOk, BookOk, LedgerOk, MovesOn, SameAnnotation;
      var o := Call();
      if o.FailsBefore? {
        return true;
      }
      ghost var u := w;
      Fewer(w.seed.gatekeeper - {name}, w.seed.gatekeeper);
      SeedStep(cfg, w, w.seed.(gatekeeper := w.seed.gatekeeper - {name}));
      Effect(w.(seed := w.seed.(gatekeeper := w.seed.gatekeeper - {name})));
      CalmlyTransitive(cfg, Coop(), old(w), u, w);
      err := o.FailsAfter?;
    }

    /** Deletes all constraints and takes the gatekeeper finalizer off every one listed. */
    method DrainConstraints() returns (err: bool)
      requires Valid()
      modifies `w, `tick
      ensures Valid() && Calmly(cfg, Coop(), old(w), w) && (Coop() ==> !err)
      ensures Quiet(script) ==>
                !err && w == old(w).(seed := Drained(old(w).seed))
    {
      hide WellFormed, HistoryOk, BookOk, LedgerOk, Calmly;
      err := DeleteAllConstraints();
      if err {
        return;
      }
      ghost var u := w;
      var o := Call();
      CalmlyTransitive(cfg, Coop(), old(w), u, w);
      if !o.Succeeds? {
        return true;
      }
      var listed := w.seed.constraints.Names();
      var todo := listed;
      while todo != {}
        invariant Valid() && Calmly(cfg, Coop(), old(w), w) && todo <= listed
        invariant Quiet(script) ==>
                    w == old(w).(seed := old(w).seed.(constraints := MarkedAll(old(w).seed.constraints),
                                                      gatekeeper := old(w).seed.gatekeeper - (listed - todo)))
      {
        var name :| name in todo;
        assert listed - (todo - {name}) == (listed - todo) + {name};
        todo := todo - {name};
        u := w;
        err := ReleaseConstraint(name);
        CalmlyTransitive(cfg, Coop(), old(w), u, w);
        if err {
          return;
        }
      }
      err := false;
    }

    method CleanupConstraints() returns (err: bool)
      requires Valid() && CopyOk()
      modifies `w, `tick, `cluster, `base, `log
      ensures Valid() && NotesOk() && Calmly(cfg, Coop(), old(w), w) && (!err ==> CopyOk())
      ensures old(Uniform(w.store) && InSync()) ==> InSync()
      ensures !err && cfg.namespace != "" ==> ConstraintCleanup !in Held(w)
      ensures Coop() && old(Fresh()) && w == old(w) ==> !err && Fresh()
      ensures Quiet(script) && old(Fresh()) && cfg.namespace != "" && ConstraintCleanup in Held(old(w)) ==>
                !err && ConstraintsHandled(old(w), w)
      ensures Quiet(script) && old(Fresh()) && ConstraintsDone(cfg, old(w)) ==>
                !err && Fresh() && w == if cfg.namespace == "" then old(w) else old(w).(seed := Drained(old(w).seed))
    {
      hide WellFormed, HistoryOk, BookOk, LedgerOk, Calmly, DropOk, Normal, Records, Uniform;
      CalmlyReflexive(cfg, Coop(), w);
      if cfg.namespace == "" {
        return false;
      }
      err := DrainConstraints();
      CalmlyKeeps(cfg, Coop(), old(w), w);
      if old(Uniform(w.store)) { UniformIn(cfg, old(w), w); }
      if err {
        return;
      }
      FreeDropOk(cfg, sense, start, w, ledger, ConstraintCleanup);
      ghost var u := w;
      err := TryRemoveFinalizer({ConstraintCleanup});
      CalmlyTransitive(cfg, Coop(), old(w), u, w);
    }

    method CleanupClusterRoleBindings() returns (err: bool)
      requires Valid() && CopyOk() && InClusterDone(w)
      modifies `w, `tick, `cluster, `base, `log
      ensures Valid() && NotesOk() && Calmly(cfg, Coop(), old(w), w) && (!err ==> CopyOk())
      ensures !err ==> RoleBindingCleanup !in Held(w)
      ensures Coop() && old(Fresh()) && w == old(w) ==> !err && Fresh()
      ensures Quiet(script) ==> Removed(old(w), w, {RoleBindingCleanup}, err)
                                && CopyServed(old(w), old(cluster), {RoleBindingCleanup}, w, cluster)
    {
      FreeDropOk(cfg, sense, start, w, ledger, RoleBindingCleanup);
      err := TryRemoveFinalizer({RoleBindingCleanup});
    }

    // ---------- credentials ----------

    method DeleteSecretIfAny() returns (err: bool)
      requires Valid() && Held(w) <= {CredentialsCleanup}
      modifies `w, `tick, `log
      ensures Valid() && Calmly(cfg, Coop(), old(w), w) && Held(w) <= {CredentialsCleanup}
      ensures !err ==> cfg.secretName == "" || !w.seed.secret
      ensures Quiet(script) ==>
                !err && w == old(w).(seed := old(w).seed.(secret := cfg.secretName == "" && old(w).seed.secret))
      ensures Coop() && w == old(w) ==> !err
    {
      hide WellFormed, HistoryOk, BookOk, LedgerOk, MovesOn, SameAnnotation;
      CalmlyReflexive(cfg, Coop(), w);
      if cfg.secretName == "" {
        return false;
      }
      var o := Call();
      if !o.Succeeds? {
        return true;
      }
      if !w.seed.secret {
        return false;
      }
      ghost var u := w;
      o := Call();
      CalmlyTransitive(cfg, Coop(), old(w), u, w);
      if o.FailsBefore? || !w.seed.secret {
        return true;
      }
      u := w;
      SeedStep(cfg, w, w.seed.(secret := false));
      Perform(w.(seed := w.seed.(secret := false)), DeleteSecret);
      CalmlyTransitive(cfg, Coop(), old(w), u, w);
      err := o.FailsAfter?;
    }

    method CleanUpCredentialsSecrets() returns (err: bool)
      requires Valid() && CopyOk() && cluster.finalizers == {CredentialsCleanup}
      modifies `w, `tick, `cluster, `base, `log
      ensures Valid() && NotesOk() && Calmly(cfg, Coop(), old(w), w)
      ensures !err ==> CredentialsCleanup !in Held(w)
      ensures Quiet(script) && old(Fresh()) ==> !err && Held(w) == {}
      ensures Quiet(script) && old(w.store.cached < Last(w.store)) ==> w.store == old(w).store
      ensures Quiet(script) ==> w == old(w).(store := w.store, seed := old(w).seed.(secret := w.seed.secret))
      ensures Coop() && old(Fresh()) && w == old(w) ==> !err
    {
      hide WellFormed, HistoryOk, BookOk, LedgerOk, MovesOn, SameAnnotation, Normal, Records;
      err := DeleteSecretIfAny();
      if err {
        return;
      }
      ghost var u := w;
      err := TryRemoveFinalizer({CredentialsCleanup});
      CalmlyTransitive(cfg, Coop(), old(w), u, w);
    }

    // ---------- volumes ----------

    /** Puts the webhook in place that lets no claim or volume be created any more. */
    method DisablePVCreation() returns (err: bool)
      requires Valid()
      modifies `w, `tick
      ensures Kept(w.store) == Kept(old(w).store)
      ensures Valid() && Calmly(cfg, Coop(), old(w), w) && (Coop() ==> !err)
      ensures !err ==> w.storage.webhook
      ensures Quiet(script) ==> w == old(w).(storage := old(w).storage.(webhook := true))
    {
      hide Kept, WellFormed, HistoryOk, BookOk, LedgerOk, MovesOn, SameAnnotation;
      var o := Call();
      if o.FailsBefore? {
        return true;
      }
      ghost var u := w;
      StorageStep(cfg, w, w.storage.(webhook := true));
      Effect(w.(storage := w.storage.(webhook := true)));
      CalmlyTransitive(cfg, Coop(), old(w), u, w);
      err := o.FailsAfter?;
    }

    method DeletePod(name: string) returns (err: bool)
      requires Valid()
      modifies `w, `tick
      ensures Kept(w.store) == Kept(old(w).store)
      ensures Valid() && Calmly(cfg, Coop(), old(w), w) && (Coop() ==> !err)
      ensures Quiet(script) ==> w == old(w).(storage := old(w).storage.(pods := Marked(old(w).storage.pods, name)))
    {
      hide Kept, WellFormed, HistoryOk, BookOk, LedgerOk, MovesOn, SameAnnotation;
      var o := Call();
      if o.FailsBefore? {
        return true;
      }
      ghost var u := w;
      MarkedWeight(w.storage.pods, name);
      StorageStep(cfg, w, w.storage.(pods := Marked(w.storage.pods, name)));
      Effect(w.(storage := w.storage.(pods := Marked(w.storage.pods, name))));
      CalmlyTransitive(cfg, Coop(), old(w), u, w);
      err := o.FailsAfter?;
    }

    /** Deletes the pods that mount a claim and no others. */
    method CleanupPVCUsingPods() returns (err: bool)
      requires Valid()
      modifies `w, `tick
      ensures Kept(w.store) == Kept(old(w).store)
      ensures Valid() && Calmly(cfg, Coop(), old(w), w) && (Coop() ==> !err)
      ensures Quiet(script) ==>
                var s := old(w).storage; w == old(w).(storage := s.(pods := MarkedSet(s.pods, s.claiming)))
    {
      hide Kept, WellFormed, HistoryOk, BookOk, LedgerOk, Calmly;
      var o := Call();
      if !o.Succeeds? {
        return true;
      }
      var listed := w.storage.pods.Names() * w.storage.claiming;
      var todo := listed;
      assert MarkedSet(w.storage.pods, {}) == w.storage.pods;
      while todo != {}
        invariant Kept(w.store) == Kept(old(w).store)
        invariant Valid() && Calmly(cfg, Coop(), old(w), w) && todo <= listed
        invariant Quiet(script) ==>
                    w == old(w).(storage := old(w).storage.(pods := MarkedSet(old(w).storage.pods, listed - todo)))
      {
        var name :| name in todo;
        assert listed - (todo - {name}) == (listed - todo) + {name};
        todo := todo - {name};
        ghost var u := w;
        err := DeletePod(name);
        CalmlyTransitive(cfg, Coop(), old(w), u, w);
        if err {
          return;
        }
      }
      assert MarkedSet(old(w).storage.pods, listed) == MarkedSet(old(w).storage.pods, old(w).storage.claiming)
        || listed != old(w).storage.pods.Names() * old(w).storage.claiming;
      err := false;
    }

    method DeleteClaim(name: string) returns (err: bool)
      requires Valid() && ConstraintsDone(cfg, w)
      modifies `w, `tick
      ensures Kept(w.store) == Kept(old(w).store)
      ensures Valid() && Calmly(cfg, Coop(), old(w), w) && (Coop() ==> !err)
      ensures !err ==> name !in w.storage.claims.live
      ensures Coop() && w == old(w) && name in w.storage.claims.Names() ==> name in w.storage.claims.deleting
      ensures Quiet(script) ==> w == old(w).(storage := old(w).storage.(claims := Marked(old(w).storage.claims, name)))
    {
      hide Kept, WellFormed, HistoryOk, BookOk, LedgerOk, MovesOn, SameAnnotation;
      var o := Call();
      if o.FailsBefore? {
        return true;
      }
      ghost var u := w;
      CalmlyKeeps(cfg, Coop(), old(w), w);
      MarkClaim(cfg, w, name);
      Effect(w.(storage := w.storage.(claims := Marked(w.storage.claims, name))));
      CalmlyTransitive(cfg, Coop(), old(w), u, w);
      err := o.FailsAfter?;
    }

    method DeleteClaims(listed: set<string>) returns (err: bool)
      requires Valid() && ConstraintsDone(cfg, w)
      modifies `w, `tick
      ensures Kept(w.store) == Kept(old(w).store)
      ensures Valid() && Calmly(cfg, Coop(), old(w), w) && (Coop() ==> !err)
      ensures !err && old(w).storage.webhook ==> w.storage.claims.live !! listed
      ensures Coop() && w == old(w) && listed != {} && listed <= w.storage.claims.Names() ==>
                w.storage.claims.deleting != {}
      ensures Quiet(script) ==>
                w == old(w).(storage := old(w).storage.(claims := MarkedSet(old(w).storage.claims, listed)))
    {
      hide Kept, WellFormed, HistoryOk, BookOk, LedgerOk, Calmly;
      CalmlyReflexive(cfg, Coop(), w);
      var todo := listed;
      MarkedSetStep(w.storage.claims, {}, "");
      while todo != {}
        invariant Kept(w.store) == Kept(old(w).store)
        invariant Valid() && ConstraintsDone(cfg, w)
        invariant old(w).storage.webhook ==> w.storage.webhook && w.storage.claims.live !! listed - todo
        invariant Quiet(script) ==>
                    w == old(w).(storage := old(w).storage.(claims := MarkedSet(old(w).storage.claims, listed - todo)))
        invariant Calmly(cfg, Coop(), old(w), w) && todo <= listed
        invariant Coop() && w == old(w) && todo != listed && listed <= w.storage.claims.Names() ==>
                    w.storage.claims.deleting != {}
      {
        var name :| name in todo;
        MarkedSetStep(old(w).storage.claims, listed - todo, name);
        assert listed - (todo - {name}) == (listed - todo) + {name};
        todo := todo - {name};
        ghost var u := w;
        err := DeleteClaim(name);
        CalmlyTransitive(cfg, Coop(), old(w), u, w);
        CalmlyKeeps(cfg, Coop(), u, w);
        ClaimsShrink(u, w);
        if err {
          return;
        }
      }
      err := false;
    }

    /** The dynamically provisioned volumes that their provisioner still has to delete. */
    method FilterManaged(all: set<Volume>) returns (managed: set<Volume>)
      ensures managed == Managed(all)
      ensures forall v :: v in managed <==> v in all && v.provisionedBy != "" && v.policy == Delete
    {
      managed := {};
      var todo := all;
      while todo != {}
        invariant todo <= all && managed == Managed(all - todo)
      {
        var v :| v in todo;
        if v.provisionedBy != "" && v.policy == Delete {
          managed := managed + {v};
        }
        todo := todo - {v};
      }
    }

    /** Without error, `some` is false only when no claim and no managed volume is left and none can be created. */
    method CleanupVolumes() returns (some: bool, err: bool)
      requires Valid() && ConstraintsDone(cfg, w)
      modifies `w, `tick
      ensures Kept(w.store) == Kept(old(w).store)
      ensures Valid() && Calmly(cfg, Coop(), old(w), w)
      ensures !err ==> ClaimsDoomed(w.storage)
      ensures !err && !some ==> NoClaims(w.storage) && NoVolumes(w.storage)
      ensures Coop() && w == old(w) ==> !err && (some ==> Outstanding(cfg, w))
      ensures Quiet(script) ==> !err && VolumesHandled(old(w), w, some)
    {
      hide Kept, WellFormed, HistoryOk, BookOk, LedgerOk, Calmly, Managed, Steady;
      some := false;
      QuietCooperates(script);
      MarkedSetStep(w.storage.claims, {}, "");
      err := DisablePVCreation();
      if err {
        return;
      }
      ghost var u := w;
      var o := Call();
      CalmlyTransitive(cfg, Coop(), old(w), u, w);
      CalmlyKeeps(cfg, Coop(), u, w);
      ClaimsShrink(u, w);
      if !o.Succeeds? {
        return false, true;
      }
      var claims := w.storage.claims.Names();
      u := w;
      o := Call();
      CalmlyTransitive(cfg, Coop(), old(w), u, w);
      CalmlyKeeps(cfg, Coop(), u, w);
      ClaimsShrink(u, w);
      if !o.Succeeds? {
        return false, true;
      }
      var managed := FilterManaged(w.storage.volumes);
      if claims == {} && managed == {} {
        return false, false;
      }
      u := w;
      err := CleanupPVCUsingPods();
      CalmlyTransitive(cfg, Coop(), old(w), u, w);
      CalmlyKeeps(cfg, Coop(), u, w);
      ClaimsShrink(u, w);
      if err {
        return false, true;
      }
      u := w;
      CalmlyKeeps(cfg, Coop(), old(w), w);
      err := DeleteClaims(claims);
      CalmlyTransitive(cfg, Coop(), old(w), u, w);
      CalmlyKeeps(cfg, Coop(), u, w);
      ClaimsShrink(u, w);
      some := claims != {} || managed != {};
    }

    // ---------- load balancers ----------

    /** Patches the annotation from the copy's value to `to`; the answer refreshes the copy. `u` is the world it met. */
    method Patch(to: string) returns (err: bool, ghost u: World)
      requires Valid() && NotesOk() && Normal(to) && Records(to, ledger)
      modifies `w, `tick, `cluster, `base
      ensures Kept(w.store) == Kept(old(w).store)
      ensures Valid() && NotesOk() && Steady(old(w), w)
      ensures WellFormed(u) && Calmly(cfg, Coop(), old(w), u) && LedgerOk(u, ledger)
      ensures Coop() ==> ServicesShrink(old(w), u) && forall aside :: MovesOn(cfg, old(w), u, aside)
      ensures !err ==> w == u.(store := Patched(u.store, old(cluster.annotation), to)) && cluster == Current(w.store)
                       && CopyOk() && !Gone(u.store)
      ensures Coop() && err ==> Gone(u.store) && w == u
      ensures Quiet(script) ==> u == old(w)
      ensures script(old(tick)) == Turn([], FailsBefore) ==> err && w == old(w)
      ensures script(old(tick)).events == [] ==> u == old(w)
      ensures script(old(tick)) == Turn([], FailsAfter) && !Gone(old(w).store) ==>
                err && w == u.(store := Patched(u.store, old(cluster.annotation), to))
      ensures script(old(tick)).outcome.Succeeds? && !Gone(u.store) ==> !err
      ensures tick == old(tick) + 1
    {
      hide Normal, Parse, MovesOn, HistoryOk, BookOk, LedgerOk, Records, SameAnnotation, BalancersSteady, FleetSteady,
           StorageSteady;
      var o := Call();
      u := w;
      if o.FailsBefore? || Gone(w.store) {
        return true, u;
      }
      var next := w.(store := Patched(w.store, cluster.annotation, to));
      PatchedOk(w, cluster.annotation, to, ledger);
      HistoryStable(cfg, sense, start, log, w, next);
      SteadyTransitive(old(w), w, next);
      Bounds(next);
      w := next;
      if o.FailsAfter? {
        return true, u;
      }
      CachedRecords(w, ledger);
      StoredNormal(w, Last(w.store));
      cluster, base := Current(w.store), Last(w.store);
      err := false;
    }

    /** Polls until the lister serves a version whose annotation contains the UID, or gives up. */
    method AwaitLister(uid: string) returns (err: bool)
      requires Valid() && IsUid(uid)
      modifies `w, `tick
      ensures Kept(w.store) == Kept(old(w).store)
      ensures Valid() && Calmly(cfg, Coop(), old(w), w)
      ensures !err ==> uid in Parse(w.store.versions[w.store.cached].annotation)
      ensures Coop() ==> ServicesShrink(old(w), w)
      ensures Coop() && w == old(w) && uid in Parse(w.store.versions[w.store.cached].annotation) && !Gone(w.store) ==>
                !err
      ensures Quiet(script) ==> w == old(w)
      ensures Quiet(script) && !(w.store.cached == Last(w.store) && Gone(w.store)) ==>
                if uid in Parse(w.store.versions[w.store.cached].annotation) then !err && tick == old(tick) + 1
                else err && tick == old(tick) + 500
      ensures script(old(tick)) == Turn([], FailsBefore) ==> err && w == old(w)
    {
      hide Kept, Normal, Parse, Calmly, HistoryOk, BookOk, LedgerOk, IsUid, WellFormed;
      CalmlyReflexive(cfg, Coop(), w);
      for i := 0 to POLLS
        invariant Quiet(script) ==> w == old(w)
        invariant tick == old(tick) + i && (i == 0 ==> w == old(w))
        invariant i > 0 ==> script(old(tick)) != Turn([], FailsBefore)
        invariant i > 0 && Quiet(script) && !(w.store.cached == Last(w.store) && Gone(w.store)) ==>
                    uid !in Parse(w.store.versions[w.store.cached].annotation)
        invariant Kept(w.store) == Kept(old(w).store)
        invariant Valid() && Calmly(cfg, Coop(), old(w), w) && (Coop() ==> ServicesShrink(old(w), w))
        invariant i > 0 && Coop() && w == old(w) && !Gone(w.store) ==>
                    uid !in Parse(w.store.versions[w.store.cached].annotation)
      {
        ghost var u := w;
        var o := Call();
        CalmlyTransitive(cfg, Coop(), old(w), u, w);
        if !o.Succeeds? || (w.store.cached == Last(w.store) && Gone(w.store)) {
          return true;
        }
        StoredNormal(w, w.store.cached);
        ContainsUid(w.store.versions[w.store.cached].annotation, uid);
        if Contains(w.store.versions[w.store.cached].annotation, uid) {
          return false;
        }
      }
      err := true;
    }

    /** Requests the deletion of a service and enters it in the ledger. */
    method DeleteService(uid: string) returns (err: bool)
      requires Valid() && ConstraintsDone(cfg, w) && uid in w.lb.ofType * w.lb.used
      modifies `w, `tick, `ledger
      ensures Kept(w.store) == Kept(old(w).store)
      ensures Valid() && Calmly(cfg, Coop(), old(w), w)
      ensures ledger == old(ledger) || ledger == Begun(old(ledger), uid)
      ensures !err ==> ledger == Begun(old(ledger), uid) && IsUid(uid)
      ensures Recorded(w.store, old(ledger))
      ensures script(old(tick)) == Turn([], Succeeds) && uid in old(w).lb.services.Names() ==>
                !err && tick == old(tick) + 1 && w == MarkedService(old(w), uid)
      ensures Coop() ==> ServicesShrink(old(w), w) && forall aside :: MovesOn(cfg, old(w), w, aside)
      ensures Coop() && !err ==> uid in old(w).lb.services.Names()
      ensures Coop() && w == old(w) && uid in w.lb.services.Names() ==> !err && uid in w.lb.services.deleting
    {
      hide Kept, Normal, Parse, MovesOn, HistoryOk, BookOk, Records, SameAnnotation, FleetSteady, StorageSteady,
           StoreOk, Recorded, NoClaims, NoVolumes, ConstraintsDone, InClusterDone, Extends, Grown;
      var o := Call();
      if o.FailsBefore? || uid !in w.lb.services.Names() {
        return true;
      }
      ghost var u := w;
      KeepsType(old(w), w, {uid});
      CalmlyKeeps(cfg, Coop(), old(w), w);
      BegunOk(w, ledger, uid);
      LedgerBounds(w, ledger);
      BegunGrows(ledger, uid);
      BookGrows(book, log, ledger, Begun(ledger, uid));
      ledger := Begun(ledger, uid);
      MarkService(cfg, w, uid);
      Effect(MarkedService(w, uid));
      CalmlyTransitive(cfg, Coop(), old(w), u, w);
      if Coop() {
        forall aside ensures MovesOn(cfg, old(w), w, aside) { MovesOnTransitive(cfg, old(w), u, w, aside); }
      }
      err := o.FailsAfter?;
    }

    /** Records the UID of a service just deleted and waits for the lister; `l` is the ledger before. */
    method RecordUid(uid: string, ghost l: Ledger) returns (err: bool, ghost u: World)
      requires Valid() && IsUid(uid) && ledger == Begun(l, uid) && BookOk(book, log, l) && Recorded(w.store, l)
      requires Normal(cluster.annotation) && Records(cluster.annotation, l)
      modifies `w, `tick, `cluster, `base, `ledger
      ensures Kept(w.store) == Kept(old(w).store)
      ensures Valid() && NotesOk() && Steady(old(w), w) && (!err ==> CopyOk() && InSync())
      ensures err ==> ledger == Begun(l, uid)
      ensures !err ==> ledger == Finished(l, uid, true) || ledger == Finished(l, uid, false)
      ensures !err && Lasting(old(w).store, uid) ==> ledger == Finished(l, uid, true)
      ensures !err && old(InSync()) && AllLasting(old(w).store) ==> AllLasting(w.store)
      ensures WellFormed(u) && Calmly(cfg, Coop(), old(w), u) && Bounded(u.store)
      ensures Coop() ==> ServicesShrink(old(w), w) && forall aside :: MovesOn(cfg, old(w), u, aside)
      ensures Coop() && Gone(u.store) ==> err && w == u
      ensures Coop() && !Gone(u.store) ==>
                MovesOn(cfg, WithUid(u, old(cluster.annotation), uid), w, {})
                && (w == WithUid(u, old(cluster.annotation), uid) && HasUid(w.store, w.store.cached, uid) ==>
                      !err && cluster == Current(w.store))
      ensures script(old(tick)) == Turn([], FailsBefore) ==> err && w == old(w)
      ensures old(tick) > 0 && BrokenOff(script, old(tick) - 1) && !Gone(old(w).store) ==>
                err && w == WithUid(old(w), old(cluster.annotation), uid)
      ensures Quiet(script) && !Gone(old(w).store) && HasUid(old(w).store, old(w).store.cached, uid) ==>
                !err && w == WithUid(old(w), old(cluster.annotation), uid)
    {
      hide Kept, Normal, Parse, MovesOn, HistoryOk, BookOk, LedgerOk, WellFormed, Calmly, Recorded, Records, IsUid,
           Encode, Steady, Lasting, Grown, Begun, Finished, NoClaims, NoVolumes, ConstraintsDone, InClusterDone,
           AllLasting;
      ghost var c := w;
      QuietCooperates(script);
      BegunRecords(cluster.annotation, l, uid);
      var from := cluster.annotation;
      var recorded := ParseStringSet(from);
      var to := Encode(recorded + {uid});
      InsertUid(from, uid);
      err, u := Patch(to);
      Bounds(u);
      CalmlyKeeps(cfg, Coop(), c, u);
      LastingStays(cfg, Coop(), c, u, uid);
      AllLastingStays(cfg, Coop(), c, u);
      if err {
        return;
      }
      ghost var d := w;
      PatchedServes(u.store, from, to);
      if from == Current(u.store).annotation { InsertingLasts(u, from, uid); }
      err := AwaitLister(uid);
      CalmlyKeeps(cfg, Coop(), d, w);
      AllLastingStays(cfg, Coop(), d, w);
      SteadyTransitive(c, d, w);
      if err {
        return;
      }
      WaitedOk(cfg, Coop(), c, u, w, from, to, uid, l);
      ghost var sure := Lasting(u.store, uid);
      FinishedGrows(l, uid, sure);
      BookGrows(book, log, l, Finished(l, uid, sure));
      ledger := Finished(l, uid, sure);
    }

    /**
     Deletes a load-balancer service, records its UID in the annotation and waits until the lister has it. Without
     error, every version the lister may serve from now on records it, unless an earlier record of it was overwritten.
     */
    method CleanupLB(uid: string) returns (err: bool)
      requires Valid() && CopyOk() && ConstraintsDone(cfg, w) && uid in w.lb.ofType * w.lb.used
      modifies `w, `tick, `cluster, `base, `ledger
      ensures Kept(w.store) == Kept(old(w).store)
      ensures Valid() && NotesOk() && Steady(old(w), w) && (!err ==> CopyOk())
      ensures Grown(old(ledger), ledger, if err then 1 else 0)
      ensures old(ledger).deleted <= ledger.deleted && (!err ==> uid in ledger.deleted)
      ensures err ==> ledger == old(ledger) || ledger == Begun(old(ledger), uid)
      ensures !err ==> ledger == Finished(old(ledger), uid, true) || ledger == Finished(old(ledger), uid, false)
      ensures !err && Lasting(old(w).store, uid) ==> ledger == Finished(old(ledger), uid, true)
      ensures !err ==> ledger.doubt <= old(ledger).doubt && (Lasting(old(w).store, uid) ==> uid !in ledger.doubt)
      ensures !err ==> InSync()
      ensures !err && old(InSync()) && AllLasting(old(w).store) ==> AllLasting(w.store)
      ensures Coop() && old(InSync()) ==> Moves(cfg, old(w), w)
      ensures Coop() ==> ServicesShrink(old(w), w)
      ensures Coop() && old(Fresh()) && !Gone(old(w).store) && w == old(w) && uid in w.lb.services.Names() ==>
                !err && Fresh() && uid in w.lb.services.deleting
      ensures PatchLost(script, old(tick)) && uid in old(w).lb.services.Names() ==>
                err && ledger == Begun(old(ledger), uid) && w == MarkedService(old(w), uid)
      ensures BrokenOff(script, old(tick)) && uid in old(w).lb.services.Names() && !Gone(old(w).store) ==>
                err && ledger == Begun(old(ledger), uid)
                && w == WithUid(MarkedService(old(w), uid), old(cluster.annotation), uid)
      ensures Quiet(script) && uid in old(w).lb.services.Names() && !Gone(old(w).store)
              && HasUid(old(w).store, old(w).store.cached, uid) ==>
                !err && w == WithUid(MarkedService(old(w), uid), old(cluster.annotation), uid)
    {
      hide Kept, Normal, Parse, MovesOn, HistoryOk, BookOk, LedgerOk, WellFormed, Calmly, Recorded, Records, IsUid,
           Encode, Steady, Lasting, Grown, Begun, Finished, NoClaims, NoVolumes, ConstraintsDone, InClusterDone,
           WithUid, AllLasting;
      ghost var a, l := w, ledger;
      LedgerBounds(w, l);
      GrownReflexive(l);
      BegunGrows(l, uid);
      FinishedGrows(l, uid, true);
      FinishedGrows(l, uid, false);
      BegunRecords(cluster.annotation, l, uid);
      err := DeleteService(uid);
      CalmlyKeeps(cfg, Coop(), a, w);
      LastingStays(cfg, Coop(), a, w, uid);
      AllLastingStays(cfg, Coop(), a, w);
      if err {
        return;
      }
      ghost var c, from := w, cluster.annotation;
      ghost var u: World;
      err, u := RecordUid(uid, l);
      CalmlyKeeps(cfg, Coop(), c, u);
      SteadyTransitive(a, c, w);
      MovesOnTransitive(cfg, a, c, u, {});
      if Coop() && !Gone(u.store) && from == Current(a.store).annotation {
        RecordingMoves(cfg, a, c, u, from, uid);
      }
      MovesOnTransitive(cfg, a, WithUid(u, from, uid), w, {});
    }

    /** Goes through a list of services and cleans up those that are load balancers. */
    method CleanupListed(listed: set<string>, balancers: set<string>) returns (some: bool, err: bool)
      requires Valid() && CopyOk() && ConstraintsDone(cfg, w) && listed * balancers <= w.lb.ofType * w.lb.used
      modifies `w, `tick, `cluster, `base, `ledger
      ensures Kept(w.store) == Kept(old(w).store)
      ensures Valid() && NotesOk() && Steady(old(w), w) && (!err ==> CopyOk())
      ensures Grown(old(ledger), ledger, if err then 1 else 0)
      ensures !err ==> Swept(listed * balancers, {}, ledger, some, old(InSync() && AllLasting(w.store)))
      ensures Coop() && old(InSync()) ==> Moves(cfg, old(w), w) && (!err ==> InSync())
      ensures Coop() && old(Fresh()) && !Gone(old(w).store) && w == old(w) && listed <= w.lb.services.Names() ==>
                !err && Fresh() && (some ==> w.lb.services.deleting != {})
      ensures listed !! balancers ==> !err && !some && w == old(w) && cluster == old(cluster)
    {
      hide Kept, Normal, Parse, MovesOn, HistoryOk, BookOk, LedgerOk, WellFormed, Calmly, Steady, Records, Grown,
           NoClaims, NoVolumes, ConstraintsDone, InClusterDone, Finished, Begun, Lasting, HasUid, WithUid, PatchLost,
           Cooperative, Quiet, AllLasting, BrokenOff, Swept;
      GrownReflexive(ledger);
      SteadyReflexive(w);
      CalmlyReflexive(cfg, Coop(), w);
      CalmlyKeeps(cfg, Coop(), w, w);
      ghost var a, targets, sure := w, listed * balancers, old(InSync() && AllLasting(w.store));
      some := false;
      var todo := listed;
      SweptStart(targets, listed, ledger, sure);
      while todo != {}
        invariant Kept(w.store) == Kept(a.store)
        invariant Valid() && CopyOk() && ConstraintsDone(cfg, w) && Steady(a, w) && todo <= listed
        invariant targets <= w.lb.ofType * w.lb.used && Swept(targets, todo, ledger, some, sure)
        invariant Grown(old(ledger), ledger, 0) && (sure ==> InSync() && AllLasting(w.store))
        invariant Coop() && old(InSync()) ==> Moves(cfg, a, w) && InSync()
        invariant Coop() && old(Fresh()) && !Gone(a.store) && w == a && listed <= w.lb.services.Names() ==>
                    Fresh() && (some ==> w.lb.services.deleting != {})
        invariant listed !! balancers ==> !some && w == a && cluster == old(cluster)
      {
        var uid :| uid in todo;
        ghost var before := todo;
        SweptSkip(targets, todo, uid, ledger, some, sure);
        todo := todo - {uid};
        if uid in balancers {
          ghost var u, l := w, ledger;
          AllLastingAt(u.store, uid);
          err := CleanupLB(uid);
          GrownTransitive(old(ledger), l, ledger, 0, if err then 1 else 0, if err then 1 else 0);
          KeepsType(u, w, targets);
          SteadyKeeps(cfg, u, w);
          SteadyTransitive(a, u, w);
          MovesOnTransitive(cfg, a, u, w, {});
          if err {
            return true, true;
          }
          SweptStep(targets, before, uid, l, ledger, some, sure);
          some := true;
        }
      }
      err := false;
    }

    /** Deletes every load-balancer service; `some` tells whether there was one. */
    method CleanupLBs() returns (some: bool, err: bool)
      requires Valid() && CopyOk() && ConstraintsDone(cfg, w)
      modifies `w, `tick, `cluster, `base, `ledger
      ensures Kept(w.store) == Kept(old(w).store)
      ensures Valid() && NotesOk() && Steady(old(w), w) && (!err ==> CopyOk())
      ensures Grown(old(ledger), ledger, if err then 1 else 0)
      ensures !err ==> BalancersHandled(old(w), w, ledger.deleted, some)
      ensures !err && old(InSync()) && AllLasting(old(w).store) ==> NoneInDoubt(old(w), w, ledger.doubt)
      ensures Coop() && old(InSync()) ==> Moves(cfg, old(w), w) && (!err ==> InSync())
      ensures Coop() && old(Fresh()) && !Gone(old(w).store) && w == old(w) ==>
                !err && Fresh() && (some ==> w.lb.services.deleting != {})
      ensures Quiet(script) && old(w).lb.services.Names() !! old(w).lb.ofType ==>
                !err && !some && w == old(w) && cluster == old(cluster)
    {
      hide Kept, Normal, Parse, MovesOn, HistoryOk, BookOk, LedgerOk, WellFormed, Calmly, Steady, Records, Grown,
           NoClaims, NoVolumes, ConstraintsDone, InClusterDone, BalancersHandled, Cooperative, Quiet, AllLasting,
           NoneInDoubt, Swept;
      GrownReflexive(ledger);
      ghost var a := w;
      var o := Call();
      CalmlyKeeps(cfg, Coop(), a, w);
      AllLastingStays(cfg, Coop(), a, w);
      if !o.Succeeds? {
        return false, true;
      }
      ghost var b := w;
      ghost var sure := InSync() && AllLasting(w.store);
      ServicesUsed(b);
      some, err := CleanupListed(w.lb.services.Names(), w.lb.ofType);
      SteadyTransitive(a, b, w);
      MovesOnTransitive(cfg, a, b, w, {});
      if err {
        return;
      }
      SweptAll(b.lb.services.Names() * b.lb.ofType, ledger, some, sure);
      ListedAll(a, b, w, ledger.deleted, some);
      ListedSure(a, b, w, ledger.doubt);
    }

    /** Looks for the events of the given services; `remaining` are those without one. */
    method SeekEvents(uids: set<string>) returns (remaining: set<string>, err: bool)
      requires Valid() && NotesOk()
      modifies `w, `tick, `ledger
      ensures Kept(w.store) == Kept(old(w).store)
      ensures Valid() && NotesOk() && Calmly(cfg, Coop(), old(w), w)
      ensures remaining <= uids && uids - remaining <= ledger.seen
      ensures ledger == old(ledger).(seen := ledger.seen) && Grown(old(ledger), ledger, 0)
      ensures Coop() ==> !err && (uids - remaining) !! w.lb.services.Names()
      ensures Coop() && w == old(w) ==> remaining == uids - w.lb.events
      ensures Quiet(script) ==> w == old(w)
    {
      hide Kept, Normal, Parse, HistoryOk, BookOk, LedgerOk, WellFormed, Calmly;
      CalmlyReflexive(cfg, Coop(), w);
      remaining := uids;
      var todo := uids;
      while todo != {}
        invariant Kept(w.store) == Kept(old(w).store)
        invariant Valid() && NotesOk() && Calmly(cfg, Coop(), old(w), w) && todo <= uids
        invariant todo <= remaining <= uids && uids - remaining <= ledger.seen
        invariant ledger == old(ledger).(seen := ledger.seen) && Grown(old(ledger), ledger, 0)
        invariant Coop() ==> (uids - remaining) !! w.lb.services.Names()
        invariant Coop() && w == old(w) ==> remaining == uids - (w.lb.events - todo)
        invariant Quiet(script) ==> w == old(w)
      {
        var uid :| uid in todo;
        ghost var u := w;
        var o := Call();
        CalmlyTransitive(cfg, Coop(), old(w), u, w);
        if !o.Succeeds? {
          return remaining, true;
        }
        todo := todo - {uid};
        if uid in w.lb.events {
          remaining := remaining - {uid};
          SeenOk(w, ledger, uid);
          BookGrows(book, log, ledger, ledger.(seen := ledger.seen + {uid}));
          ledger := ledger.(seen := ledger.seen + {uid});
        }
      }
      err := false;
    }

    /**
     Whether all load balancers are known to be gone. In the documented sense, "gone" means that none has to be waited
     for or that every deleted service's event was seen; confirmed UIDs are taken off the annotation either way.
     */
    method CheckIfAllLoadbalancersAreGone() returns (gone: bool, err: bool)
      requires Valid() && CopyOk()
      modifies `w, `tick, `cluster, `base, `ledger
      ensures Kept(w.store) == Kept(old(w).store)
      ensures Valid() && NotesOk() && Steady(old(w), w) && (!err ==> CopyOk())
      ensures ledger == old(ledger).(seen := ledger.seen) && Grown(old(ledger), ledger, 0)
      ensures !err && gone && sense.Documented? ==> BalancersAccounted(cfg, w, ledger)
      ensures Coop() && old(InSync()) ==> Moves(cfg, old(w), w)
      ensures Coop() && old(Fresh()) && !Gone(old(w).store) && w == old(w) ==>
                !err && Fresh() && (gone || Outstanding(cfg, w))
      ensures Quiet(script) && old(Fresh()) && !Gone(old(w).store) ==>
                !err && gone == Verdict(sense, cfg, old(cluster.annotation), old(w)) && w == old(w).(store := w.store)
                && (Parse(old(cluster.annotation)) !! old(w).lb.events || NoWaitDue(cfg, old(w)) ==>
                      w == old(w) && Fresh())
                && (Consults(cfg, old(cluster.annotation), old(w)) ==>
                      Parse(Current(w.store).annotation) == Unconfirmed(old(cluster.annotation), old(w).lb.events))
    {
      hide Kept, Normal, Parse, MovesOn, HistoryOk, BookOk, LedgerOk, WellFormed, Calmly, Encode, Steady,
           BalancersAccounted;
      ghost var a := w;
      CalmlyReflexive(cfg, Coop(), a);
      CalmlyKeeps(cfg, Coop(), a, a);
      var ids := cluster.annotation;
      NonEmptyIds(ids);
      if !NeedsEvents(cfg) || ids == "" || Expired(cfg, w) {
        if ids == "" {
          RetainedRecords(ids, {}, ledger);
          Accounted(cfg, w, ledger);
        }
        if !NeedsEvents(cfg) || Expired(cfg, w) { NoWait(cfg, w, ledger); }
        return true, false;
      }
      var uids := ParseStringSet(ids);
      var remaining;
      remaining, err := SeekEvents(uids);
      CalmlyKeeps(cfg, Coop(), a, w);
      if err {
        return false, true;
      }
      RetainUids(ids, remaining);
      RetainedRecords(ids, remaining, ledger);
      ghost var b := w;
      ghost var u: World;
      err, u := Patch(Encode(remaining));
      CalmlyKeeps(cfg, Coop(), b, u);
      SteadyTransitive(a, b, w);
      MovesOnTransitive(cfg, a, b, u, {});
      if err {
        return false, true;
      }
      if Coop() && ids == Current(a.store).annotation {
        RetainingMoves(cfg, u, ids, remaining);
        MovesOnTransitive(cfg, a, u, w, {});
      }
      gone := FinalAnswer(sense, remaining);
      if gone && sense.Documented? { Accounted(cfg, w, ledger); }
      if !gone && w == a && Coop() && ids == Current(a.store).annotation { WaitOutstanding(cfg, w); }
      QuietCooperates(script);
    }

    // ---------- a pass ----------

    /** Deletes the load balancers and volumes whose finalizers are set; `some` tells whether there was one. */
    method DeleteInClusterObjects(lbs: bool, pvs: bool) returns (some: bool, err: bool)
      requires Valid() && CopyOk() && ConstraintsDone(cfg, w)
      modifies `w, `tick, `cluster, `base, `ledger
      ensures Kept(w.store) == Kept(old(w).store)
      ensures Valid() && NotesOk() && Steady(old(w), w) && (!err ==> CopyOk())
      ensures Grown(old(ledger), ledger, if err then 1 else 0)
      ensures !err && lbs ==> BalancersHandled(old(w), w, ledger.deleted, true)
      ensures !err && pvs ==> ClaimsDoomed(w.storage)
      ensures !err && !some && pvs ==> NoClaims(w.storage) && NoVolumes(w.storage)
      ensures !err && !some && lbs ==> AllGone(old(w), w)
      ensures !err && lbs && old(InSync()) && AllLasting(old(w).store) ==> NoneInDoubt(old(w), w, ledger.doubt)
      ensures Coop() && old(InSync()) ==> Moves(cfg, old(w), w) && (!err ==> InSync())
      ensures Coop() && old(Fresh()) && !Gone(old(w).store) && w == old(w) ==>
                !err && Fresh() && (some ==> Outstanding(cfg, w))
      ensures Quiet(script) && NothingLeft(old(w)) ==> !err && !some && w == old(w) && cluster == old(cluster)
    {
      hide Kept, Normal, Parse, MovesOn, HistoryOk, BookOk, LedgerOk, WellFormed, Calmly, Steady, Records,
           Outstanding, NoClaims, NoVolumes, VolumesHandled, BalancersHandled, AllGone, Cooperative, Quiet, Gone,
           Grown, ConstraintsDone, InClusterDone, AllLasting, NoneInDoubt, NothingLeft, ClaimsDoomed;
      GrownReflexive(ledger);
      ghost var a := w;
      NothingLeftServices(a);
      SteadyReflexive(a);
      CalmlyReflexive(cfg, Coop(), a);
      CalmlyKeeps(cfg, Coop(), a, a);
      some := false;
      if lbs {
        some, err := CleanupLBs();
        SteadyKeeps(cfg, a, w);
        HandledGone(a, w, ledger.deleted, some);
        HandledSome(a, w, ledger.deleted, some);
        if err {
          return;
        }
        ServiceOutstanding(cfg, w);
      }
      if pvs {
        ghost var b := w;
        var more;
        more, err := CleanupVolumes();
        NothingLeftVolumes(b, w, more);
        CalmlyKeeps(cfg, Coop(), b, w);
        SteadyTransitive(a, b, w);
        GoneStays(a, b, w);
        ListedHandled(a, b, w, ledger.deleted);
        ListedSure(a, b, w, ledger.doubt);
        MovesOnTransitive(cfg, a, b, w, {});
        GrownReflexive(ledger);
        GrownTransitive(old(ledger), ledger, ledger, 0, 0, if err then 1 else 0);
        if err {
          return;
        }
        some := some || more;
      }
      err := false;
    }

    /** With nothing left to delete: checks on the load balancers and, if they are gone, removes both finalizers. */
    method ReleaseWhenGone() returns (err: bool)
      requires Valid() && CopyOk() && ConstraintsDone(cfg, w) && (LBCleanup in Held(w) ==> AllGone(start, w))
      requires PVCleanup in Held(w) ==> NoClaims(w.storage) && NoVolumes(w.storage)
      modifies `w, `tick, `cluster, `base, `ledger, `log
      ensures Valid() && NotesOk() && Steady(old(w), w) && (!err ==> CopyOk())
      ensures ledger == old(ledger).(seen := ledger.seen) && Grown(old(ledger), ledger, 0)
      ensures Coop() && old(InSync()) ==> Moves(cfg, old(w), w)
      ensures Coop() && old(Fresh()) && !Gone(old(w).store) && w == old(w) ==>
                !err && Fresh() && (InClusterDone(w) || Outstanding(cfg, w))
      ensures Quiet(script) && old(Fresh()) && LBCleanup in Held(old(w)) ==>
                && w == old(w).(store := w.store)
                && (Consults(cfg, old(cluster.annotation), old(w)) ==>
                      Parse(Current(w.store).annotation) == Unconfirmed(old(cluster.annotation), old(w).lb.events))
                && (Parse(old(cluster.annotation)) !! old(w).lb.events || NoWaitDue(cfg, old(w)) ==>
                      !err && w == if Verdict(sense, cfg, old(cluster.annotation), old(w))
                                   then DroppedFrom(old(w), {LBCleanup, PVCleanup}) else old(w))
    {
      hide Normal, Parse, MovesOn, HistoryOk, BookOk, LedgerOk, WellFormed, Calmly, Steady, Records, DropOk,
           BalancersAccounted, Outstanding, NoClaims, NoVolumes, StorageSteady, Verdict, AllGone, Kept, Grown,
           ConstraintsDone, Quiet, Cooperative, Removed, CopyServed, Consults, Unconfirmed, NoWaitDue, Uniform, Lags;
      ghost var c := w;
      HistorySteady(cfg, sense, start, log, c);
      QuietCooperates(script);
      var gone;
      gone, err := CheckIfAllLoadbalancersAreGone();
      SteadyKeeps(cfg, c, w);
      GoneStays(start, c, w);
      if err || !gone {
        return;
      }
      ghost var d := w;
      InClusterDropOk(cfg, sense, start, w, ledger);
      err := TryRemoveFinalizer({LBCleanup, PVCleanup});
      RemovedStored(d, w, {LBCleanup, PVCleanup}, err);
      CalmlyKeeps(cfg, Coop(), d, w);
      SteadyTransitive(c, d, w);
      MovesOnTransitive(cfg, c, d, w, {});
    }

    /** Deletes load balancers and volumes; with nothing left to delete or to wait for, both finalizers go. */
    method CleanupInClusterResources() returns (err: bool)
      requires Valid() && CopyOk() && ConstraintsDone(cfg, w)
      modifies `w, `tick, `cluster, `base, `ledger, `log
      ensures Valid() && NotesOk() && Steady(old(w), w) && (!err ==> CopyOk())
      ensures Grown(old(ledger), ledger, if err then 1 else 0)
      ensures LBCleanup in Held(old(w)) - Held(w) ==> AllGone(old(w), w)
      ensures !err && LBCleanup in Held(w) ==> BalancersHandled(old(w), w, ledger.deleted, true)
      ensures !err && PVCleanup in Held(w) ==> ClaimsDoomed(w.storage)
      ensures old(Fresh()) && InClusterDone(old(w)) ==> !err && w == old(w) && cluster == old(cluster)
      ensures !err && LBCleanup in Held(w) && old(InSync()) && AllLasting(old(w).store) ==>
                NoneInDoubt(old(w), w, ledger.doubt)
      ensures Coop() && old(InSync()) ==> Moves(cfg, old(w), w)
      ensures Coop() && old(Fresh()) && !Gone(old(w).store) && w == old(w) ==>
                !err && Fresh() && (InClusterDone(w) || Outstanding(cfg, w))
      ensures Quiet(script) && old(Fresh()) && Settled(old(w)) && LBCleanup in Held(old(w)) ==>
                !err && w.lb == old(w).lb
                && (LBCleanup !in Held(w) <==> Verdict(sense, cfg, old(cluster.annotation), old(w)))
      ensures Quiet(script) && old(Fresh()) && NothingLeft(old(w)) && LBCleanup in Held(old(w)) &&
              (!(cfg.aws || cfg.azure || cfg.openstack) || old(w).now > cfg.deletedAt + 7200) ==>
                !err && w == DroppedFrom(old(w), {LBCleanup, PVCleanup})
      ensures Quiet(script) && old(Fresh()) && NothingLeft(old(w)) && LBCleanup in Held(old(w)) ==>
                && w == old(w).(store := w.store)
                && (Consults(cfg, old(cluster.annotation), old(w)) ==>
                      Parse(Current(w.store).annotation) == Unconfirmed(old(cluster.annotation), old(w).lb.events))
    {
      hide Normal, Parse, MovesOn, HistoryOk, BookOk, LedgerOk, WellFormed, Calmly, Steady, Records, DropOk,
           BalancersAccounted, Outstanding, NoClaims, NoVolumes, StorageSteady, Verdict, AllGone, Kept, Grown,
           ConstraintsDone, Quiet, Cooperative, AllLasting, NoneInDoubt, ClaimsDoomed, BalancersHandled, Removed,
           CopyServed, Consults, Unconfirmed, Uniform, Lags;
      GrownReflexive(ledger);
      ghost var a := w;
      SteadyReflexive(a);
      HistorySteady(cfg, sense, start, log, a);
      CalmlyReflexive(cfg, Coop(), a);
      CalmlyKeeps(cfg, Coop(), a, a);
      QuietCooperates(script);
      var lbs := F.HasFinalizer(cluster.finalizers, {LBCleanup});
      var pvs := F.HasFinalizer(cluster.finalizers, {PVCleanup});
      if !lbs && !pvs {
        return false;
      }
      var some;
      some, err := DeleteInClusterObjects(lbs, pvs);
      KeptHeld(a, w);
      SteadyKeeps(cfg, a, w);
      if err || some {
        return;
      }
      ghost var c, l := w, ledger;
      GoneSince(start, a, c);
      NoWaitVerdict(sense, cfg, cluster.annotation, c);
      err := ReleaseWhenGone();
      GrownTransitive(old(ledger), l, ledger, 0, 0, 0);
      GrownTransitive(old(ledger), l, ledger, 0, 0, 1);
      SteadyTransitive(a, c, w);
      SteadyKeeps(cfg, c, w);
      GoneStays(a, c, w);
      ListedHandled(a, c, w, ledger.deleted);
      ClaimsShrink(c, w);
      ListedSure(a, c, w, ledger.doubt);
      MovesOnTransitive(cfg, a, c, w, {});
    }

    /** Role bindings and, when no other finalizer is left, the credentials. */
    method CleanupRest() returns (err: bool)
      requires Valid() && CopyOk() && InClusterDone(w)
      modifies `w, `tick, `cluster, `base, `log
      ensures Valid() && NotesOk() && Calmly(cfg, Coop(), old(w), w)
      ensures !err ==> RoleBindingCleanup !in Held(w)
      ensures Coop() && old(Fresh()) && w == old(w) ==>
                !err && RoleBindingCleanup !in Held(w) && Held(w) != {CredentialsCleanup}
      ensures Quiet(script) && old(cluster == Current(w.store)) ==> EndHandled(old(w), w, err)
    {
      hide Normal, HistoryOk, BookOk, LedgerOk, WellFormed, Calmly, Records, Outstanding, NotesOk, Removed, CopyServed,
           EndHandled;
      ghost var c, before := w, cluster;
      err := CleanupClusterRoleBindings();
      ghost var d := w;
      if Quiet(script) && before == Current(c.store) { RolesEnd(c, d, before, cluster, err); }
      if err || F.HasFinalizer(cluster.finalizers, {NodeDeletion}) {
        return;
      }
      F.HasOnlyExact(cluster.finalizers, CredentialsCleanup);
      if F.HasOnlyFinalizer(cluster.finalizers, CredentialsCleanup) {
        ghost var copy := cluster;
        err := CleanUpCredentialsSecrets();
        CalmlyTransitive(cfg, Coop(), c, d, w);
        CalmlyKeeps(cfg, Coop(), d, w);
        if Quiet(script) && before == Current(c.store) { CredentialsEnd(c, d, before, copy, w, err); }
      }
    }

    /**
     What a pass does once load balancers and volumes are gone. Backup configurations, machines and role bindings do
     not wait for each other.
     */
    method CleanupInfrastructure() returns (err: bool)
      requires Valid() && CopyOk() && InClusterDone(w)
      modifies `w, `tick, `cluster, `base, `log
      ensures Valid() && NotesOk() && Calmly(cfg, Coop(), old(w), w)
      ensures !err ==> RoleBindingCleanup !in Held(w)
      ensures Coop() && old(Fresh()) && ConstraintCleanup !in Held(w) && w == old(w) ==>
                !err && (Outstanding(cfg, w) || Done(w))
      ensures Quiet(script) && old(Fresh()) ==> InfrastructureHandled(old(w), w, err)
    {
      hide Normal, HistoryOk, BookOk, LedgerOk, WellFormed, Calmly, Records, Outstanding, NotesOk, Removed, CopyServed,
           BackupsHandled, NodesHandled, Halfway, InfrastructureHandled, EndHandled;
      ghost var a, quiet, before := w, Quiet(script) && Fresh(), cluster;
      err := CleanupEtcdBackupConfigs();
      CalmlyKeeps(cfg, Coop(), a, w);
      if quiet { BackupsFine(a, w, before, cluster, err); }
      if err {
        return;
      }
      ghost var b := w;
      before := cluster;
      err := CleanupNodes();
      CalmlyTransitive(cfg, Coop(), a, b, w);
      CalmlyKeeps(cfg, Coop(), b, w);
      if quiet { BackupsNodes(a, b, w, before.finalizers, err); }
      if err {
        if quiet { HalfwayEnds(a, w); }
        return;
      }
      ghost var c := w;
      if quiet { NodesFine(b, c, before, cluster); }
      err := CleanupRest();
      CalmlyTransitive(cfg, Coop(), a, c, w);
      if quiet { HalfwayEnded(a, c, w, err); }
    }

    /**
     One pass over a deleting Cluster. Whatever the others do and whichever calls fail, every entry of the log stays
     safe. With a cooperative environment and a fresh copy, a pass does work, waits for others, or finds itself done.
     */
    method CleanupCluster() returns (err: bool, ghost stage: bool)
      requires Valid() && CopyOk()
      modifies `w, `tick, `cluster, `base, `ledger, `log
      ensures Valid() && NotesOk() && Steady(old(w), w)
      ensures Grown(old(ledger), ledger, if stage then 1 else 0) && (stage ==> err)
      ensures !err && LBCleanup in Held(w) && old(Uniform(w.store) && InSync()) ==> NoneInDoubt(old(w), w, ledger.doubt)
      ensures !err && LBCleanup in Held(w) ==> BalancersHandled(old(w), w, ledger.deleted, true)
      ensures !err && PVCleanup in Held(w) ==> ClaimsDoomed(w.storage)
      ensures !err && cfg.namespace != "" ==> ConstraintCleanup !in Held(w)
      ensures Quiet(script) && old(Fresh()) && ConstraintsDone(cfg, old(w)) && InClusterDone(old(w)) ==>
                InfrastructureHandled(old(w), w, err)
      ensures Coop() && old(Uniform(w.store) && InSync()) ==> Moves(cfg, old(w), w)
      ensures Coop() && old(Fresh()) && !Gone(old(w).store) && cfg.namespace != "" && w == old(w) ==>
                !err && (Outstanding(cfg, w) || Done(w))
    {
      hide Normal, Parse, MovesOn, HistoryOk, BookOk, LedgerOk, WellFormed, Calmly, Steady, Records, Outstanding,
           Done, NotesOk, Uniform, Grown, NoneInDoubt, AllLasting, ClaimsDoomed, BalancersHandled,
           InfrastructureHandled;
      GrownReflexive(ledger);
      ghost var a := w;
      stage := false;
      if Fresh() { CaughtUp(w); }
      err := CleanupConstraints();
      CalmlyKeeps(cfg, Coop(), a, w);
      if err {
        return;
      }
      ghost var b := w;
      if Uniform(a.store) { UniformIn(cfg, a, b); }
      UniformLasts(b.store);
      err := CleanupInClusterResources();
      stage := err;
      ListedSure(a, b, w, ledger.doubt);
      ListedHandled(a, b, w, ledger.deleted);
      SteadyTransitive(a, b, w);
      SteadyKeeps(cfg, b, w);
      MovesOnTransitive(cfg, a, b, w, {});
      if err || F.HasAnyFinalizer(cluster.finalizers, {LBCleanup, PVCleanup}) {
        return;
      }
      ghost var c := w;
      NoneLeft(w, cluster.finalizers);
      err := CleanupInfrastructure();
      CalmlyKeeps(cfg, Coop(), c, w);
      SteadyTransitive(a, c, w);
      ListedHandled(a, c, w, ledger.deleted);
      ClaimsShrink(c, w);
      DrainedSame(a, b, w, err);
      MovesOnTransitive(cfg, a, c, w, {});
    }

    // ---------- runs ----------

    /** A run begins anywhere; `book` tells what was deleted and seen before. */
    constructor (cfg: Config, sense: Sense, script: Script, start: World, ghost book: Ledger)
      requires WellFormed(start) && LedgerOk(start, book)
      ensures Valid() && CopyOk() && w == start && ledger == book && log == [] && tick == 0
      ensures this.cfg == cfg && this.sense == sense && this.script == script
      ensures this.start == start && this.book == book
      ensures cluster == start.store.versions[start.store.cached]
    {
      hide Normal, LedgerOk, BalancersOk;
      this.cfg, this.sense, this.script, this.start, this.book := cfg, sense, script, start, book;
      tick, w, base := 0, start, start.store.cached;
      cluster := start.store.versions[start.store.cached];
      ledger, log := book, [];
      CachedRecords(start, book);
    }

    /** A reconciliation: reads the Cluster through the cache and, if it is there, cleans up. */
    method Pass() returns (err: bool, ghost stage: bool)
      requires Valid() && NotesOk()
      modifies `w, `tick, `cluster, `base, `ledger, `log
      ensures Valid() && NotesOk() && Steady(old(w), w)
      ensures Grown(old(ledger), ledger, if stage then 1 else 0) && (stage ==> err)
      ensures !err && LBCleanup in Held(w) && Uniform(old(w).store) ==> NoneInDoubt(old(w), w, ledger.doubt)
      ensures !err && LBCleanup in Held(w) ==> BalancersHandled(old(w), w, ledger.deleted, true)
      ensures !err && PVCleanup in Held(w) ==> ClaimsDoomed(w.storage)
      ensures !err && cfg.namespace != "" ==> ConstraintCleanup !in Held(w)
      ensures Quiet(script) && old(w.store.cached == Last(w.store) && ConstraintsDone(cfg, w) && InClusterDone(w)) ==>
                InfrastructureHandled(old(w), w, err)
      ensures Coop() && Uniform(old(w).store) ==> Moves(cfg, old(w), w)
      ensures Coop() && cfg.namespace != "" && !Outstanding(cfg, old(w)) && !Done(old(w)) ==> w != old(w)
    {
      hide Normal, Parse, MovesOn, HistoryOk, BookOk, LedgerOk, WellFormed, Calmly, Steady, Records, Outstanding,
           NotesOk, Uniform, Grown, NoneInDoubt, ClaimsDoomed, BalancersHandled, InfrastructureHandled;
      ghost var a := w;
      GrownReflexive(ledger);
      var r := Get();
      ghost var b := w;
      CalmlyKeeps(cfg, Coop(), a, b);
      if Uniform(a.store) { UniformIn(cfg, a, b); }
      NothingHeld(a);
      if !Outstanding(cfg, a) {
        Lagging(cfg, a);
        CaughtUp(a);
      }
      err, stage := r.Failed?, false;
      if r.Ok? {
        err, stage := CleanupCluster();
        ListedSure(a, b, w, ledger.doubt);
        ListedHandled(a, b, w, ledger.deleted);
        SteadyTransitive(a, b, w);
        MovesOnTransitive(cfg, a, b, w, {});
      }
    }

    /**
     Any number of passes, with any failures and anybody interfering. The deletion keeps its order, and every guarded
     finalizer that is gone went by a step of the log that was safe at its moment of the run. Every deleted load
     balancer that still exists is in the annotation, stored and served, except for those in doubt. New doubt comes
     from broken-off cleanups, at most one for each of the `stages` failed in-cluster stages. In the documented sense
     the load-balancer finalizer goes only when those not in doubt at that moment are gone or no wait is due.
     */
    method Reconcile(passes: nat) returns (failures: nat, ghost stages: nat)
      requires Valid() && NotesOk()
      modifies `w, `tick, `cluster, `base, `ledger, `log
      ensures Valid() && NotesOk() && Steady(old(w), w)
      ensures Ordered(cfg, start, w) && Complete(start, log, w) && LogOk(cfg, sense, start, log, w)
      ensures stages <= failures <= passes && Grown(old(ledger), ledger, stages) && BookOk(book, log, ledger)
      ensures stages == 0 ==> ledger.broken == old(ledger).broken && ledger.doubt <= old(ledger).doubt
      ensures Remembered(w, ledger, ledger.doubt)
      ensures sense.Documented? && LBCleanup in Held(start) - Held(w) ==>
                exists i: nat :: DroppedAt(log, i, LBCleanup) && Released(cfg, start, log[i], w, log[i].ledger.doubt)
    {
      hide Normal, Parse, Steady, BalancersOk, Ordered, Complete, LogOk, BookOk, Grown, LedgerOk, Released;
      SteadyReflexive(w);
      GrownReflexive(ledger);
      failures, stages := 0, 0;
      for i := 0 to passes
        invariant Valid() && NotesOk() && Steady(old(w), w)
        invariant stages <= failures <= i && Grown(old(ledger), ledger, stages)
      {
        ghost var u, l := w, ledger;
        var err;
        ghost var stage;
        err, stage := Pass();
        SteadyTransitive(old(w), u, w);
        GrownTransitive(old(ledger), l, ledger, stages, if stage then 1 else 0, if stage then stages + 1 else stages);
        failures, stages := if err then failures + 1 else failures, if stage then stages + 1 else stages;
      }
      if stages == 0 { GrownUnbroken(old(ledger), ledger); }
      PendingRemembered(w, book, log, ledger);
      VersionsStill(start, w);
      if sense.Documented? && LBCleanup in Held(start) - Held(w) {
        ghost var i := FinalizerReleased(cfg, start, book, log, w, ledger);
      }
    }

    /** An event between two passes. */
    method Occur(e: Event)
      requires Valid()
      modifies `w
      ensures Valid() && w == Happen(cfg, old(w), e)
      ensures Benign(e) ==> Moves(cfg, old(w), w)
    {
      hide Normal, LedgerOk, HistoryOk, BookOk, MovesOn, Tame;
      HappenAllOk(cfg, w, [e]);
      HappenAllTame(cfg, w, [e]);
      assert HappenAll(cfg, w, [e]) == Happen(cfg, w, e);
      if Benign(e) { BenignMoves(cfg, w, e, {}); }
      var next := Happen(cfg, w, e);
      LedgerStable(w, next, ledger);
      HistoryStable(cfg, sense, start, log, w, next);
      w := next;
    }

    /**
     Deletion comes to an end: whatever the cooperative environment does during and between the passes, as long as it
     brings nearer what is waited for, passes that are served the stored annotation, however stale the rest of the copy,
     finish the controller's part of the work.
     */
    method DeleteToCompletion(idle: World -> Event)
      requires Valid() && NotesOk() && Coop() && cfg.namespace != "" && Finishing(cfg, idle)
      modifies `w, `tick, `cluster, `base, `ledger, `log
      ensures Valid() && Done(w)
    {
      hide Normal, Parse, HistoryOk, BookOk, LedgerOk, WellFormed, Outstanding, Done, NotesOk, Happen, Benign, Weight,
           Cooperative, Uniform, Grown;
      while !Done(w)
        invariant Valid() && NotesOk()
        decreases Weight(cfg, w, {})
      {
        ghost var a := w;
        if Outstanding(cfg, w) {
          Occur(idle(w));
        }
        if Uniform(w.store) {
          ghost var b := w;
          var _, _ := Pass();
          MovesOnTransitive(cfg, a, b, w, {});
        }
        if !Outstanding(cfg, a) {
          Lagging(cfg, a);
          CaughtUp(a);
        }
      }
    }
  }
}
