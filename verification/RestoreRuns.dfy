/** Restores over whole runs: what a restore replaces, when it succeeds, and how it is undone. */
module RestoreRuns {
  import opened Basics
  import opened ChangeLog
  import opened Push
  import opened Replica
  import opened RestoreLoop
  import opened Transactions
  import opened Invariants
  import opened Service
  import opened Safety
  import opened Runs

  /** The event is a worker's restore transaction, and it commits. */
  ghost predicate Restores(y: System, e: Event) {
    && e.Work? && PcOf(y, e.worker).Armed? && e.fate != NotMade
    && OrdersFit(y.db, PcOf(y, e.worker).job, e.ranked, e.order)
    && ExecuteTx(y.db, PcOf(y, e.worker).job, PcOf(y, e.worker).token, e.ranked, e.order).1.Ok?
  }

  /** `items` are exactly the head revisions, each object once. */
  ghost predicate ListsHeads(items: seq<Revision>, t: Tables) {
    && (forall i, j :: 0 <= i < j < |items| ==> items[i].obj != items[j].obj)
    && (forall rev :: rev in items <==> rev.obj in HeadRows(t) && HeadRows(t)[rev.obj] == rev)
  }

  lemma {:induction false} ListedRowsAreHeads(items: seq<Revision>, t: Tables)
    requires TablesOk(t) && ListsRows(items, Latest(Entries(t)))
    ensures ListsHeads(items, t)
  {
    hide Linear, HeadsAreLatest, Latest, HeadRows;
    HeadRowsAreLatest(t);
    LatestIsNewest(Entries(t));
  }

  /** A successful restore leaves the job's row as it was, but for its outcome. */
  lemma {:induction false} RestoreSteps(y: System, e: Event, z: System)
    requires DbOk(y.db) && Restores(y, e) && Moves(y, e, z)
    ensures var pc := PcOf(y, e.worker);
      && Holds(y.db, pc.job, pc.token) && !y.db.jobs[pc.job].cancelRequested && StatusIs(y.db, Maintenance)
      && Logged(y.db.t) && TargetOk(y.db.jobs[pc.job].target, y.db)
      && pc.job in z.db.jobs && RestoreOutcome(y.db, z.db, pc.job)
      && z.db.jobs[pc.job].status == Succeeded
      && z.db.jobs[pc.job].preSnapshot == y.db.jobs[pc.job].preSnapshot
      && z.db.jobs[pc.job].generationAfter == Some(y.db.project.value.generation + 1)
      && z.db.project == Some(Project(Active, y.db.project.value.generation + 1))
  {
    hide DbOk, RestoreItems, WithAbsent, ResolveTarget, HeadRows, Lists, Latest, VisibleAt, RestoredView, CoreOk,
      WrittenObjects, WrittenTombstones;
    DbIsLogged(y.db);
    var pc := PcOf(y, e.worker);
    ExecuteMeaning(y.db, pc.job, pc.token, e.ranked, e.order);
  }

  /** `x` lists exactly the heads of `s`, and was taken from this state of the project. */
  ghost predicate PictureOf(s: State, x: Snapshot) {
    && ListsHeads(x.items, s.t) && x.sequence == s.t.changeSeq
    && s.project.Some? && x.generation == s.project.value.generation
  }

  lemma {:induction false} ArmedWorkerHasPicture(y: System, pc: Pc)
    requires DbOk(y.db) && CoreOk(y.db) && WorkerOk(y.db, pc, y.takenUnder) && pc.HasSnapshot()
    requires Holds(y.db, pc.job, pc.token) && StatusIs(y.db, Maintenance)
    ensures var s := y.db;
      && pc.snapshot in s.snapshots && s.jobs[pc.job].preSnapshot == Some(pc.snapshot)
      && pc.snapshot in y.takenUnder && y.takenUnder[pc.snapshot] == pc.token
      && PictureOf(s, s.snapshots[pc.snapshot])
  {
    hide DbOk, ListsRows, ListsHeads, Latest, Linear, HeadsAreLatest, Closed, IdsBelow;
    ListedRowsAreHeads(y.db.snapshots[pc.snapshot].items, y.db.t);
    JobFacts(y.db, pc.job);
  }

  /** Whenever a restore succeeds, the heads it replaces are exactly those in the job's pre-restore
    * snapshot, and that snapshot was taken under the token the restore ran with. */
  lemma {:induction false} RestoreReplacesItsSnapshot(run: seq<System>, events: seq<Event>, i: nat)
    requires IsRun(run, events) && i < |events| && Restores(run[i], events[i])
    ensures var s := run[i].db; var pc := PcOf(run[i], events[i].worker);
      && pc.Armed? && pc.snapshot in s.snapshots && pc.job in s.jobs && pc.job in run[i + 1].db.jobs
      && run[i + 1].db.jobs[pc.job].status == Succeeded
      && run[i + 1].db.jobs[pc.job].preSnapshot == Some(pc.snapshot)
      && s.jobs[pc.job].lease == Some(pc.token)
      && pc.snapshot in run[i].takenUnder && run[i].takenUnder[pc.snapshot] == pc.token
      && PictureOf(s, s.snapshots[pc.snapshot])
  {
    hide SystemOk, DbOk, CoreOk, RestoreOutcome, Restores, Moves, PictureOf, Starts, WorkerOk;
    RunIsSafe(run, events, i);
    SystemIsDb(run[i]);
    ArmedOf(run[i], events[i]);
    RestoreSteps(run[i], events[i], run[i + 1]);
    WorkerIsOk(run[i], events[i].worker);
    ArmedWorkerHasPicture(run[i], PcOf(run[i], events[i].worker));
  }

  lemma {:induction false} WorkerIsOk(y: System, w: int)
    requires SystemOk(y) && Logged(y.db.t)
    ensures WorkerOk(y.db, PcOf(y, w), y.takenUnder)
  {
  }

  lemma {:induction false} ArmedOf(y: System, e: Event)
    requires Restores(y, e)
    ensures e.Work? && PcOf(y, e.worker).Armed?
  {
  }

  /** In every reachable state a restore succeeds exactly when the caller holds the lease, no
    * cancellation was requested and the project is in maintenance.  In particular it never fails
    * for want of a payload or of its target. */
  lemma {:induction false} RestoreSucceedsExactly(run: seq<System>, events: seq<Event>, i: nat, job: Uuid, token: Uuid,
      ranked: seq<ObjectId>, order: seq<ObjectId>)
    requires IsRun(run, events) && i < |run| && OrdersFit(run[i].db, job, ranked, order)
    ensures var s := run[i].db; var r := ExecuteTx(s, job, token, ranked, order).1;
      && (r.Ok? <==> Holds(s, job, token) && !s.jobs[job].cancelRequested && StatusIs(s, Maintenance))
      && (r.Err? ==> r.error == NotFound || r.error == RestoreCancelled || r.error == ProjectMaintenance)
  {
    hide SystemOk, DbOk, CoreOk, Moves, Lists, Latest, HeadRows, RestoreItems, WithAbsent, ResolveTarget, RestoreOutcome, Starts;
    RunIsSafe(run, events, i);
    SystemIsDb(run[i]);
    var s := run[i].db;
    if Holds(s, job, token) && !s.jobs[job].cancelRequested && StatusIs(s, Maintenance) {
      ExecuteMeaning(s, job, token, ranked, order);
    }
  }

  /** After a restore every object shows what it showed at the target; see `RestoreOutcome`. */
  lemma {:induction false} RestoreShowsItsTarget(run: seq<System>, events: seq<Event>, i: nat)
    requires IsRun(run, events) && i < |events| && Restores(run[i], events[i])
    ensures var s := run[i].db; var pc := PcOf(run[i], events[i].worker);
      && Logged(s.t) && pc.job in s.jobs && TargetOk(s.jobs[pc.job].target, s)
      && RestoreOutcome(s, run[i + 1].db, pc.job)
  {
    hide SystemOk, DbOk, CoreOk, Restores, RestoreOutcome, Starts;
    RunIsSafe(run, events, i);
    SystemIsDb(run[i]);
    RestoreSteps(run[i], events[i], run[i + 1]);
  }

  /** `after` shows `before` again: the objects of `before` as they were, all others deleted. */
  ghost predicate Undone(before: map<ObjectId, Visible>, after: map<ObjectId, Visible>) {
    && (forall o :: o in before ==> o in after && after[o] == before[o])
    && (forall o :: o in after && o !in before ==> after[o] == Visible(true, None, None))
  }

  lemma {:induction false} RestoredViewUndoes(past: seq<Revision>, log: seq<Revision>)
    requires past <= log
    ensures Undone(VisibleAt(past), RestoredView(log, |past|))
  {
    hide Latest;
    assert log[..|past|] == past;
    LatestKeysGrow(log, |past|);
  }

  /** A restore is undone by restoring its pre-restore snapshot, or the sequence just before it,
    * at any later time and whatever happened in between. */
  lemma {:induction false} RestoreIsUndone(run: seq<System>, events: seq<Event>, i: nat, j: nat)
    requires IsRun(run, events) && i < j < |events|
    requires Restores(run[i], events[i]) && Restores(run[j], events[j])
    requires var job := PcOf(run[j], events[j].worker).job;
      job in run[j].db.jobs &&
      (|| run[j].db.jobs[job].target == SnapshotTarget(PcOf(run[i], events[i].worker).snapshot)
       || run[j].db.jobs[job].target == SequenceTarget(run[i].db.t.changeSeq))
    ensures Logged(run[i].db.t) && Logged(run[j + 1].db.t)
    ensures Undone(VisibleAt(Entries(run[i].db.t)), VisibleAt(Entries(run[j + 1].db.t)))
  {
    RestoreReplacesItsSnapshot(run, events, i);
    RestoreShowsItsTarget(run, events, j);
    RunGrows(run, events, i, j);
    hide DbOk, Moves, VisibleAt, RestoredView, Undone, Linear, HeadsAreLatest, Closed, IdsBelow, ListsHeads, JobsLater, RowsStay,
      WrittenObjects, WrittenTombstones, Starts, Restores, HeadRows, Latest;
    var s, u := run[i].db, run[j].db;
    var job := PcOf(run[j], events[j].worker).job;
    assert Entries(s.t) <= Entries(u.t) && TargetSequence(u, u.jobs[job].target) == s.t.changeSeq by {
      RestoreHolds(run, events, j);
    }
    RestoredViewUndoes(Entries(s.t), Entries(u.t));
  }

  /** Restoring a ready snapshot and restoring the sequence it was taken at give the same visible
    * state and the same counts. */
  lemma {:induction false} SnapshotOrSequence(s: State, job: Uuid, token: Uuid, x: Uuid,
      order: seq<ObjectId>, ranked: seq<ObjectId>, other: seq<ObjectId>)
    requires DbOk(s) && Holds(s, job, token) && !s.jobs[job].cancelRequested && StatusIs(s, Maintenance)
    requires s.jobs[job].target == SnapshotTarget(x) && x in s.snapshots
    requires OrdersFit(s, job, [], order)
    requires OrdersFit(WithTarget(s, job, SequenceTarget(s.snapshots[x].sequence)), job, ranked, other)
    ensures var u := WithTarget(s, job, SequenceTarget(s.snapshots[x].sequence));
      var a := ExecuteTx(s, job, token, [], order);
      var b := ExecuteTx(u, job, token, ranked, other);
      && a.1.Ok? && b.1.Ok? && Logged(a.0.t) && Logged(b.0.t)
      && VisibleAt(Entries(a.0.t)) == VisibleAt(Entries(b.0.t))
      && job in a.0.jobs && job in b.0.jobs
      && a.0.jobs[job].objects == b.0.jobs[job].objects && a.0.jobs[job].tombstones == b.0.jobs[job].tombstones
  {
    var u := WithTarget(s, job, SequenceTarget(s.snapshots[x].sequence));
    RetargetKeeps(s, job, x);
    hide DbOk, ExecuteTx, Lists, Latest, HeadRows, VisibleAt, RestoredView, WrittenObjects, WrittenTombstones, Linear, HeadsAreLatest,
      Closed, IdsBelow;
    ExecuteMeaning(s, job, token, [], order);
    ExecuteMeaning(u, job, token, ranked, other);
  }

  function WithTarget(s: State, job: Uuid, target: Target): State
    requires job in s.jobs
  {
    s.(jobs := s.jobs[job := s.jobs[job].(target := target)])
  }

  lemma {:induction false} RetargetKeeps(s: State, job: Uuid, x: Uuid)
    requires DbOk(s) && job in s.jobs && x in s.snapshots
    ensures DbOk(WithTarget(s, job, SequenceTarget(s.snapshots[x].sequence)))
  {
    hide Closed, Logged, Linear, HeadsAreLatest, ManifestOk, ListsRows;
    var u := WithTarget(s, job, SequenceTarget(s.snapshots[x].sequence));
    assert Successes(u.jobs) == Successes(s.jobs);
    assert SnapshotOk(s.snapshots[x], Entries(s.t));
  }

  // ---- When the pre-restore snapshot is ready ----

  /** The event is worker `w` marking its snapshot ready, and it commits. */
  ghost predicate Marks(y: System, e: Event, w: int, pc: Pc) {
    && e.Work? && e.worker == w && e.fate != NotMade
    && pc.HasSnapshot() && PcOf(y, w) == Stored(pc.job, pc.token, pc.snapshot)
  }

  /** A worker that is armed has marked its snapshot before. */
  lemma {:induction false} ArmedWorkerMarked(run: seq<System>, events: seq<Event>, j: nat, w: int) returns (i: nat)
    requires IsRun(run, events) && j < |run|
    requires PcOf(run[j], w).Marked? || PcOf(run[j], w).Armed?
    ensures i < j && Marks(run[i], events[i], w, PcOf(run[j], w))
  {
    hide Moves, Marks;
    if j == 0 {
      assert false;
    } else {
      PcComesFrom(run[j - 1], events[j - 1], run[j], w);
      if Marks(run[j - 1], events[j - 1], w, PcOf(run[j], w)) {
        i := j - 1;
      } else {
        i := ArmedWorkerMarked(run, events, j - 1, w);
        MarksSame(run[i], events[i], w, PcOf(run[j - 1], w), PcOf(run[j], w));
      }
    }
  }

  lemma {:induction false} MarksSame(y: System, e: Event, w: int, pc: Pc, other: Pc)
    requires Marks(y, e, w, pc) && pc.HasSnapshot() && other.HasSnapshot()
    requires other.job == pc.job && other.token == pc.token && other.snapshot == pc.snapshot
    ensures Marks(y, e, w, other)
  {
  }

  lemma {:induction false} PcComesFrom(y: System, e: Event, z: System, w: int)
    requires Moves(y, e, z) && (PcOf(z, w).Marked? || PcOf(z, w).Armed?)
    ensures Marks(y, e, w, PcOf(z, w)) ||
      ((PcOf(y, w).Marked? || PcOf(y, w).Armed?)
       && PcOf(y, w).job == PcOf(z, w).job && PcOf(y, w).token == PcOf(z, w).token
       && PcOf(y, w).snapshot == PcOf(z, w).snapshot)
  {
    hide Called, ManifestPageTx, PullTx, ClaimTx, ExecuteTx, CreatePreSnapshotTx, RenewLeaseTx, MarkSnapshotReadyTx,
      CancelWithLeaseTx, RetryTx, HeadRows, Lists, Latest, RecordManifest, PrepareManifest, Received, Apply, OrdersFit, CallFits;
  }

  lemma {:induction false} MarkSettles(y: System, e: Event, w: int, pc: Pc, z: System)
    requires Marks(y, e, w, pc) && Moves(y, e, z) && Holds(y.db, pc.job, pc.token) && pc.snapshot in y.db.snapshots
    ensures pc.snapshot in z.db.snapshots
    ensures z.db.snapshots[pc.snapshot].status == if y.db.snapshots[pc.snapshot].status == Stale then Stale else Ready
  {
    hide OrdersFit;
  }

  /** When a restore succeeds, its worker has marked the pre-restore snapshot ready at some earlier
    * moment, and the snapshot is ready exactly when it had not expired by then. */
  lemma {:induction false} SnapshotIsReadyExactly(run: seq<System>, events: seq<Event>, j: nat) returns (i: nat)
    requires IsRun(run, events) && j < |events| && Restores(run[j], events[j])
    ensures var pc := PcOf(run[j], events[j].worker);
      && i < j && Marks(run[i], events[i], events[j].worker, pc)
      && pc.snapshot in run[i].db.snapshots && pc.snapshot in run[j].db.snapshots
      && (run[j].db.snapshots[pc.snapshot].status == Ready <==> run[i].db.snapshots[pc.snapshot].status != Stale)
  {
    hide Moves, Marks, Restores, DbOk, CoreOk, PictureOf, SystemOk, Later, Starts, Holds;
    ArmedOf(run[j], events[j]);
    var w := events[j].worker;
    var pc := PcOf(run[j], w);
    RestoreReplacesItsSnapshot(run, events, j);
    RestoreHolds(run, events, j);
    i := ArmedWorkerMarked(run, events, j, w);
    MarkedPicture(run, events, i, j, w, pc);
    MarkSettles(run[i], events[i], w, pc, run[i + 1]);
    RunGrows(run, events, i + 1, j);
    SettledStays(run[i + 1].db, run[j].db, pc.snapshot);
  }

  lemma {:induction false} MarkedPicture(run: seq<System>, events: seq<Event>, i: nat, j: nat, w: int, pc: Pc)
    requires IsRun(run, events) && i < j < |run| && i < |events| && Marks(run[i], events[i], w, pc)
    requires Holds(run[j].db, pc.job, pc.token) && StatusIs(run[j].db, Maintenance)
    ensures Moves(run[i], events[i], run[i + 1])
    ensures Holds(run[i].db, pc.job, pc.token) && pc.snapshot in run[i].db.snapshots
  {
    hide Moves, Starts, SystemOk, Later, DbOk, PictureOf;
    RunIsSafe(run, events, i);
    SystemIsDb(run[i]);
    WorkerIsOk(run[i], w);
    RunGrows(run, events, i, j);
    HeldSince(run[i].db, run[j].db, pc.job, pc.token);
    ArmedWorkerHasPicture(run[i], PcOf(run[i], w));
  }

  lemma {:induction false} RestoreHolds(run: seq<System>, events: seq<Event>, j: nat)
    requires IsRun(run, events) && j < |events| && Restores(run[j], events[j])
    ensures var pc := PcOf(run[j], events[j].worker);
      pc.Armed? && Holds(run[j].db, pc.job, pc.token) && StatusIs(run[j].db, Maintenance)
  {
    hide Lists, HeadRows, Latest, Moves, RestoreItems, ResolveTarget, WithAbsent, Starts;
  }
}
