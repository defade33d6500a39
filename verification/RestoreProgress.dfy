/** What a restore worker that is left alone brings about: success, cancellation, or another try.
  *
  * These are statements about consecutive events of a run and the job and project rows they leave;
  * that nothing else happens in between is said by the events being consecutive.
  */
module RestoreProgress {
  import opened Basics
  import opened ChangeLog
  import opened Push
  import opened Replica
  import opened RestoreLoop
  import opened Transactions
  import opened Invariants
  import opened Service
  import opened Safety
  import opened Runs
  import opened RestoreRuns
  import opened JobAnswers

  /** The job row is leased under `token`. */
  predicate Leased(y: System, job: Uuid, token: Uuid) {
    job in y.db.jobs && y.db.jobs[job].status == Running && y.db.jobs[job].lease == Some(token)
  }

  /** The event is an answered call of worker `w`. */
  predicate IsCall(e: Event, w: int) {
    e.Work? && e.worker == w && e.fate == Answered
  }

  /** From event `from` up to `to` there are answered calls of worker `w` and nothing else. */
  predicate LeftAlone(events: seq<Event>, from: nat, to: nat, w: int) {
    from <= to <= |events| && forall i :: from <= i < to ==> IsCall(events[i], w)
  }

  // ---- Cancellation ----

  lemma {:induction false} WorkerSeesCancellation(y: System, e: Event, z: System, w: int)
    requires DbOk(y.db) && Moves(y, e, z) && IsCall(e, w)
    requires PcOf(y, w).Claimed? || PcOf(y, w).Armed?
    requires Leased(y, PcOf(y, w).job, PcOf(y, w).token) && y.db.jobs[PcOf(y, w).job].cancelRequested
    ensures z.db == y.db && PcOf(z, w) == Cancelling(PcOf(y, w).job, PcOf(y, w).token)
  {
    hide RestoreItems, WithAbsent, ResolveTarget, HeadRows, Lists, Latest, InOrder, CoreOk, SnapshotsOk, TargetsOk, BootstrapOk, JobOk;
  }

  /** The row of a cancelled job, and its project out of maintenance. */
  ghost predicate Ended(y: System, u: System, job: Uuid) {
    && job in u.db.jobs && u.db.jobs[job].status == Cancelled && u.db.jobs[job].lease == None
    && y.db.project.Some?
    && u.db.project == Some(if y.db.project.value.status == Maintenance
                            then Project(Active, y.db.project.value.generation) else y.db.project.value)
    && u.db.t == y.db.t
  }

  lemma {:induction false} CancelEnds(s: State, job: Uuid, token: Uuid)
    requires job in s.jobs && s.jobs[job].status == Running && s.jobs[job].lease == Some(token) && s.jobs[job].cancelRequested
    requires s.project.Some?
    ensures var u := CancelWithLeaseTx(s, job, token).0;
      && job in u.jobs && u.jobs[job].status == Cancelled && u.jobs[job].lease == None && u.t == s.t
      && u.project == Some(if s.project.value.status == Maintenance
                           then Project(Active, s.project.value.generation) else s.project.value)
    ensures var u := CancelWithLeaseTx(s, job, token).0;
      u == s.(project := u.project, jobs := s.jobs[job := s.jobs[job].(status := Cancelled, lease := None)])
  {
  }

  lemma {:induction false} WorkerCancels(y: System, e: Event, z: System, w: int)
    requires DbOk(y.db) && Moves(y, e, z) && IsCall(e, w)
    requires PcOf(y, w).Cancelling?
    requires Leased(y, PcOf(y, w).job, PcOf(y, w).token) && y.db.jobs[PcOf(y, w).job].cancelRequested
    ensures Ended(y, z, PcOf(y, w).job) && PcOf(z, w) == Idle
  {
    hide OrdersFit, DbOk, JobOk, CancelWithLeaseTx;
    JobFacts(y.db, PcOf(y, w).job);
    CancelEnds(y.db, PcOf(y, w).job, PcOf(y, w).token);
  }

  /** An accepted cancellation of a running job is completed: when the worker that holds the job is
    * about to take its snapshot or to execute, its next two answered calls leave the job cancelled
    * without a lease, and the project active if it was in maintenance. */
  lemma {:induction false} CancellationCompletes(run: seq<System>, events: seq<Event>, i: nat, w: int)
    requires IsRun(run, events) && LeftAlone(events, i, i + 2, w)
    requires PcOf(run[i], w).Claimed? || PcOf(run[i], w).Armed?
    requires Leased(run[i], PcOf(run[i], w).job, PcOf(run[i], w).token)
    requires run[i].db.jobs[PcOf(run[i], w).job].cancelRequested
    ensures Ended(run[i], run[i + 2], PcOf(run[i], w).job) && PcOf(run[i + 2], w) == Idle
  {
    hide Moves, Starts, DbOk, CoreOk, SystemOk, Ended;
    RunIsSafe(run, events, i);
    SystemIsDb(run[i]);
    WorkerSeesCancellation(run[i], events[i], run[i + 1], w);
    WorkerCancels(run[i + 1], events[i + 1], run[i + 2], w);
    EndedLater(run[i], run[i + 1], run[i + 2], PcOf(run[i], w).job);
  }

  // ---- The way from the snapshot to the restore ----

  predicate OnTheWay(pc: Pc) {
    pc.Snapped? || pc.Renewed? || pc.Stored? || pc.Marked?
  }

  function NextStop(pc: Pc): Pc
    requires OnTheWay(pc)
  {
    match pc
    case Snapped(job, token, x) => Renewed(job, token, x)
    case Renewed(job, token, x) => Stored(job, token, x)
    case Stored(job, token, x) => Marked(job, token, x)
    case Marked(job, token, x) => Armed(job, token, x)
  }

  /** What a call on the way leaves alone. */
  ghost predicate SameCourse(y: System, z: System, job: Uuid, token: Uuid) {
    && Leased(y, job, token) && Leased(z, job, token)
    && z.db.jobs[job].cancelRequested == y.db.jobs[job].cancelRequested
    && z.db.jobs[job].target == y.db.jobs[job].target
    && z.db.jobs[job].preSnapshot == y.db.jobs[job].preSnapshot
    && z.db.project == y.db.project && z.db.t == y.db.t
    && (forall id :: id in y.db.snapshots && y.db.snapshots[id].status == Ready ==>
          id in z.db.snapshots && z.db.snapshots[id] == y.db.snapshots[id])
  }

  lemma {:induction false} RenewalKeepsCourse(y: System, z: System, job: Uuid, token: Uuid)
    requires Leased(y, job, token) && z.db == RenewLeaseTx(y.db, job, token).0
    ensures SameCourse(y, z, job, token) && RenewLeaseTx(y.db, job, token).1.Ok? && z.db.snapshots == y.db.snapshots
  {
  }

  lemma {:induction false} MarkingKeepsCourse(y: System, z: System, job: Uuid, token: Uuid, x: Uuid)
    requires Leased(y, job, token) && z.db == MarkSnapshotReadyTx(y.db, job, token, x)
    ensures SameCourse(y, z, job, token)
    ensures x in y.db.snapshots && y.db.snapshots[x].status == Pending ==>
      x in z.db.snapshots && z.db.snapshots[x].status == Ready
  {
  }

  lemma {:induction false} WorkerAdvances(y: System, e: Event, z: System, w: int)
    requires Moves(y, e, z) && IsCall(e, w) && OnTheWay(PcOf(y, w))
    requires Leased(y, PcOf(y, w).job, PcOf(y, w).token)
    ensures var pc := PcOf(y, w);
      && PcOf(z, w) == NextStop(pc) && SameCourse(y, z, pc.job, pc.token)
      && (pc.Stored? && pc.snapshot in y.db.snapshots && y.db.snapshots[pc.snapshot].status == Pending ==>
            pc.snapshot in z.db.snapshots && z.db.snapshots[pc.snapshot].status == Ready)
      && (!pc.Stored? ==> z.db.snapshots == y.db.snapshots)
  {
    hide OrdersFit, RenewLeaseTx, MarkSnapshotReadyTx;
    match PcOf(y, w)
    case Snapped(job, token, _) => RenewalKeepsCourse(y, y.(db := RenewLeaseTx(y.db, job, token).0), job, token);
    case Renewed(_, _, _) =>
    case Stored(job, token, x) => MarkingKeepsCourse(y, y.(db := MarkSnapshotReadyTx(y.db, job, token, x)), job, token, x);
    case Marked(job, token, _) => RenewalKeepsCourse(y, y.(db := RenewLeaseTx(y.db, job, token).0), job, token);
  }

  lemma {:induction false} CourseThen(y: System, mid: System, z: System, job: Uuid, token: Uuid)
    requires SameCourse(y, mid, job, token) && SameCourse(mid, z, job, token)
    ensures SameCourse(y, z, job, token)
  {
  }

  /** Four answered calls take a worker from its snapshot to the restore, with the snapshot ready. */
  lemma {:induction false} WorkerArms(run: seq<System>, events: seq<Event>, i: nat, w: int)
    requires IsRun(run, events) && LeftAlone(events, i, i + 4, w) && PcOf(run[i], w).Snapped?
    requires Leased(run[i], PcOf(run[i], w).job, PcOf(run[i], w).token)
    ensures var pc := PcOf(run[i], w);
      && PcOf(run[i + 4], w) == Armed(pc.job, pc.token, pc.snapshot)
      && SameCourse(run[i], run[i + 4], pc.job, pc.token)
      && (pc.snapshot in run[i].db.snapshots && run[i].db.snapshots[pc.snapshot].status == Pending ==>
            pc.snapshot in run[i + 4].db.snapshots && run[i + 4].db.snapshots[pc.snapshot].status == Ready)
  {
    hide Moves, Starts;
    var pc := PcOf(run[i], w);
    WorkerAdvances(run[i], events[i], run[i + 1], w);
    WorkerAdvances(run[i + 1], events[i + 1], run[i + 2], w);
    WorkerAdvances(run[i + 2], events[i + 2], run[i + 3], w);
    WorkerAdvances(run[i + 3], events[i + 3], run[i + 4], w);
    CourseThen(run[i], run[i + 1], run[i + 2], pc.job, pc.token);
    CourseThen(run[i], run[i + 2], run[i + 3], pc.job, pc.token);
    CourseThen(run[i], run[i + 3], run[i + 4], pc.job, pc.token);
  }

  /** And a cancellation accepted anywhere on that way is completed by the calls that remain. */
  lemma {:induction false} LateCancellationCompletes(run: seq<System>, events: seq<Event>, i: nat, w: int)
    requires IsRun(run, events) && LeftAlone(events, i, i + 6, w) && PcOf(run[i], w).Snapped?
    requires Leased(run[i], PcOf(run[i], w).job, PcOf(run[i], w).token)
    requires run[i].db.jobs[PcOf(run[i], w).job].cancelRequested
    ensures Ended(run[i], run[i + 6], PcOf(run[i], w).job)
  {
    hide Moves, Starts, Leased;
    var pc := PcOf(run[i], w);
    WorkerArms(run, events, i, w);
    CancellationCompletes(run, events, i + 4, w);
    EndedLater(run[i], run[i + 4], run[i + 6], pc.job);
  }

  lemma {:induction false} EndedLater(y: System, mid: System, u: System, job: Uuid)
    requires Ended(mid, u, job) && mid.db.project == y.db.project && mid.db.t == y.db.t
    ensures Ended(y, u, job)
  {
  }

  // ---- Success ----

  /** The worker's first call leaves it with a pending snapshot of the heads. */
  lemma {:induction false} WorkerTakesSnapshot(y: System, e: Event, z: System, w: int)
    requires DbOk(y.db) && CoreOk(y.db) && Moves(y, e, z) && IsCall(e, w) && PcOf(y, w).Claimed?
    requires Leased(y, PcOf(y, w).job, PcOf(y, w).token) && !y.db.jobs[PcOf(y, w).job].cancelRequested
    ensures var pc := PcOf(y, w); var x := y.db.nextId;
      && PcOf(z, w) == Snapped(pc.job, pc.token, x)
      && Leased(z, pc.job, pc.token) && !z.db.jobs[pc.job].cancelRequested
      && z.db.jobs[pc.job].target == y.db.jobs[pc.job].target && z.db.jobs[pc.job].preSnapshot == Some(x)
      && z.db.project == y.db.project && z.db.t == y.db.t
      && x in z.db.snapshots && z.db.snapshots[x].status == Pending && z.db.snapshots[x].createdAt == y.db.now
      && (forall id :: id in y.db.snapshots && y.db.snapshots[id].status == Ready ==>
            id in z.db.snapshots && z.db.snapshots[id] == y.db.snapshots[id])
  {
    hide HeadRows, Latest, InOrder, SnapshotOk, TargetsOk, BootstrapOk, Linear, Closed, HeadsAreLatest;
    JobFacts(y.db, PcOf(y, w).job);
  }

  /** The worker's last call restores. */
  lemma {:induction false} WorkerRestores(y: System, e: Event, z: System, w: int)
    requires DbOk(y.db) && Moves(y, e, z) && IsCall(e, w) && PcOf(y, w).Armed?
    requires Leased(y, PcOf(y, w).job, PcOf(y, w).token) && !y.db.jobs[PcOf(y, w).job].cancelRequested
    requires InMaintenance(y.db)
    ensures Restores(y, e) && PcOf(z, w) == Idle
  {
    hide DbOk, RestoreItems, WithAbsent, ResolveTarget, HeadRows, Lists, Latest, RestoreOutcome;
    DbIsLogged(y.db);
    var pc := PcOf(y, w);
    ExecuteMeaning(y.db, pc.job, pc.token, e.ranked, e.order);
  }

  /** The restore of `job`, asked for in `s`, was carried out in `u`: the project is active at the next
    * generation, the job has succeeded with its snapshot ready, and its target is visible again. */
  ghost predicate CarriedOut(s: State, u: State, job: Uuid, target: Target)
    requires Logged(s.t)
  {
    && s.project.Some? && u.project == Some(Project(Active, s.project.value.generation + 1))
    && job in u.jobs && u.jobs[job].status == Succeeded
    && u.jobs[job].generationAfter == Some(s.project.value.generation + 1)
    && u.jobs[job].preSnapshot.Some? && u.jobs[job].preSnapshot.value in u.snapshots
    && u.snapshots[u.jobs[job].preSnapshot.value].status == Ready
    && PictureOf(s, u.snapshots[u.jobs[job].preSnapshot.value])
    && TargetOk(target, s) && 0 <= TargetSequence(s, target) <= s.t.changeSeq
    && Logged(u.t) && Entries(s.t) <= Entries(u.t)
    && VisibleAt(Entries(u.t)) == RestoredView(Entries(s.t), TargetSequence(s, target))
  }

  /** From a claimed job six answered calls of its worker carry the restore out. */
  lemma {:induction false} WorkerCarriesOut(run: seq<System>, events: seq<Event>, i: nat, w: int)
    requires IsRun(run, events) && LeftAlone(events, i, i + 6, w) && PcOf(run[i], w).Claimed?
    requires Leased(run[i], PcOf(run[i], w).job, PcOf(run[i], w).token)
    requires !run[i].db.jobs[PcOf(run[i], w).job].cancelRequested && InMaintenance(run[i].db)
    ensures Logged(run[i].db.t)
    ensures CarriedOut(run[i].db, run[i + 6].db, PcOf(run[i], w).job, run[i].db.jobs[PcOf(run[i], w).job].target)
  {
    hide Moves, Starts, SystemOk, DbOk, CoreOk, Restores, CarriedOut, PictureOf, RestoreOutcome;
    var pc := PcOf(run[i], w);
    RunIsSafe(run, events, i);
    SystemIsDb(run[i]);
    WorkerTakesSnapshot(run[i], events[i], run[i + 1], w);
    WorkerArms(run, events, i + 1, w);
    RunIsSafe(run, events, i + 5);
    SystemIsDb(run[i + 5]);
    WorkerRestores(run[i + 5], events[i + 5], run[i + 6], w);
    RestoreReplacesItsSnapshot(run, events, i + 5);
    RestoreSteps(run[i + 5], events[i + 5], run[i + 6]);
    RunGrows(run, events, i + 5, i + 6);
    CarriedOutFrom(run[i].db, run[i + 5].db, run[i + 6].db, pc.job, run[i].db.nextId);
  }

  lemma {:induction false} CarriedOutFrom(s: State, mid: State, u: State, job: Uuid, x: Uuid)
    requires DbOk(s) && DbOk(u) && Logged(s.t) && Logged(mid.t) && job in s.jobs && job in mid.jobs && job in u.jobs
    requires s.project.Some? && mid.project == s.project && mid.t == s.t && mid.jobs[job].target == s.jobs[job].target
    requires ActiveJob(s.jobs[job])
    requires forall id :: id in s.snapshots && s.snapshots[id].status == Ready ==>
      id in mid.snapshots && mid.snapshots[id] == s.snapshots[id]
    requires TargetOk(mid.jobs[job].target, mid) && RestoreOutcome(mid, u, job)
    requires u.jobs[job].status == Succeeded && u.jobs[job].preSnapshot == Some(x)
    requires u.jobs[job].generationAfter == Some(s.project.value.generation + 1)
    requires u.project == Some(Project(Active, s.project.value.generation + 1))
    requires x in mid.snapshots && mid.snapshots[x].status == Ready && PictureOf(mid, mid.snapshots[x])
    requires SnapshotsStay(mid, u)
    ensures CarriedOut(s, u, job, s.jobs[job].target)
  {
    hide SnapshotsOk, BootstrapOk, Linear, HeadsAreLatest, Closed, ListsHeads, VisibleAt, RestoredView, WrittenObjects, WrittenTombstones,
      Latest;
    assert TargetOk(s.jobs[job].target, s);
  }

  /** A claim that is answered gives the worker the lease of a job in maintenance. */
  lemma {:induction false} ClaimGivesLease(y: System, w: int, job: Uuid, z: System)
    requires Moves(y, Claim(w, job, Answered), z)
    requires InMaintenance(y.db) || (IsActive(y.db) && job in y.db.jobs && y.db.jobs[job].status == Queued)
    ensures PcOf(z, w) == Claimed(job, y.db.nextId) && Leased(z, job, y.db.nextId) && InMaintenance(z.db)
    ensures job in y.db.jobs && z.db.jobs[job].cancelRequested == y.db.jobs[job].cancelRequested
    ensures z.db.jobs[job].target == y.db.jobs[job].target
    ensures z.db == y.db.(project := z.db.project, jobs := z.db.jobs, nextId := z.db.nextId)
    ensures z.db.project.value.generation == y.db.project.value.generation
  {
  }

  lemma {:induction false} SameRequest(s: State, t: State, u: State, job: Uuid, target: Target)
    requires Logged(s.t) && Logged(t.t) && CarriedOut(t, u, job, target)
    requires t.t == s.t && t.snapshots == s.snapshots && s.project.Some?
    requires t.project.Some? && t.project.value.generation == s.project.value.generation
    ensures CarriedOut(s, u, job, target)
  {
    hide Linear, Latest, VisibleAt, RestoredView, ListsHeads;
  }

  /** A due job that nobody cancelled, claimed by a worker whose calls are all answered and not
    * interrupted, is carried out within six of them: on its first attempt, on a retry, or after
    * another worker's lease ran out. */
  lemma {:induction false} ClaimedRestoreIsCarriedOut(run: seq<System>, events: seq<Event>, i: nat, w: int, job: Uuid)
    requires IsRun(run, events) && i < |events| && events[i] == Claim(w, job, Answered) && LeftAlone(events, i + 1, i + 7, w)
    requires job in run[i].db.jobs && !run[i].db.jobs[job].cancelRequested
    requires InMaintenance(run[i].db) || (IsActive(run[i].db) && run[i].db.jobs[job].status == Queued)
    ensures Logged(run[i].db.t) && CarriedOut(run[i].db, run[i + 7].db, job, run[i].db.jobs[job].target)
  {
    hide Moves, Starts, SystemOk, DbOk, CoreOk, CarriedOut;
    RunIsSafe(run, events, i);
    SystemIsDb(run[i]);
    RunIsSafe(run, events, i + 1);
    SystemIsDb(run[i + 1]);
    ClaimGivesLease(run[i], w, job, run[i + 1]);
    WorkerCarriesOut(run, events, i + 1, w);
    SameRequest(run[i].db, run[i + 1].db, run[i + 7].db, job, run[i].db.jobs[job].target);
  }

  lemma {:induction false} RequestQueues(y: System, target: Target, z: System)
    requires Moves(y, Calls(Enqueue(target)), z) || Moves(y, Calls(AdminEnqueue(target)), z)
    requires IsActive(y.db) && NoRestore(y.db) && TargetExists(y.db, target)
    ensures var job := y.db.nextId;
      && job in z.db.jobs && z.db.jobs[job].status == Queued && !z.db.jobs[job].cancelRequested
      && z.db.jobs[job].target == target && z.db.jobs[job].runAfter == y.db.now
      && z.db == y.db.(jobs := z.db.jobs, nextId := z.db.nextId)
  {
    hide EnqueueTx, AdminEnqueueTx;
    RestoreIsAcceptedExactly(y.db, target);
  }

  /** A request for a restore of an active project that has no other one, to a target that exists, is
    * carried out when a worker takes it up and is left alone: a request, a claim and six calls. */
  lemma {:induction false} RequestedRestoreIsCarriedOut(run: seq<System>, events: seq<Event>, i: nat, w: int, target: Target)
    requires IsRun(run, events) && i + 1 < |events|
    requires events[i] == Calls(Enqueue(target)) || events[i] == Calls(AdminEnqueue(target))
    requires events[i + 1] == Claim(w, run[i].db.nextId, Answered) && LeftAlone(events, i + 2, i + 8, w)
    requires IsActive(run[i].db) && NoRestore(run[i].db) && TargetExists(run[i].db, target)
    ensures Logged(run[i].db.t) && CarriedOut(run[i].db, run[i + 8].db, run[i].db.nextId, target)
  {
    hide Moves, Starts, SystemOk, DbOk, CoreOk, CarriedOut, NoRestore;
    RunIsSafe(run, events, i);
    SystemIsDb(run[i]);
    assert Moves(run[i], events[i], run[i + 1]);
    RequestQueues(run[i], target, run[i + 1]);
    ClaimedRestoreIsCarriedOut(run, events, i + 1, w, run[i].db.nextId);
    SameRequest(run[i].db, run[i + 1].db, run[i + 8].db, run[i].db.nextId, target);
  }

  // ---- Another try ----

  /** The row of a job whose attempt failed at `now`: due again a minute later, or failed for good
    * after the third attempt; nothing else is touched. */
  ghost predicate TriedAgain(y: System, u: System, job: Uuid) {
    && job in y.db.jobs
    && u.db == y.db.(jobs := y.db.jobs[job := y.db.jobs[job].(
         attempts := y.db.jobs[job].attempts + 1,
         status := if y.db.jobs[job].attempts + 1 < 3 then Queued else Failed,
         runAfter := y.db.now + 60,
         lease := None)])
  }

  lemma {:induction false} WorkerRetries(y: System, e: Event, z: System, w: int)
    requires Moves(y, e, z) && IsCall(e, w) && PcOf(y, w).Retrying? && Leased(y, PcOf(y, w).job, PcOf(y, w).token)
    ensures TriedAgain(y, z, PcOf(y, w).job) && PcOf(z, w) == Idle
  {
    hide OrdersFit;
  }

  lemma {:induction false} WorkerGivesUp(y: System, e: Event, z: System)
    requires Moves(y, e, z) && e.Work? && e.fate == NotMade
    requires PcOf(y, e.worker).Claimed? || PcOf(y, e.worker).Renewed? || PcOf(y, e.worker).Armed?
    ensures z.db == y.db && PcOf(z, e.worker) == Retrying(PcOf(y, e.worker).job, PcOf(y, e.worker).token)
  {
    hide OrdersFit, CreatePreSnapshotTx, ExecuteTx;
  }

  /** At every other call a worker that gets no answer stops, and leaves the job to its lease. */
  lemma {:induction false} WorkerStops(y: System, e: Event, z: System)
    requires Moves(y, e, z) && e.Work? && e.fate != Answered
    requires !PcOf(y, e.worker).Claimed? && !PcOf(y, e.worker).Renewed? && !PcOf(y, e.worker).Armed?
    ensures PcOf(z, e.worker) == Idle && (e.fate == NotMade ==> z.db == y.db)
  {
    hide OrdersFit;
  }

  /** A worker that lost its lease stops at the next renewal; elsewhere it goes on until then, or to
    * a retry that does nothing. */
  lemma {:induction false} StrangerStops(y: System, e: Event, z: System)
    requires Moves(y, e, z) && e.Work? && e.fate == Answered && !Leased(y, PcOf(y, e.worker).job, PcOf(y, e.worker).token)
    ensures z.db == y.db
    ensures var pc := PcOf(y, e.worker);
      PcOf(z, e.worker) ==
        match pc
        case Claimed(job, token) => Retrying(job, token)
        case Renewed(job, token, x) => Stored(job, token, x)
        case Stored(job, token, x) => Marked(job, token, x)
        case Armed(job, token, _) => Retrying(job, token)
        case _ => Idle
  {
    hide OrdersFit, CreatePreSnapshotTx, RenewLeaseTx, MarkSnapshotReadyTx, CancelWithLeaseTx, RetryTx, ExecuteTx;
    StrangersAreRefused(y.db, PcOf(y, e.worker).job, PcOf(y, e.worker).token, 0, e.ranked, e.order);
    if PcOf(y, e.worker).HasSnapshot() {
      StrangersAreRefused(y.db, PcOf(y, e.worker).job, PcOf(y, e.worker).token, PcOf(y, e.worker).snapshot, e.ranked, e.order);
    }
  }

  /** When a worker's snapshot, upload or restore fails, its next answered call requeues the job or
    * fails it for good. */
  lemma {:induction false} FailureIsTriedAgain(run: seq<System>, events: seq<Event>, i: nat, w: int)
    requires IsRun(run, events) && i + 1 < |events|
    requires events[i].Work? && events[i].worker == w && events[i].fate == NotMade && IsCall(events[i + 1], w)
    requires PcOf(run[i], w).Claimed? || PcOf(run[i], w).Renewed? || PcOf(run[i], w).Armed?
    requires Leased(run[i], PcOf(run[i], w).job, PcOf(run[i], w).token)
    ensures TriedAgain(run[i], run[i + 2], PcOf(run[i], w).job) && PcOf(run[i + 2], w) == Idle
  {
    hide Moves, Starts;
    WorkerGivesUp(run[i], events[i], run[i + 1]);
    WorkerRetries(run[i + 1], events[i + 1], run[i + 2], w);
  }
}
