/** What every transaction keeps, and how each one may change the state.
  *
  * `DbOk` is the one-state invariant and `Step` the two-state one.  There is one lemma per
  * transaction; module `Runs` lifts them to every interleaving.
  */
module Invariants {
  import opened Basics
  import opened ChangeLog
  import opened Push
  import opened Replica
  import opened RestoreLoop
  import opened Transactions

  // ---- One-state invariants ----

  /** The log, the heads and the catalogue agree, and identifiers come from the counter. */
  ghost predicate CoreOk(s: State) {
    TablesOk(s.t) && IdsBelow(s.t, s.nextId) && Closed(s.t, s.payloads)
  }

  predicate Terminal(j: Job) {
    j.status == Succeeded || j.status == Failed || j.status == Cancelled
  }

  /** One row of `restore_jobs`, given the project's generation. */
  predicate JobOk(j: Job, generation: int, nextId: nat) {
    && (j.lease.Some? ==> j.lease.value < nextId)
    && (j.status == Queued ==> j.lease.None?)
    && (j.status == Running ==> j.lease.Some? && j.generationBefore.Some?)
    && (ActiveJob(j) ==> j.attempts < MAX_ATTEMPTS && j.generationAfter.None?)
    && (ActiveJob(j) && j.generationBefore.Some? ==> j.generationBefore.value == generation)
    && (j.status == Succeeded ==>
      && j.generationBefore.Some?
      && j.generationAfter == Some(j.generationBefore.value + 1)
      && !j.cancelRequested)
  }

  ghost predicate JobsOk(s: State) {
    && (s.project.None? ==> s.jobs == map[])
    && (forall id :: id in s.jobs ==> id < s.nextId)
    && (forall id :: id in s.jobs && s.project.Some? ==> JobOk(s.jobs[id], s.project.value.generation, s.nextId))
    && (forall id :: id in s.jobs && s.jobs[id].lease.Some? ==> s.jobs[id].leaseExpires <= s.now + LEASE_SECONDS)
    && (forall a, b :: a in s.jobs && b in s.jobs && ActiveJob(s.jobs[a]) && ActiveJob(s.jobs[b]) ==> a == b)
  }

  function Successes(jobs: map<Uuid, Job>): set<Uuid> {
    set id | id in jobs && jobs[id].status == Succeeded
  }

  /** The generation counts the restores that succeeded. */
  ghost predicate GenerationOk(s: State) {
    s.project.Some? ==> s.project.value.generation == 1 + |Successes(s.jobs)|
  }

  /** `items` lists exactly the revisions of `rows`, each once. */
  ghost predicate ListsRows(items: seq<Revision>, rows: map<ObjectId, LogRow>) {
    && (forall i, j :: 0 <= i < j < |items| ==> items[i].obj != items[j].obj)
    && (forall i :: 0 <= i < |items| ==> items[i].obj in rows && rows[items[i].obj].rev == items[i])
    && (forall o :: o in rows ==> rows[o].rev in items)
  }

  /** A snapshot is the state of the log at its sequence. */
  ghost predicate SnapshotOk(x: Snapshot, log: seq<Revision>) {
    0 <= x.sequence <= |log| && ListsRows(x.items, Latest(log[..x.sequence]))
  }

  ghost predicate SnapshotsOk(s: State)
    requires Logged(s.t)
  {
    && (forall id :: id in s.snapshots ==> id < s.nextId)
    && (forall id :: id in s.snapshots ==> SnapshotOk(s.snapshots[id], Entries(s.t)))
  }

  predicate TargetOk(target: Target, s: State) {
    match target
    case SnapshotTarget(id) => id in s.snapshots && s.snapshots[id].status == Ready
    case SequenceTarget(n) => 0 <= n <= s.t.changeSeq
  }

  /** The target of every active job can still be resolved. */
  ghost predicate TargetsOk(s: State) {
    forall id :: id in s.jobs && ActiveJob(s.jobs[id]) ==> TargetOk(s.jobs[id].target, s)
  }

  ghost predicate ManifestOk(m: Manifest, log: seq<Revision>, generation: int) {
    ManifestOf(m.items, log, m.sequence) && m.generation <= generation
  }

  /** Manifests and completions never run ahead of the generation. */
  ghost predicate BootstrapOk(s: State)
    requires Logged(s.t)
  {
    if s.project.None? then s.manifests == map[] && s.completions == map[]
    else
      && (forall id :: id in s.manifests ==> ManifestOk(s.manifests[id], Entries(s.t), s.project.value.generation))
      && (forall c :: c in s.completions ==> c.generation <= s.project.value.generation)
  }

  ghost predicate DbOk(s: State) {
    && CoreOk(s) && JobsOk(s) && GenerationOk(s)
    && SnapshotsOk(s) && TargetsOk(s) && BootstrapOk(s)
  }

  // ---- Two-state invariants ----

  /** The clock and the counter never go back; a removed project stays removed; the log only
    * grows at its end and the generation never falls. */
  ghost predicate Grows(s: State, u: State) {
    && Logged(s.t) && Logged(u.t)
    && s.now <= u.now && s.nextId <= u.nextId
    && (u.project.Some? ==>
      && s.project.Some?
      && s.project.value.generation <= u.project.value.generation
      && Entries(s.t) <= Entries(u.t))
  }

  /** How one row of `restore_jobs` may change: never out of a terminal state, never back from a
    * requested cancellation, and to a new lease token only when it is fresh; under one token the lease is never shortened. */
  predicate JobEvolves(j: Job, k: Job, nextId: nat) {
    && k.target == j.target
    && (Terminal(j) ==> k == j)
    && (j.cancelRequested ==> k.cancelRequested)
    && (j.generationBefore.Some? ==> k.generationBefore == j.generationBefore)
    && (k.lease.Some? ==> k.lease == j.lease || k.lease.value >= nextId)
    && (k.lease.Some? && k.lease == j.lease && k.lease.value < nextId ==> k.leaseExpires >= j.leaseExpires)
    && j.attempts <= k.attempts
  }

  ghost predicate JobsEvolve(s: State, u: State) {
    u.project.Some? ==>
      && (forall id :: id in s.jobs ==> id in u.jobs && JobEvolves(s.jobs[id], u.jobs[id], s.nextId))
      && (forall id :: id in u.jobs && id !in s.jobs ==> id >= s.nextId && u.jobs[id].lease.None?)
  }

  /** A snapshot's content is fixed, and so is its status once it is ready or stale. */
  ghost predicate SnapshotsStay(s: State, u: State) {
    u.project.Some? ==>
      forall id :: id in s.snapshots ==>
        && id in u.snapshots
        && u.snapshots[id].items == s.snapshots[id].items
        && u.snapshots[id].sequence == s.snapshots[id].sequence
        && u.snapshots[id].generation == s.snapshots[id].generation
        && (s.snapshots[id].status != Pending ==> u.snapshots[id].status == s.snapshots[id].status)
  }

  /** Stored push outcomes and manifests stay until they expire, completions for good. */
  ghost predicate RowsStay(s: State, u: State) {
    u.project.Some? ==>
      && (forall k :: k in s.records && s.records[k].expiresAt > u.now ==> k in u.records && u.records[k] == s.records[k])
      && (forall id :: id in s.manifests && s.manifests[id].expiresAt > u.now ==>
            id in u.manifests && u.manifests[id] == s.manifests[id])
      && (forall c :: c in s.completions ==> c in u.completions)
  }

  /** The completion row `c` may only appear at the current generation. */
  ghost predicate CompletionsAtGeneration(s: State, u: State) {
    u.project.Some? ==>
      forall c :: c in u.completions && c !in s.completions ==> c.generation == u.project.value.generation
  }

  /** Under an old lease token in a maintenance project nothing moves: if the token is still the
    * job's lease afterwards it was before, the tables are the same, and only the holder of
    * `mover` may have attached a snapshot to the job. */
  ghost predicate LeaseStable(s: State, u: State, mover: Option<Uuid>) {
    forall job: Uuid, token: Uuid :: token < s.nextId && Holds(u, job, token) && StatusIs(u, Maintenance) ==>
      && Holds(s, job, token) && StatusIs(s, Maintenance)
      && u.t == s.t
      && (mover != Some(token) ==> u.jobs[job].preSnapshot == s.jobs[job].preSnapshot)
  }

  ghost predicate Step(s: State, u: State, mover: Option<Uuid>) {
    && Grows(s, u) && JobsEvolve(s, u) && SnapshotsStay(s, u) && RowsStay(s, u)
    && CompletionsAtGeneration(s, u) && LeaseStable(s, u, mover)
  }

  // ---- Transactions that touch only jobs and the project status ----

  /** Every table but `restore_jobs` and the project status is as before. */
  ghost predicate OnlyJobs(s: State, u: State) {
    && u.now == s.now && s.nextId <= u.nextId
    && u.t == s.t && u.payloads == s.payloads && u.snapshots == s.snapshots && u.records == s.records
    && u.manifests == s.manifests && u.completions == s.completions
    && (s.project.None? <==> u.project.None?)
    && (s.project.Some? ==> u.project.value.generation == s.project.value.generation)
  }

  lemma {:induction false} OnlyJobsKeeps(s: State, u: State, mover: Option<Uuid>)
    requires DbOk(s) && OnlyJobs(s, u)
    requires JobsOk(u) && TargetsOk(u) && JobsEvolve(s, u) && LeaseStable(s, u, mover)
    requires Successes(u.jobs) == Successes(s.jobs)
    ensures DbOk(u) && Step(s, u, mover)
  {
    hide Closed, Logged, Linear, HeadsAreLatest, SnapshotOk, ManifestOk, JobsOk, TargetsOk, JobsEvolve, LeaseStable;
  }

  lemma {:induction false} StutterKeeps(s: State)
    requires DbOk(s)
    ensures Step(s, s, None)
  {
    hide Closed, Logged, Linear, HeadsAreLatest, SnapshotOk, ManifestOk;
  }

  /** One job row is replaced, and perhaps the status. */
  lemma {:induction false} OneJobChanges(s: State, u: State, job: Uuid, k: Job)
    requires DbOk(s) && OnlyJobs(s, u) && s.project.Some?
    requires job in s.jobs && u.jobs == s.jobs[job := k]
    requires ActiveJob(s.jobs[job])
    requires JobOk(k, s.project.value.generation, u.nextId) && JobEvolves(s.jobs[job], k, s.nextId)
    requires k.status != Succeeded
    requires k.lease.Some? ==> k.leaseExpires <= u.now + LEASE_SECONDS
    requires k.preSnapshot == s.jobs[job].preSnapshot
    requires k.status == Running && k.lease.Some? && k.lease.value < s.nextId ==>
      s.jobs[job].status == Running && k.lease == s.jobs[job].lease
    requires StatusIs(u, Maintenance) && !StatusIs(s, Maintenance) ==> k.lease.Some? && k.lease.value >= s.nextId
    ensures DbOk(u) && Step(s, u, None)
  {
    hide Closed, Logged, Linear, HeadsAreLatest, SnapshotOk, ManifestOk, SnapshotsOk, BootstrapOk;
    assert Successes(u.jobs) == Successes(s.jobs);
    assert LeaseStable(s, u, None) by {
      forall id: Uuid, token: Uuid | token < s.nextId && Holds(u, id, token) && StatusIs(u, Maintenance)
        ensures Holds(s, id, token) && StatusIs(s, Maintenance) && u.jobs[id].preSnapshot == s.jobs[id].preSnapshot
      {
        if id != job {
          assert false;
        }
      }
    }
    OnlyJobsKeeps(s, u, None);
  }

  lemma {:induction false} JobFacts(s: State, job: Uuid)
    requires DbOk(s) && job in s.jobs
    ensures s.project.Some? && JobOk(s.jobs[job], s.project.value.generation, s.nextId)
    ensures s.jobs[job].lease.Some? ==> s.jobs[job].leaseExpires <= s.now + LEASE_SECONDS
  {
  }

  /** A project has at most one row for the claim query to select. */
  lemma {:induction false} OneClaimable(s: State, a: Uuid, b: Uuid)
    requires DbOk(s) && Claimable(s, a) && Claimable(s, b)
    ensures a == b
  {
    hide CoreOk, GenerationOk, SnapshotsOk, TargetsOk, BootstrapOk, JobOk;
  }

  lemma {:induction false} ClaimKeeps(s: State, job: Uuid)
    requires DbOk(s) && Claimable(s, job)
    ensures DbOk(ClaimTx(s, job).0) && Step(s, ClaimTx(s, job).0, None)
    ensures ClaimTx(s, job).1.Ok? ==>
      ClaimTx(s, job).1.value == s.nextId < ClaimTx(s, job).0.nextId
  {
    hide DbOk, Step;
    JobFacts(s, job);
    var u := ClaimTx(s, job).0;
    if ClaimAllowed(s, s.jobs[job]) {
      OneJobChanges(s, u, job, ClaimedJob(s, s.jobs[job]));
    } else {
      OneJobChanges(s, u, job, s.jobs[job].(status := Failed));
    }
  }

  lemma {:induction false} RenewKeeps(s: State, job: Uuid, token: Uuid)
    requires DbOk(s)
    ensures DbOk(RenewLeaseTx(s, job, token).0) && Step(s, RenewLeaseTx(s, job, token).0, None)
  {
    hide DbOk, Step;
    if Holds(s, job, token) {
      var u := RenewLeaseTx(s, job, token).0;
      JobFacts(s, job);
      OneJobChanges(s, u, job, u.jobs[job]);
    } else {
      StutterKeeps(s);
    }
  }

  lemma {:induction false} CancelWithLeaseKeeps(s: State, job: Uuid, token: Uuid)
    requires DbOk(s)
    ensures DbOk(CancelWithLeaseTx(s, job, token).0) && Step(s, CancelWithLeaseTx(s, job, token).0, None)
  {
    hide DbOk, Step;
    if Holds(s, job, token) && s.jobs[job].cancelRequested {
      var u := CancelWithLeaseTx(s, job, token).0;
      JobFacts(s, job);
      OneJobChanges(s, u, job, u.jobs[job]);
    } else {
      StutterKeeps(s);
    }
  }

  lemma {:induction false} RetryKeeps(s: State, job: Uuid, token: Uuid)
    requires DbOk(s)
    ensures DbOk(RetryTx(s, job, token).0) && Step(s, RetryTx(s, job, token).0, None)
  {
    hide DbOk, Step;
    if Holds(s, job, token) {
      var u := RetryTx(s, job, token).0;
      JobFacts(s, job);
      OneJobChanges(s, u, job, u.jobs[job]);
    } else {
      StutterKeeps(s);
    }
  }

  lemma {:induction false} CancelKeeps(s: State, job: Uuid)
    requires DbOk(s)
    ensures DbOk(CancelTx(s, job).0) && Step(s, CancelTx(s, job).0, None)
  {
    hide DbOk, Step;
    if job in s.jobs && ActiveJob(s.jobs[job]) {
      var u := CancelTx(s, job).0;
      JobFacts(s, job);
      OneJobChanges(s, u, job, u.jobs[job]);
    } else {
      StutterKeeps(s);
    }
  }

  /** Only the project status changes, and not into maintenance. */
  lemma {:induction false} StatusKeeps(s: State, status: Status)
    requires DbOk(s) && status != Maintenance
    ensures DbOk(WithStatus(s, status)) && Step(s, WithStatus(s, status), None)
  {
    hide DbOk, Step, OnlyJobs, JobsOk, TargetsOk, JobsEvolve, LeaseStable;
    StatusTouchesNoJob(s, status);
    OnlyJobsKeeps(s, WithStatus(s, status), None);
  }

  lemma {:induction false} StatusKeepsRows(s: State, status: Status)
    requires JobsOk(s) && TargetsOk(s)
    ensures JobsOk(WithStatus(s, status)) && TargetsOk(WithStatus(s, status))
  {
    hide JobOk, TargetOk;
    var u := WithStatus(s, status);
    forall id | id in u.jobs && u.project.Some? ensures JobOk(u.jobs[id], u.project.value.generation, u.nextId) {
    }
    forall id | id in u.jobs && ActiveJob(u.jobs[id]) ensures TargetOk(u.jobs[id].target, u) {
      TargetElsewhere(u.jobs[id].target, s, u);
    }
  }

  lemma {:induction false} TargetElsewhere(target: Target, s: State, u: State)
    requires TargetOk(target, s) && u.snapshots == s.snapshots && u.t == s.t
    ensures TargetOk(target, u)
  {
  }

  lemma {:induction false} StatusMovesNoLease(s: State, status: Status)
    requires status != Maintenance
    ensures LeaseStable(s, WithStatus(s, status), None)
  {
    hide Holds;
  }

  lemma {:induction false} SameJobsEvolve(s: State, u: State)
    requires u.jobs == s.jobs
    ensures JobsEvolve(s, u)
  {
  }

  lemma {:induction false} StatusTouchesNoJob(s: State, status: Status)
    requires DbOk(s) && status != Maintenance
    ensures var u := WithStatus(s, status);
      && OnlyJobs(s, u) && u.jobs == s.jobs
      && JobsOk(u) && TargetsOk(u) && JobsEvolve(s, u) && LeaseStable(s, u, None)
  {
    hide CoreOk, JobsOk, TargetsOk, SnapshotsOk, BootstrapOk, GenerationOk, JobsEvolve, LeaseStable;
    StatusKeepsRows(s, status);
    StatusMovesNoLease(s, status);
    SameJobsEvolve(s, WithStatus(s, status));
  }

  lemma {:induction false} InsertJobKeeps(s: State, target: Target)
    requires DbOk(s) && StatusIs(s, Active) && !HasActiveJob(s)
    requires target.SequenceTarget? ==> 0 <= target.sequence <= s.t.changeSeq
    ensures DbOk(InsertJob(s, target).0) && Step(s, InsertJob(s, target).0, None)
  {
    hide Closed, Logged, Linear, HeadsAreLatest, SnapshotOk, ManifestOk;
    if InsertJob(s, target).1.Ok? {
      var u := InsertJob(s, target).0;
      assert Successes(u.jobs) == Successes(s.jobs);
      OnlyJobsKeeps(s, u, None);
    } else {
      StutterKeeps(s);
    }
  }

  // ---- Transactions that touch only snapshots, and a job's link to one ----

  /** The head rows, listed in any order, are a snapshot of the log as it stands. */
  lemma {:induction false} HeadRowsListed(t: Tables, order: seq<ObjectId>)
    requires TablesOk(t) && Lists(order, HeadRows(t).Keys)
    ensures forall o :: o in order ==> o in HeadRows(t)
    ensures ListsRows(InOrder(HeadRows(t), order), Latest(Entries(t)))
    ensures Entries(t)[..t.changeSeq] == Entries(t)
  {
    hide Linear, HeadsAreLatest, Latest;
    HeadRowsAreLatest(t);
    hide HeadRows;
    var rows := Latest(Entries(t));
    var items := InOrder(HeadRows(t), order);
    forall i | 0 <= i < |items|
      ensures order[i] in rows && items[i] == rows[order[i]].rev && items[i].obj == order[i]
    {
      assert order[i] in order;
    }
    forall o | o in rows ensures rows[o].rev in items {
      assert o in order;
    }
  }

  ghost predicate OnlySnapshots(s: State, u: State) {
    && u.now == s.now && s.nextId <= u.nextId
    && u.project == s.project && u.t == s.t && u.payloads == s.payloads && u.records == s.records
    && u.manifests == s.manifests && u.completions == s.completions
  }

  lemma {:induction false} OnlySnapshotsKeeps(s: State, u: State)
    requires DbOk(s) && OnlySnapshots(s, u) && u.jobs == s.jobs
    requires SnapshotsOk(u) && SnapshotsStay(s, u)
    ensures DbOk(u) && Step(s, u, None)
  {
    hide Closed, Logged, Linear, HeadsAreLatest, SnapshotOk, ManifestOk;
  }

  lemma {:induction false} SnapshotKeeps(s: State, order: seq<ObjectId>)
    requires DbOk(s) && Lists(order, HeadRows(s.t).Keys)
    ensures DbOk(SnapshotTx(s, order).0) && Step(s, SnapshotTx(s, order).0, None)
  {
    hide Closed, Logged, Linear, HeadsAreLatest, JobsOk, TargetsOk, BootstrapOk, GenerationOk, Step, ListsRows, HeadRows;
    if RequireActive(s).Ok? {
      HeadRowsListed(s.t, order);
      OnlySnapshotsKeeps(s, SnapshotTx(s, order).0);
    } else {
      StutterKeeps(s);
    }
  }

  /** The status of one pending snapshot is settled. */
  lemma {:induction false} SnapshotStatusKeeps(s: State, id: Uuid, status: SnapshotStatus)
    requires DbOk(s) && id in s.snapshots && s.snapshots[id].status == Pending
    ensures var u := s.(snapshots := s.snapshots[id := s.snapshots[id].(status := status)]);
      DbOk(u) && Step(s, u, None)
  {
    hide Closed, Logged, Linear, HeadsAreLatest, JobsOk, TargetsOk, BootstrapOk, GenerationOk, Step, ListsRows;
    OnlySnapshotsKeeps(s, s.(snapshots := s.snapshots[id := s.snapshots[id].(status := status)]));
  }

  lemma {:induction false} ExpireSnapshotsKeeps(s: State, olderThan: Time)
    requires DbOk(s)
    ensures DbOk(ExpireSnapshotsTx(s, olderThan)) && Step(s, ExpireSnapshotsTx(s, olderThan), None)
  {
    hide Closed, Logged, Linear, HeadsAreLatest, JobsOk, TargetsOk, BootstrapOk, GenerationOk, Step, ListsRows;
    OnlySnapshotsKeeps(s, ExpireSnapshotsTx(s, olderThan));
  }

  function Linked(s: State, job: Uuid, id: Uuid): State
    requires job in s.jobs
  {
    s.(jobs := s.jobs[job := s.jobs[job].(preSnapshot := Some(id))])
  }

  lemma {:induction false} LinkedJobs(s: State, job: Uuid, token: Uuid, id: Uuid)
    requires DbOk(s) && Holds(s, job, token)
    ensures var u := Linked(s, job, id);
      && OnlyJobs(s, u) && Successes(u.jobs) == Successes(s.jobs)
      && JobsOk(u) && TargetsOk(u) && JobsEvolve(s, u) && LeaseStable(s, u, Some(token))
  {
    hide CoreOk, SnapshotsOk, BootstrapOk, GenerationOk;
  }

  /** A running job is linked to a snapshot by the holder of its lease. */
  lemma {:induction false} LinkKeeps(s: State, job: Uuid, token: Uuid, id: Uuid)
    requires DbOk(s) && Holds(s, job, token)
    ensures DbOk(Linked(s, job, id)) && Step(s, Linked(s, job, id), Some(token))
  {
    hide DbOk, Step, OnlyJobs, JobsOk, TargetsOk, JobsEvolve, LeaseStable, Linked;
    LinkedJobs(s, job, token, id);
    OnlyJobsKeeps(s, Linked(s, job, id), Some(token));
  }

  lemma {:induction false} StepThen(s: State, mid: State, u: State, mover: Option<Uuid>)
    requires Step(s, mid, None) && Step(mid, u, mover) && mid.project == u.project == s.project && mid.jobs == s.jobs
    ensures Step(s, u, mover)
  {
    hide Logged;
  }

  /** The pre-restore snapshot is linked to the job, under the token `mover`. */
  lemma {:induction false} CreatePreSnapshotKeeps(s: State, job: Uuid, token: Uuid, order: seq<ObjectId>)
    requires DbOk(s) && Lists(order, HeadRows(s.t).Keys)
    ensures var u := CreatePreSnapshotTx(s, job, token, order).0;
      DbOk(u) && Step(s, u, Some(token))
  {
    hide Closed, Logged, Linear, HeadsAreLatest, JobsOk, TargetsOk, BootstrapOk, GenerationOk, Step, ListsRows, HeadRows;
    var r := CreatePreSnapshotTx(s, job, token, order);
    if r.1.Ok? {
      var mid := s.(snapshots := r.0.snapshots, nextId := r.0.nextId);
      HeadRowsListed(s.t, order);
      OnlySnapshotsKeeps(s, mid);
      LinkKeeps(mid, job, token, s.nextId);
      StepThen(s, mid, r.0, Some(token));
    } else {
      StutterKeeps(s);
      AnyMover(s, s, token);
    }
  }

  lemma {:induction false} AnyMover(s: State, u: State, token: Uuid)
    requires Step(s, u, None)
    ensures Step(s, u, Some(token))
  {
    hide Grows, JobsEvolve, SnapshotsStay, RowsStay, CompletionsAtGeneration;
  }

  // ---- Transactions that append to the log ----

  /** Frozen snapshots and manifests are not disturbed by growth of the log. */
  lemma {:induction false} FrozenStays(log: seq<Revision>, longer: seq<Revision>, generation: int, next: int)
    requires log <= longer && generation <= next
    ensures forall x: Snapshot :: SnapshotOk(x, log) ==> SnapshotOk(x, longer)
    ensures forall m: Manifest :: ManifestOk(m, log, generation) ==> ManifestOk(m, longer, next)
  {
    hide Latest, ListsRows, ManifestOf;
    forall x: Snapshot | SnapshotOk(x, log) ensures SnapshotOk(x, longer) {
      assert longer[..x.sequence] == log[..x.sequence];
    }
    forall m: Manifest | ManifestOk(m, log, generation) ensures ManifestOk(m, longer, next) {
      ManifestOutlivesGrowth(m.items, log, longer, m.sequence);
    }
  }

  /** The tables grow and nothing but the idempotency records changes with them. */
  lemma {:induction false} OnlyLogKeeps(s: State, u: State)
    requires DbOk(s) && CoreOk(u) && StatusIs(s, Active)
    requires u == s.(t := u.t, nextId := u.nextId, records := u.records)
    requires s.nextId <= u.nextId && Entries(s.t) <= Entries(u.t) && RowsStay(s, u)
    ensures DbOk(u) && Step(s, u, None)
  {
    hide Closed, Logged, Linear, HeadsAreLatest, SnapshotOk, ManifestOk, IdsBelow;
    FrozenStays(Entries(s.t), Entries(u.t), s.project.value.generation, s.project.value.generation);
    assert Successes(u.jobs) == Successes(s.jobs);
  }

  /** A refusal stores a record under a key that holds none any more. */
  lemma {:induction false} RefusalStays(s: State, k: RequestKey, hash: Hash, e: Error)
    requires k !in WithoutExpired(s, k)
    ensures var u := Refuse(s, k, hash, e).0;
      u == s.(records := u.records) && RowsStay(s, u) && CompletionsAtGeneration(s, u)
  {
  }

  lemma {:induction false} RefuseKeeps(s: State, k: RequestKey, hash: Hash, e: Error)
    requires DbOk(s) && k !in WithoutExpired(s, k)
    ensures DbOk(Refuse(s, k, hash, e).0) && Step(s, Refuse(s, k, hash, e).0, None)
  {
    hide CoreOk, JobsOk, GenerationOk, SnapshotsOk, TargetsOk, ManifestOk, Logged, Step, Refuse, WithoutExpired, RowsStay,
      CompletionsAtGeneration;
    DbIsCore(s);
    CoreIsLogged(s);
    RefusalStays(s, k, hash, e);
    OnlyBootstrapKeeps(s, Refuse(s, k, hash, e).0);
  }

  lemma {:induction false} CoreIsLogged(s: State)
    requires CoreOk(s)
    ensures Logged(s.t)
  {
  }

  lemma {:induction false} PushKeeps(s: State, device: Uuid, generation: int, key: string, hash: Hash, items: seq<NewRevision>)
    requires DbOk(s)
    ensures var u := PushTx(s, device, generation, key, hash, items).0;
      DbOk(u) && Step(s, u, None)
  {
    hide Closed, Linear, HeadsAreLatest, DbOk, Step, Replay, PushBatch;
    var k := RequestKey(device, key);
    StutterKeeps(s);
    if k !in WithoutExpired(s, k) {
      if RequireActive(s).Err? {
        RefuseKeeps(s, k, hash, RequireActive(s).error);
      } else {
        var actual := RequireActive(s).value;
        RefuseKeeps(s, k, hash, GenerationMismatch(generation, actual));
        RefuseKeeps(s, k, hash, BootstrapRequired);
        var b := PushBatch(Batch(s.t, s.nextId, []), s.payloads, device, items);
        if generation == actual && Completion(device, actual) in s.completions && b.Ok? {
          var u := PushTx(s, device, generation, key, hash, items).0;
          assert CoreOk(s) && s.nextId >= 0 by {
            DbIsCore(s);
          }
          PushBatchKeeps(Batch(s.t, s.nextId, []), s.payloads, device, items);
          OnlyLogKeeps(s, u);
        }
      }
    }
  }

  lemma {:induction false} DbIsCore(s: State)
    requires DbOk(s)
    ensures CoreOk(s)
  {
  }

  // ---- Executing a restore ----

  /** The sequence whose state a job brings back. */
  function TargetSequence(s: State, target: Target): int
    requires TargetOk(target, s)
  {
    match target
    case SnapshotTarget(id) => s.snapshots[id].sequence
    case SequenceTarget(n) => n
  }

  lemma {:induction false} ListedRowsAreTarget(items: seq<Revision>, log: seq<Revision>, n: nat)
    requires n <= |log| && ListsRows(items, Latest(log[..n]))
    ensures TargetAt(ItemsOf(items), log, n)
  {
    hide Latest;
    LatestIsNewest(log[..n]);
    var target := ItemsOf(items);
    forall item: Item | item.obj in Latest(log[..n]) && item == ItemOf(Latest(log[..n])[item.obj].rev)
      ensures item in target
    {
      var rev := Latest(log[..n])[item.obj].rev;
      assert rev in items;
      var i :| 0 <= i < |items| && items[i] == rev;
      assert target[i] == item;
    }
  }

  lemma {:induction false} RankedRowsAreTarget(ranked: seq<ObjectId>, log: seq<Revision>, n: nat)
    requires n <= |log| && Lists(ranked, Latest(log[..n]).Keys)
    ensures TargetAt(ItemsOfLog(InOrder(Latest(log[..n]), ranked)), log, n)
  {
    hide Latest;
    LatestIsNewest(log[..n]);
    var rows := InOrder(Latest(log[..n]), ranked);
    var target := ItemsOfLog(rows);
    forall i | 0 <= i < |target|
      ensures ranked[i] in Latest(log[..n]) && target[i] == ItemOf(Latest(log[..n])[ranked[i]].rev)
      ensures target[i].obj == ranked[i]
    {
      assert ranked[i] in ranked;
    }
    forall item: Item | item.obj in Latest(log[..n]) && item == ItemOf(Latest(log[..n])[item.obj].rev)
      ensures item in target
    {
      assert item.obj in ranked;
      var i :| 0 <= i < |ranked| && ranked[i] == item.obj;
      assert target[i] == item;
    }
  }

  /** An active job's target resolves to the state of the log at its sequence. */
  lemma {:induction false} TargetResolves(s: State, job: Uuid, ranked: seq<ObjectId>, order: seq<ObjectId>)
    requires DbOk(s) && OrdersFit(s, job, ranked, order)
    requires job in s.jobs && ActiveJob(s.jobs[job])
    ensures TargetOk(s.jobs[job].target, s)
    ensures var n := TargetSequence(s, s.jobs[job].target);
      var r := ResolveTarget(s, s.jobs[job].target, ranked);
      0 <= n <= s.t.changeSeq && r.Ok? && TargetAt(r.value, Entries(s.t), n)
  {
    hide Closed, Logged, Linear, HeadsAreLatest, Latest, JobsOk, GenerationOk, BootstrapOk, TargetAt, ListsRows;
    match s.jobs[job].target
    case SnapshotTarget(id) =>
      ListedRowsAreTarget(s.snapshots[id].items, Entries(s.t), s.snapshots[id].sequence);
    case SequenceTarget(n) =>
      assert Upto(Entries(s.t), n) == Entries(s.t)[..n];
      RankedRowsAreTarget(ranked, Entries(s.t), n);
  }

  lemma {:induction false} HeadRowsAreCurrent(t: Tables)
    requires TablesOk(t)
    ensures CurrentIs(HeadRows(t), Latest(Entries(t)))
  {
    HeadRowsAreLatest(t);
  }

  /** The result of a restore that passed its guards, in terms of the log before it. */
  ghost predicate RestoreOutcome(s: State, u: State, job: Uuid)
    requires Logged(s.t) && job in s.jobs && TargetOk(s.jobs[job].target, s)
  {
    var n := TargetSequence(s, s.jobs[job].target);
    && CoreOk(u) && s.nextId <= u.nextId
    && 0 <= n <= s.t.changeSeq
    && Entries(s.t) <= Entries(u.t)
    && VisibleAt(Entries(u.t)) == RestoredView(Entries(s.t), n)
    && job in u.jobs
    && u.jobs[job].objects == |WrittenObjects(Entries(s.t), n)|
    && u.jobs[job].tombstones == |WrittenTombstones(Entries(s.t), n)|
    && u.t.changeSeq == s.t.changeSeq + u.jobs[job].objects + u.jobs[job].tombstones
  }

  /** In every state that meets the invariants, a restore whose lease is held, whose cancellation
    * was not requested and whose project is in maintenance succeeds, and brings its target back. */
  lemma {:induction false} ExecuteMeaning(s: State, job: Uuid, token: Uuid, ranked: seq<ObjectId>, order: seq<ObjectId>)
    requires DbOk(s) && OrdersFit(s, job, ranked, order)
    requires Holds(s, job, token) && !s.jobs[job].cancelRequested && StatusIs(s, Maintenance)
    ensures TargetOk(s.jobs[job].target, s)
    ensures var r := ExecuteTx(s, job, token, ranked, order);
      && r.1.Ok? && RestoreOutcome(s, r.0, job)
      && r.0 == FinishRestore(s, job, Progress(r.0.t, r.0.nextId, r.0.jobs[job].objects, r.0.jobs[job].tombstones))
  {
    hide Linear, HeadsAreLatest, Latest, JobsOk, GenerationOk, BootstrapOk, SnapshotsOk, TargetsOk, TargetAt, ListsRows, HeadRows,
      RestoreItems, WithAbsent, ResolveTarget, CurrentIs, VisibleAt, RestoredView, WrittenObjects, WrittenTombstones, Closed;
    TargetResolves(s, job, ranked, order);
    var n := TargetSequence(s, s.jobs[job].target);
    var target := ResolveTarget(s, s.jobs[job].target, ranked).value;
    var p := Progress(s.t, s.nextId, 0, 0);
    HeadRowsAreCurrent(s.t);
    assert ProgressOk(p, s.payloads);
    RestoreSucceeds(p, s.payloads, HeadRows(s.t), target, order, n, s.now);
    RestoreBringsBack(p, s.payloads, HeadRows(s.t), target, order, n, s.now);
  }

  lemma {:induction false} SuccessesGrow(jobs: map<Uuid, Job>, job: Uuid, k: Job)
    requires job in jobs && jobs[job].status != Succeeded && k.status == Succeeded
    ensures |Successes(jobs[job := k])| == |Successes(jobs)| + 1
  {
    assert Successes(jobs[job := k]) == Successes(jobs) + {job};
  }

  /** A state after a finished restore: `u` is `s` with a longer log, one more success and one
    * more generation. */
  lemma {:induction false} FinishKeeps(s: State, u: State, job: Uuid, q: Progress)
    requires DbOk(s) && job in s.jobs && s.jobs[job].status == Running && !s.jobs[job].cancelRequested
    requires StatusIs(s, Maintenance) && u == FinishRestore(s, job, q)
    requires CoreOk(u) && s.nextId <= u.nextId && Entries(s.t) <= Entries(u.t)
    ensures DbOk(u) && Step(s, u, None)
  {
    hide Closed, Logged, Linear, HeadsAreLatest, SnapshotOk, ManifestOk, IdsBelow;
    FrozenStays(Entries(s.t), Entries(u.t), s.project.value.generation, u.project.value.generation);
    SuccessesGrow(s.jobs, job, u.jobs[job]);
  }

  lemma {:induction false} ExecuteKeeps(s: State, job: Uuid, token: Uuid, ranked: seq<ObjectId>, order: seq<ObjectId>)
    requires DbOk(s) && OrdersFit(s, job, ranked, order)
    ensures var u := ExecuteTx(s, job, token, ranked, order).0;
      DbOk(u) && Step(s, u, None)
  {
    hide DbOk, Step, CoreOk, Lists, Latest, HeadRows, VisibleAt, RestoredView, WrittenObjects, WrittenTombstones;
    if Holds(s, job, token) && !s.jobs[job].cancelRequested && StatusIs(s, Maintenance) {
      ExecuteMeaning(s, job, token, ranked, order);
      var u := ExecuteTx(s, job, token, ranked, order).0;
      FinishKeeps(s, u, job, Progress(u.t, u.nextId, u.jobs[job].objects, u.jobs[job].tombstones));
    } else {
      StutterKeeps(s);
    }
  }

  // ---- The remaining transactions ----

  /** Only the catalogue changes, and it still covers every stored revision. */
  lemma {:induction false} OnlyCatalogueKeeps(s: State, u: State)
    requires DbOk(s) && u == s.(payloads := u.payloads, nextId := u.nextId) && s.nextId <= u.nextId
    requires Closed(s.t, u.payloads)
    ensures DbOk(u) && Step(s, u, None)
  {
    hide Closed, Logged, Linear, HeadsAreLatest, SnapshotOk, ManifestOk;
  }

  lemma {:induction false} RegisterPayloadKeeps(s: State, hash: Hash, size: int, essence: string)
    requires DbOk(s)
    ensures var u := RegisterPayloadTx(s, hash, size, essence).0;
      DbOk(u) && Step(s, u, None)
  {
    hide DbOk, Step, TablesOk, IdsBelow, RowCheck;
    var u := RegisterPayloadTx(s, hash, size, essence).0;
    StutterKeeps(s);
    DbIsCore(s);
    if hash !in s.payloads {
      OnlyCatalogueKeeps(s, u);
    }
  }

  lemma {:induction false} CollectedIsUnused(s: State, hash: Hash, olderThan: Time)
    requires Closed(s.t, s.payloads)
    ensures Closed(s.t, CollectPayloadTx(s, hash, olderThan).payloads)
  {
    var u := CollectPayloadTx(s, hash, olderThan);
    forall id | id in s.t.revisions && !s.t.revisions[id].tombstone
      ensures s.t.revisions[id].hash.Some? && s.t.revisions[id].hash.value in u.payloads
    {
      var r := s.t.revisions[id];
      assert RowCheck(r) && s.payloads[r.hash.value].id == r.payload.value;
    }
  }

  /** Garbage collection never removes the catalogue row of a stored revision. */
  lemma {:induction false} CollectPayloadKeeps(s: State, hash: Hash, olderThan: Time)
    requires DbOk(s)
    ensures var u := CollectPayloadTx(s, hash, olderThan);
      DbOk(u) && Step(s, u, None)
  {
    hide DbOk, Step, TablesOk, IdsBelow, Closed, Referenced;
    DbIsCore(s);
    CollectedIsUnused(s, hash, olderThan);
    OnlyCatalogueKeeps(s, CollectPayloadTx(s, hash, olderThan));
  }

  /** Only the idempotency records, the manifests or the completions change. */
  lemma {:induction false} OnlyBootstrapKeeps(s: State, u: State)
    requires DbOk(s) && s.now <= u.now
    requires u == s.(now := u.now, records := u.records, manifests := u.manifests, completions := u.completions)
    requires RowsStay(s, u) && CompletionsAtGeneration(s, u) && BootstrapOk(u)
    ensures DbOk(u) && Step(s, u, None)
  {
    hide Closed, Logged, Linear, HeadsAreLatest, SnapshotOk, BootstrapOk, RowsStay, CompletionsAtGeneration;
  }

  lemma {:induction false} TickKeeps(s: State, seconds: nat)
    requires DbOk(s)
    ensures DbOk(s.(now := s.now + seconds)) && Step(s, s.(now := s.now + seconds), None)
  {
    hide Closed, Logged, Linear, HeadsAreLatest, SnapshotsOk, ManifestOk, JobsOk, TargetsOk, Step;
    OnlyBootstrapKeeps(s, s.(now := s.now + seconds));
  }

  lemma {:induction false} RecordManifestKeeps(s: State, id: Uuid, m: Manifest)
    requires DbOk(s)
    requires s.project.Some? ==> Logged(s.t) && ManifestOk(m, Entries(s.t), s.project.value.generation)
    ensures DbOk(RecordManifest(s, id, m).0) && Step(s, RecordManifest(s, id, m).0, None)
  {
    hide Closed, Logged, Linear, HeadsAreLatest, SnapshotsOk, ManifestOf, JobsOk, TargetsOk, Step;
    if RecordManifest(s, id, m).1.Ok? {
      OnlyBootstrapKeeps(s, RecordManifest(s, id, m).0);
    } else {
      StutterKeeps(s);
    }
  }

  /** A page writes at most one completion, at the present generation. */
  lemma {:induction false} PageWritesCompletion(s: State, device: Uuid, id: Uuid, offset: int, limit: int)
    ensures var u := ManifestPageTx(s, device, id, offset, limit).0;
      && u == s.(completions := u.completions)
      && (u == s || (s.project.Some? && id in s.manifests &&
            u.completions == s.completions[Completion(device, s.project.value.generation) := s.manifests[id].sequence]))
  {
    hide ManifestPage;
  }

  lemma {:induction false} CompletionKeeps(s: State, c: Completion, n: int)
    requires DbOk(s) && s.project.Some? && c.generation == s.project.value.generation
    ensures var u := s.(completions := s.completions[c := n]); DbOk(u) && Step(s, u, None)
  {
    hide CoreOk, JobsOk, GenerationOk, SnapshotsOk, TargetsOk, ManifestOk, Step, Logged;
    DbIsCore(s);
    CoreIsLogged(s);
    OnlyBootstrapKeeps(s, s.(completions := s.completions[c := n]));
  }

  lemma {:induction false} ManifestPageKeeps(s: State, device: Uuid, id: Uuid, offset: int, limit: int)
    requires DbOk(s)
    ensures var u := ManifestPageTx(s, device, id, offset, limit).0;
      DbOk(u) && Step(s, u, None)
  {
    hide DbOk, Step, ManifestPageTx;
    var u := ManifestPageTx(s, device, id, offset, limit).0;
    PageWritesCompletion(s, device, id, offset, limit);
    if u == s {
      StutterKeeps(s);
    } else {
      CompletionKeeps(s, Completion(device, s.project.value.generation), s.manifests[id].sequence);
    }
  }

  lemma {:induction false} ExpireRecordsKeeps(s: State, reached: set<RequestKey>)
    requires DbOk(s)
    ensures DbOk(ExpireRecordsTx(s, reached)) && Step(s, ExpireRecordsTx(s, reached), None)
  {
    hide Closed, Logged, Linear, HeadsAreLatest, SnapshotsOk, ManifestOk, JobsOk, TargetsOk, Step;
    OnlyBootstrapKeeps(s, ExpireRecordsTx(s, reached));
  }

  lemma {:induction false} ExpireManifestsKeeps(s: State, reached: set<Uuid>)
    requires DbOk(s)
    ensures DbOk(ExpireManifestsTx(s, reached)) && Step(s, ExpireManifestsTx(s, reached), None)
  {
    hide Closed, Logged, Linear, HeadsAreLatest, SnapshotsOk, ManifestOk, JobsOk, TargetsOk, Step;
    OnlyBootstrapKeeps(s, ExpireManifestsTx(s, reached));
  }

  lemma {:induction false} RemovedKeeps(s: State)
    requires DbOk(s)
    ensures DbOk(Removed(s)) && Step(s, Removed(s), None)
  {
    assert Entries(EmptyTables) == [];
  }

  lemma {:induction false} DetachKeeps(s: State)
    requires DbOk(s)
    ensures DbOk(DetachTx(s)) && Step(s, DetachTx(s), None)
  {
    hide DbOk, Step, Removed;
    RemovedKeeps(s);
    StutterKeeps(s);
  }
}
