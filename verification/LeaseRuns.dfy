/** Restore jobs over whole runs: lease fencing, attempts, terminal states, cancellation and the
  * accounting of generations. */
module LeaseRuns {
  import opened Basics
  import opened ChangeLog
  import opened Replica
  import opened RestoreLoop
  import opened Transactions
  import opened Invariants
  import opened Service
  import opened Safety
  import opened Runs
  import opened RestoreRuns
  import opened PushRuns

  // ---- Fencing ----

  lemma {:induction false} NotHeldStaysNotHeld(s: State, u: State, job: Uuid, token: Uuid)
    requires DbOk(s) && DbOk(u) && Later(s, u) && token < s.nextId && !Holds(s, job, token)
    ensures !Holds(u, job, token)
  {
    hide Logged, Grows, SnapshotsStay, RowsStay, Undisturbed, CoreOk, GenerationOk, SnapshotsOk, TargetsOk, BootstrapOk;
    if Holds(u, job, token) {
      JobFacts(u, job);
      if job in s.jobs {
        JobFacts(s, job);
      }
    }
  }

  /** With a token that is not the lease, no call a worker can make changes anything. */
  ghost predicate Fenced(s: State, job: Uuid, token: Uuid) {
    && RenewLeaseTx(s, job, token) == (s, Err(Conflict))
    && RetryTx(s, job, token) == (s, false)
    && CancelWithLeaseTx(s, job, token) == (s, Err(NotFound))
    && (forall x: Uuid :: MarkSnapshotReadyTx(s, job, token, x) == s)
    && (forall order: seq<ObjectId> :: (forall o :: o in order ==> o in HeadRows(s.t)) ==>
         CreatePreSnapshotTx(s, job, token, order) == (s, Err(NotFound)))
    && (forall ranked: seq<ObjectId>, order: seq<ObjectId> :: OrdersFit(s, job, ranked, order) ==>
         ExecuteTx(s, job, token, ranked, order) == (s, Err(NotFound)))
  }

  /** A worker whose token is once not its job's lease can never again change the job, the project
    * or the heads. */
  lemma {:induction false} LostLeaseStaysLost(run: seq<System>, events: seq<Event>, i: nat, j: nat, job: Uuid, token: Uuid)
    requires IsRun(run, events) && i <= j < |run|
    requires token < run[i].db.nextId && !Holds(run[i].db, job, token)
    ensures !Holds(run[j].db, job, token) && Fenced(run[j].db, job, token)
  {
    hide Moves, Starts, DbOk, Later, CoreOk, Lists, HeadRows, Latest, RestoreItems, ResolveTarget, WithAbsent;
    RunGrows(run, events, i, j);
    NotHeldStaysNotHeld(run[i].db, run[j].db, job, token);
  }

  /** A takeover fences the previous holder: after a job was claimed, no older token holds it. */
  lemma {:induction false} TakeoverFences(run: seq<System>, events: seq<Event>, i: nat, j: nat, job: Uuid, token: Uuid)
    requires IsRun(run, events) && i < j < |run|
    requires events[i].Claim? && events[i].job == job && events[i].fate != NotMade
    requires token < run[i].db.nextId
    ensures !Holds(run[j].db, job, token) && Fenced(run[j].db, job, token)
  {
    hide Starts, Later, Fenced, DbOk, CoreOk;
    RunGrows(run, events, i, i + 1);
    assert Moves(run[i], events[i], run[i + 1]);
    ClaimReplacesToken(run[i].db, job, token);
    GrowsCounter(run[i].db, run[i + 1].db);
    hide Moves;
    LostLeaseStaysLost(run, events, i + 1, j, job, token);
  }

  lemma {:induction false} GrowsCounter(s: State, u: State)
    requires Later(s, u)
    ensures s.nextId <= u.nextId
  {
  }

  lemma {:induction false} ClaimReplacesToken(s: State, job: Uuid, token: Uuid)
    requires Claimable(s, job) && token < s.nextId
    ensures !Holds(ClaimTx(s, job).0, job, token)
  {
  }

  /** A lease keeps others off: while a token is the job's lease, nobody can claim the job before
    * the latest expiry that any moment so far gave that lease. */
  lemma {:induction false} LeaseKeepsOthersOff(run: seq<System>, events: seq<Event>, i: nat, j: nat, job: Uuid, token: Uuid)
    requires IsRun(run, events) && i <= j < |run|
    requires Holds(run[i].db, job, token) && Holds(run[j].db, job, token)
    requires run[j].db.now <= run[i].db.jobs[job].leaseExpires
    ensures !Claimable(run[j].db, job)
  {
    hide Moves, Starts, DbOk, CoreOk, Grows, SnapshotsStay, RowsStay, Undisturbed, Logged;
    RunGrows(run, events, i, j);
    JobFacts(run[i].db, job);
    JobFacts(run[j].db, job);
  }

  /** The event commits a claim of the job under `token`, or a renewal of that lease. */
  ghost predicate TakesLease(y: System, e: Event, job: Uuid, token: Uuid) {
    || (e.Claim? && e.job == job && e.fate != NotMade && Claimable(y.db, job)
        && ClaimTx(y.db, job).1 == Ok(token))
    || (e.Work? && e.fate != NotMade && (PcOf(y, e.worker).Snapped? || PcOf(y, e.worker).Marked?)
        && PcOf(y, e.worker).job == job && PcOf(y, e.worker).token == token && Holds(y.db, job, token))
  }

  lemma {:induction false} LeaseTaken(y: System, e: Event, z: System, job: Uuid, token: Uuid)
    requires Moves(y, e, z) && TakesLease(y, e, job, token)
    ensures Holds(z.db, job, token) && z.db.jobs[job].leaseExpires == y.db.now + 300
  {
    hide OrdersFit, ClaimTx, RenewLeaseTx, Called, CallFits, ManifestPageTx, PullTx, RecordManifest, Holds, Claimable;
    if e.Claim? {
      ClaimSetsLease(y.db, job);
    } else {
      RenewalSetsLease(y.db, job, token);
    }
  }

  lemma {:induction false} ClaimSetsLease(s: State, job: Uuid)
    requires Claimable(s, job) && ClaimTx(s, job).1.Ok?
    ensures var r := ClaimTx(s, job); Holds(r.0, job, r.1.value) && r.0.jobs[job].leaseExpires == s.now + 300
  {
  }

  lemma {:induction false} RenewalSetsLease(s: State, job: Uuid, token: Uuid)
    requires Holds(s, job, token)
    ensures var u := RenewLeaseTx(s, job, token).0; Holds(u, job, token) && u.jobs[job].leaseExpires == s.now + 300
  {
  }

  /** For five minutes after a worker claimed a job or renewed its lease, nobody can claim the job
    * as long as the worker has not given it up itself. */
  lemma {:induction false} LeaseLastsFiveMinutes(run: seq<System>, events: seq<Event>, i: nat, j: nat, job: Uuid, token: Uuid)
    requires IsRun(run, events) && i < j < |run| && TakesLease(run[i], events[i], job, token)
    requires Holds(run[j].db, job, token) && run[j].db.now <= run[i].db.now + 300
    ensures !Claimable(run[j].db, job)
  {
    hide TakesLease, Starts, Moves, Claimable, Holds;
    LeaseTaken(run[i], events[i], run[i + 1], job, token);
    LeaseKeepsOthersOff(run, events, i + 1, j, job, token);
  }

  /** At most one job of the project is queued or running, and such a job is below three attempts. */
  lemma {:induction false} OneActiveJob(run: seq<System>, events: seq<Event>, i: nat, a: Uuid, b: Uuid)
    requires IsRun(run, events) && i < |run|
    requires a in run[i].db.jobs && b in run[i].db.jobs && ActiveJob(run[i].db.jobs[a]) && ActiveJob(run[i].db.jobs[b])
    ensures a == b && run[i].db.jobs[a].attempts < 3
  {
    hide Moves, Starts, CoreOk, SnapshotsOk, TargetsOk, BootstrapOk, WorkersOk, PreparedOk, DevicesOk, GenerationOk;
    RunIsSafe(run, events, i);
    JobFacts(run[i].db, a);
  }

  /** A job row in a terminal state never changes again while the project exists. */
  lemma {:induction false} TerminalForever(run: seq<System>, events: seq<Event>, i: nat, j: nat, job: Uuid)
    requires IsRun(run, events) && i <= j < |run| && run[j].db.project.Some?
    requires job in run[i].db.jobs && Terminal(run[i].db.jobs[job])
    ensures job in run[j].db.jobs && run[j].db.jobs[job] == run[i].db.jobs[job]
  {
    hide Moves, Starts, DbOk, CoreOk, Grows, SnapshotsStay, RowsStay, Undisturbed, Logged;
    RunGrows(run, events, i, j);
  }

  // ---- Generations and cancellation ----

  /** The generation is one more than the number of restores that succeeded, and every succeeded
    * job moved it by exactly one, however often the job was retried or reclaimed. */
  lemma {:induction false} GenerationCountsRestores(run: seq<System>, events: seq<Event>, i: nat)
    requires IsRun(run, events) && i < |run| && run[i].db.project.Some?
    ensures run[i].db.project.value.generation == 1 + |Successes(run[i].db.jobs)|
    ensures forall job :: job in Successes(run[i].db.jobs) ==>
      && run[i].db.jobs[job].generationBefore.Some?
      && run[i].db.jobs[job].generationAfter == Some(run[i].db.jobs[job].generationBefore.value + 1)
  {
    hide Moves, Starts, CoreOk, SnapshotsOk, TargetsOk, BootstrapOk, WorkersOk, PreparedOk, DevicesOk;
    RunIsSafe(run, events, i);
    var s := run[i].db;
    forall job | job in Successes(s.jobs)
      ensures s.jobs[job].generationBefore.Some? && s.jobs[job].generationAfter == Some(s.jobs[job].generationBefore.value + 1)
    {
      JobFacts(s, job);
    }
  }

  lemma {:induction false} WorkSucceeds(s: State, pc: Pc, fate: Fate, ranked: seq<ObjectId>, order: seq<ObjectId>, job: Uuid)
    requires pc != Idle && OrdersFit(s, pc.job, ranked, order)
    requires var u := WorkerCall(s, pc, fate, ranked, order).0;
      && job in u.jobs && u.jobs[job].status == Succeeded
      && (job in s.jobs ==> s.jobs[job].status != Succeeded)
    ensures pc.Armed? && pc.job == job && fate != NotMade && ExecuteTx(s, pc.job, pc.token, ranked, order).1.Ok?
  {
    hide RestoreItems, WithAbsent, ResolveTarget, HeadRows, Lists, Latest, InOrder;
  }

  lemma {:induction false} BootstrapTouchesNoJob(s: State, device: Uuid, id: Uuid, offset: int, limit: int, m: Manifest)
    ensures ManifestPageTx(s, device, id, offset, limit).0.jobs == s.jobs
    ensures RecordManifest(s, id, m).0.jobs == s.jobs
  {
    hide ManifestPage;
  }

  lemma {:induction false} ClaimSucceedsNoJob(s: State, claimed: Uuid, job: Uuid)
    requires Claimable(s, claimed)
    requires job in ClaimTx(s, claimed).0.jobs && ClaimTx(s, claimed).0.jobs[job].status == Succeeded
    ensures job in s.jobs && s.jobs[job].status == Succeeded
  {
  }

  /** A job comes to have succeeded only by the event of a worker's restore of this job that commits. */
  lemma {:induction false} SuccessIsARestore(y: System, e: Event, z: System, job: Uuid)
    requires Moves(y, e, z)
    requires job in z.db.jobs && z.db.jobs[job].status == Succeeded
    requires job in y.db.jobs ==> y.db.jobs[job].status != Succeeded
    ensures Restores(y, e) && PcOf(y, e.worker).job == job
  {
    hide Called, CallFits, ClaimTx, WorkerCall, ManifestPageTx, RecordManifest, HeadRows, Lists, Latest, PullTx,
      Received, OrdersFit, ExecuteTx, Claimable, Logged;
    match e
    case Calls(call) => CallIsPlain(y.db, call);
    case FirstPage(device, id, limit) => BootstrapTouchesNoJob(y.db, device, id, 0, limit, Manifest(0, 0, [], 0));
    case NextPage(device, limit) =>
      var d := DeviceOf(y, device);
      BootstrapTouchesNoJob(y.db, device, d.manifest, d.offset, limit, Manifest(0, 0, [], 0));
    case OtherPage(device, id, offset, limit) =>
      BootstrapTouchesNoJob(y.db, device, id, offset, limit, Manifest(0, 0, [], 0));
    case RecordBootstrap(id) => BootstrapTouchesNoJob(y.db, 0, id, 0, 0, y.prepared[id]);
    case Claim(_, claimed, _) =>
      if job in ClaimTx(y.db, claimed).0.jobs && ClaimTx(y.db, claimed).0.jobs[job].status == Succeeded {
        ClaimSucceedsNoJob(y.db, claimed, job);
      }
    case Work(w, fate, ranked, order) => WorkSucceeds(y.db, PcOf(y, w), fate, ranked, order, job);
    case _ =>
  }

  /** Every succeeded job owes its success to one restore of the run. */
  lemma {:induction false} SuccessHasOrigin(run: seq<System>, events: seq<Event>, j: nat, job: Uuid) returns (i: nat)
    requires IsRun(run, events) && j < |run|
    requires job in run[j].db.jobs && run[j].db.jobs[job].status == Succeeded
    ensures i < j && Restores(run[i], events[i]) && PcOf(run[i], events[i].worker).job == job
    ensures job in run[i + 1].db.jobs && run[i + 1].db.jobs[job].status == Succeeded
  {
    hide Moves, Restores;
    if j == 0 {
      assert false;
    } else if job in run[j - 1].db.jobs && run[j - 1].db.jobs[job].status == Succeeded {
      i := SuccessHasOrigin(run, events, j - 1, job);
    } else {
      SuccessIsARestore(run[j - 1], events[j - 1], run[j], job);
      i := j - 1;
    }
  }

  /** A cancellation was accepted: the job is cancelled, or asked to be. */
  predicate CancelAccepted(j: Job) {
    j.status == Cancelled || j.cancelRequested
  }

  lemma {:induction false} CancelIsAccepted(s: State, job: Uuid)
    requires CancelTx(s, job).1.Ok?
    ensures job in CancelTx(s, job).0.jobs && CancelAccepted(CancelTx(s, job).0.jobs[job])
  {
  }

  lemma {:induction false} AcceptedNeverExecutes(s: State, job: Uuid, token: Uuid, ranked: seq<ObjectId>, order: seq<ObjectId>)
    requires job in s.jobs && CancelAccepted(s.jobs[job]) && OrdersFit(s, job, ranked, order)
    ensures ExecuteTx(s, job, token, ranked, order).1.Err? && ExecuteTx(s, job, token, ranked, order).0 == s
  {
    hide Lists, HeadRows, Latest, RestoreItems, ResolveTarget, WithAbsent;
  }

  lemma {:induction false} AcceptedStaysAccepted(s: State, u: State, job: Uuid)
    requires Later(s, u) && u.project.Some? && job in s.jobs && CancelAccepted(s.jobs[job])
    ensures job in u.jobs && CancelAccepted(u.jobs[job])
  {
    hide Grows, SnapshotsStay, RowsStay, Undisturbed;
  }

  /** A job whose cancellation was accepted never succeeds and never changes a head. */
  lemma {:induction false} CancelledNeverRestores(run: seq<System>, events: seq<Event>, i: nat, j: nat, job: Uuid)
    requires IsRun(run, events) && i < j < |run| && run[j].db.project.Some?
    requires events[i] == Calls(CancelRestore(job)) && CancelTx(run[i].db, job).1.Ok?
    ensures job in run[j].db.jobs && run[j].db.jobs[job].status != Succeeded
    ensures forall token: Uuid, ranked: seq<ObjectId>, order: seq<ObjectId> :: OrdersFit(run[j].db, job, ranked, order) ==>
      ExecuteTx(run[j].db, job, token, ranked, order).1.Err? && ExecuteTx(run[j].db, job, token, ranked, order).0 == run[j].db
  {
    hide Starts, Later, DbOk, CoreOk, ExecuteTx, OrdersFit;
    RunGrows(run, events, i + 1, j);
    assert Moves(run[i], events[i], run[i + 1]);
    CancelIsAccepted(run[i].db, job);
    hide Moves;
    AcceptedStaysAccepted(run[i + 1].db, run[j].db, job);
    JobFacts(run[j].db, job);
    forall token: Uuid, ranked: seq<ObjectId>, order: seq<ObjectId> | OrdersFit(run[j].db, job, ranked, order)
      ensures ExecuteTx(run[j].db, job, token, ranked, order).1.Err? && ExecuteTx(run[j].db, job, token, ranked, order).0 == run[j].db
    {
      AcceptedNeverExecutes(run[j].db, job, token, ranked, order);
    }
  }
}
