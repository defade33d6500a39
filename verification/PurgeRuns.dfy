/** Who may do what to a purge job, over whole runs: when it is due, how its attempts are counted,
  * and that a worker which lost the job can never touch it again.
  */
module PurgeRuns {
  import opened Basics
  import opened ChangeLog
  import opened Transactions
  import opened ProjectPurge

  /** The job is leased under the token. */
  predicate Leased(q: Queue, job: Uuid, token: Uuid) {
    job in q.jobs && q.jobs[job].status == Running && q.jobs[job].lease == Some(token)
  }

  // ---- Single calls ----

  /** A purge is due when its time has come and it is queued or its lease has run out.  A claim counts
    * an attempt and leases the job for five minutes under a new token. */
  lemma {:induction false} PurgeIsClaimedExactly(q: Queue, job: Uuid)
    ensures PurgeClaimable(q, job) <==>
      && job in q.jobs && q.jobs[job].runAfter <= q.db.now
      && match q.jobs[job].status
         case Queued => true
         case Running => q.jobs[job].leaseExpires < q.db.now
         case _ => false
    ensures PurgeClaimable(q, job) ==>
      && ClaimPurgeTx(q, job).1 == q.db.nextId
      && ClaimPurgeTx(q, job).0 == Queue(q.db.(nextId := q.db.nextId + 1), q.jobs[job := q.jobs[job].(
           status := Running, attempts := q.jobs[job].attempts + 1,
           lease := Some(q.db.nextId), leaseExpires := q.db.now + 300)])
  {
  }

  /** Without the token no call changes anything; with it and an expired lease only giving up does. */
  lemma {:induction false} StrangersChangeNothing(q: Queue, job: Uuid, token: Uuid, order: seq<ObjectKey>)
    ensures !Leased(q, job, token) ==>
      PrepareTx(q, job, token, order) == (q, Err(JobNotFound)) && CompleteTx(q, job, token) == q && FailTx(q, job, token) == q
    ensures Leased(q, job, token) && q.db.now >= q.jobs[job].leaseExpires ==>
      PrepareTx(q, job, token, order) == (q, Err(JobNotFound)) && CompleteTx(q, job, token) == q
    ensures Leased(q, job, token) && q.db.now < q.jobs[job].leaseExpires && q.jobs[job].detached.None? ==>
      (PrepareTx(q, job, token, order).1.Ok? <==> q.db.project.Some? && q.db.project.value.status == Status.Deleting)
  {
  }

  /** The request for a purge closes an active or disabled project without a restore and queues one
    * job, due at once; it changes nothing of any other. */
  lemma {:induction false} PurgeIsQueuedExactly(q: Queue)
    ensures var accepted := q.db.project.Some? && q.db.project.value.status in {Active, Disabled} && !HasActiveJob(q.db);
      EnqueueJobTx(q) ==
        if accepted
        then Queue(q.db.(nextId := q.db.nextId + 1, project := Some(Project(Deleting, q.db.project.value.generation))),
                   q.jobs[q.db.nextId := PurgeJob(Queued, 0, q.db.now, None, 0, None)])
        else q
  {
  }

  // ---- Tokens, over runs ----

  /** Leases are tokens drawn before. */
  ghost predicate TokensDrawn(q: Queue) {
    && (forall job :: job in q.jobs && q.jobs[job].lease.Some? ==> q.jobs[job].lease.value < q.db.nextId)
    && (forall job :: job in q.jobs ==> job < q.db.nextId)
  }

  /** The token is drawn, and never again the lease of this job. */
  ghost predicate Fenced(q: Queue, job: Uuid, token: Uuid) {
    token < q.db.nextId && job < q.db.nextId && !Leased(q, job, token)
  }

  lemma {:induction false} EventFences(y: System, e: Event, z: System, job: Uuid, token: Uuid)
    requires TokensDrawn(y.q) && Moves(y, e, z)
    ensures TokensDrawn(z.q) && y.q.db.nextId <= z.q.db.nextId
    ensures Fenced(y.q, job, token) ==> Fenced(z.q, job, token)
  {
    hide KeysOf, Lists, Detached;
  }

  lemma {:induction false} RunFences(run: seq<System>, events: seq<Event>, i: nat, j: nat, job: Uuid, token: Uuid)
    requires IsRun(run, events) && i <= j < |run| && Fenced(run[i].q, job, token)
    ensures Fenced(run[j].q, job, token) && TokensDrawn(run[j].q)
    decreases j
  {
    hide Moves, Fenced;
    if i < j {
      RunFences(run, events, i, j - 1, job, token);
      EventFences(run[j - 1], events[j - 1], run[j], job, token);
    } else {
      RunDraws(run, events, j);
    }
  }

  lemma {:induction false} RunDraws(run: seq<System>, events: seq<Event>, i: nat)
    requires IsRun(run, events) && i < |run|
    ensures TokensDrawn(run[i].q)
  {
    hide Moves;
    if i > 0 {
      RunDraws(run, events, i - 1);
      EventFences(run[i - 1], events[i - 1], run[i], 0, 0);
    }
  }

  /** A worker whose token is once not the lease of a purge job, because the job failed, succeeded or
    * was taken over, never holds it again: no call it makes from then on changes a row. */
  lemma {:induction false} LostPurgeStaysLost(run: seq<System>, events: seq<Event>, i: nat, j: nat, job: Uuid, token: Uuid,
      order: seq<ObjectKey>)
    requires IsRun(run, events) && i <= j < |run|
    requires job in run[i].q.jobs && token < run[i].q.db.nextId && !Leased(run[i].q, job, token)
    ensures PrepareTx(run[j].q, job, token, order) == (run[j].q, Err(JobNotFound))
    ensures CompleteTx(run[j].q, job, token) == run[j].q && FailTx(run[j].q, job, token) == run[j].q
  {
    hide Moves;
    RunDraws(run, events, i);
    RunFences(run, events, i, j, job, token);
    StrangersChangeNothing(run[j].q, job, token, order);
  }

  /** So a claim shuts out whoever held the job before, for good. */
  lemma {:induction false} TakeoverFencesPurge(run: seq<System>, events: seq<Event>, i: nat, j: nat, w: int, job: Uuid,
      fate: Fate, token: Uuid, order: seq<ObjectKey>)
    requires IsRun(run, events) && i < j < |run| && events[i] == Claim(w, job, fate) && fate != NotMade
    requires Leased(run[i].q, job, token)
    ensures PrepareTx(run[j].q, job, token, order) == (run[j].q, Err(JobNotFound))
    ensures CompleteTx(run[j].q, job, token) == run[j].q && FailTx(run[j].q, job, token) == run[j].q
  {
    assert Moves(run[i], events[i], run[i + 1]);
    hide Moves;
    RunDraws(run, events, i);
    LostPurgeStaysLost(run, events, i + 1, j, job, token, order);
  }
}
