/** The purge of a project: a leased job detaches every row, keeps the list of object keys on
  * itself, and its workers delete the objects key by key across crashes and lease takeovers.
  */
module ProjectPurge {
  import opened Basics
  import opened ChangeLog
  import opened Transactions

  const PURGE_ATTEMPTS: int := 5

  /** The object keys of a project's rows. */
  datatype ObjectKey = PayloadObject(hash: Hash) | SnapshotObject(snapshot: Uuid) | BootstrapObject(manifest: Uuid)

  /** A row of `jobs` of kind `project_purge`; `detached` is the key list in its payload. */
  datatype PurgeJob = PurgeJob(
    status: JobStatus,
    attempts: int,
    runAfter: Time,
    lease: Option<Uuid>,
    leaseExpires: Time,
    detached: Option<seq<ObjectKey>>)

  datatype Queue = Queue(db: State, jobs: map<Uuid, PurgeJob>)

  datatype PurgeError = JobNotFound | ProjectConflict

  /** The three key queries and their union. */
  function KeysOf(s: State): set<ObjectKey> {
    (set h | h in s.payloads :: PayloadObject(h))
    + (set x | x in s.snapshots :: SnapshotObject(x))
    + (set m | m in s.manifests :: BootstrapObject(m))
  }

  /** No row of the project is left. */
  predicate Detached(s: State) {
    && s.project.None? && s.t == EmptyTables && s.payloads == map[] && s.jobs == map[] && s.snapshots == map[]
    && s.records == map[] && s.manifests == map[] && s.completions == map[]
  }

  predicate HoldsPurge(q: Queue, job: Uuid, token: Uuid) {
    job in q.jobs && q.jobs[job].status == Running && q.jobs[job].lease == Some(token)
  }

  /** The job is leased under `token`, and the lease has not run out. */
  predicate Live(q: Queue, job: Uuid, token: Uuid) {
    HoldsPurge(q, job, token) && q.jobs[job].leaseExpires > q.db.now
  }

  predicate PurgeClaimable(q: Queue, job: Uuid) {
    job in q.jobs && q.jobs[job].runAfter <= q.db.now &&
    (q.jobs[job].status == Queued || (q.jobs[job].status == Running && q.jobs[job].leaseExpires < q.db.now))
  }

  // ---- Transactions ----

  function EnqueueJobTx(q: Queue): Queue {
    var r := EnqueuePurgeTx(q.db);
    if r.1.Err? then q
    else Queue(r.0.(nextId := r.0.nextId + 1),
               q.jobs[r.0.nextId := PurgeJob(Queued, 0, r.0.now, None, 0, None)])
  }

  function ClaimPurgeTx(q: Queue, job: Uuid): (Queue, Uuid)
    requires PurgeClaimable(q, job)
  {
    var j := q.jobs[job];
    (Queue(q.db.(nextId := q.db.nextId + 1),
           q.jobs[job := j.(status := Running, attempts := j.attempts + 1, lease := Some(q.db.nextId),
                            leaseExpires := q.db.now + LEASE_SECONDS)]),
     q.db.nextId)
  }

  /** `order` is the order in which the union query returns the keys. */
  function PrepareTx(q: Queue, job: Uuid, token: Uuid, order: seq<ObjectKey>): (Queue, Result<seq<ObjectKey>, PurgeError>) {
    if !Live(q, job, token) then (q, Err(JobNotFound))
    else if q.jobs[job].detached.Some? then (q, Ok(q.jobs[job].detached.value))
    else if !StatusIs(q.db, Deleting) then (q, Err(ProjectConflict))
    else (Queue(DetachTx(q.db), q.jobs[job := q.jobs[job].(detached := Some(order))]), Ok(order))
  }

  function CompleteTx(q: Queue, job: Uuid, token: Uuid): Queue {
    if !Live(q, job, token) then q
    else q.(jobs := q.jobs[job := q.jobs[job].(status := Succeeded, lease := None)])
  }

  function FailTx(q: Queue, job: Uuid, token: Uuid): Queue {
    if !HoldsPurge(q, job, token) then q
    else q.(jobs := q.jobs[job := q.jobs[job].(
      status := if q.jobs[job].attempts < PURGE_ATTEMPTS then Queued else Failed,
      lease := None,
      runAfter := q.db.now + RETRY_SECONDS)])
  }

  /** The tables behind the purge, statement by statement. */
  class Tables {
    var db: State
    var jobs: map<Uuid, PurgeJob>

    ghost function Contents(): Queue
      reads this
    {
      Queue(db, jobs)
    }

    constructor (db: State)
      ensures Contents() == Queue(db, map[])
    {
      this.db, jobs := db, map[];
    }

    /** `claim_project_purge_job`, for the row its query selects. */
    method Claim(job: Uuid) returns (token: Uuid)
      requires PurgeClaimable(Contents(), job)
      modifies this
      ensures (Contents(), token) == ClaimPurgeTx(old(Contents()), job)
    {
      token := db.nextId;
      db := db.(nextId := db.nextId + 1);
      jobs := jobs[job := jobs[job].(
        status := Running,
        attempts := jobs[job].attempts + 1,
        lease := Some(token),
        leaseExpires := db.now + LEASE_SECONDS)];
    }

    /** `prepare_project_purge`. */
    method Prepare(job: Uuid, token: Uuid, order: seq<ObjectKey>) returns (r: Result<seq<ObjectKey>, PurgeError>)
      requires Lists(order, KeysOf(db))
      modifies this
      ensures (Contents(), r) == PrepareTx(old(Contents()), job, token, order)
    {
      if job !in jobs || jobs[job].status != Running || jobs[job].lease != Some(token) || jobs[job].leaseExpires <= db.now {
        return Err(JobNotFound);
      }
      if jobs[job].detached.Some? {
        return Ok(jobs[job].detached.value);
      }
      if db.project.None? || db.project.value.status != Deleting {
        return Err(ProjectConflict);
      }
      var left := db;
      left := left.(completions := map[]);
      left := left.(records := map[]);
      left := left.(jobs := map[]);
      left := left.(snapshots := map[]);
      left := left.(manifests := map[]);
      left := left.(t := left.t.(changeLog := map[]));
      left := left.(t := left.t.(heads := map[]));
      left := left.(t := left.t.(revisions := map[]));
      left := left.(payloads := map[]);
      left := left.(project := None, t := left.t.(changeSeq := 0));
      db := left;
      jobs := jobs[job := jobs[job].(detached := Some(order))];
      return Ok(order);
    }

    /** `complete_project_purge`. */
    method Complete(job: Uuid, token: Uuid) returns (r: Result<(), PurgeError>)
      modifies this
      ensures Contents() == CompleteTx(old(Contents()), job, token)
      ensures r.Ok? <==> old(Live(Contents(), job, token))
    {
      if job !in jobs || jobs[job].status != Running || jobs[job].lease != Some(token) || jobs[job].leaseExpires <= db.now {
        return Err(JobNotFound);
      }
      jobs := jobs[job := jobs[job].(status := Succeeded, lease := None)];
      return Ok(());
    }

    /** `fail_project_purge`. */
    method Fail(job: Uuid, token: Uuid) returns (r: Result<(), PurgeError>)
      modifies this
      ensures Contents() == FailTx(old(Contents()), job, token)
      ensures r.Ok? <==> old(HoldsPurge(Contents(), job, token))
    {
      if job !in jobs || jobs[job].status != Running || jobs[job].lease != Some(token) {
        return Err(JobNotFound);
      }
      var again := jobs[job].attempts < PURGE_ATTEMPTS;
      jobs := jobs[job := jobs[job].(
        status := if again then Queued else Failed,
        lease := None,
        runAfter := db.now + RETRY_SECONDS)];
      return Ok(());
    }
  }

  // ---- Workers ----

  datatype Pc =
    | Idle
    | Claimed(job: Uuid, token: Uuid)
    | Working(job: Uuid, token: Uuid, keys: seq<ObjectKey>, next: nat)
    | Failing(job: Uuid, token: Uuid)

  /** `acknowledged` remembers, per job, the keys whose deletion the object store confirmed. */
  datatype System = System(q: Queue, workers: map<int, Pc>, acknowledged: set<(Uuid, ObjectKey)>)

  datatype Event =
    | Enqueue
    | Others(db: State)
    | Claim(worker: int, job: Uuid, fate: Fate)
    | Work(worker: int, fate: Fate, order: seq<ObjectKey>)
    | Crash(worker: int)

  function PcOf(y: System, w: int): Pc {
    if w in y.workers then y.workers[w] else Idle
  }

  /** What the rest of the service may do between two steps of the purge: anything to a project
    * that exists, nothing to one that does not but pass time and draw identifiers. */
  ghost predicate OthersAllowed(s: State, u: State) {
    && s.now <= u.now && s.nextId <= u.nextId
    && (Detached(s) ==> Detached(u))
  }

  /** One call of the project half of `process_purge_jobs`: the new queue, the new program counter,
    * and the key whose deletion was acknowledged, if any. */
  function WorkerCall(q: Queue, pc: Pc, fate: Fate, order: seq<ObjectKey>): (Queue, Pc, Option<ObjectKey>)
    requires pc != Idle
  {
    match pc
    case Claimed(job, token) =>
      var r := PrepareTx(q, job, token, order);
      (Committed(q, r.0, fate),
       if fate == Answered && r.1.Ok? then Working(job, token, r.1.value, 0) else Failing(job, token),
       None)
    case Working(job, token, keys, next) =>
      if next < |keys| then
        if fate == Answered then (q, Working(job, token, keys, next + 1), Some(keys[next]))
        else (q, Failing(job, token), None)
      else (Committed(q, CompleteTx(q, job, token), fate), Idle, None)
    case Failing(job, token) => (Committed(q, FailTx(q, job, token), fate), Idle, None)
  }

  ghost predicate Moves(y: System, e: Event, z: System) {
    match e
    case Enqueue => z == y.(q := EnqueueJobTx(y.q))
    case Others(db) => OthersAllowed(y.q.db, db) && z == y.(q := y.q.(db := db))
    case Claim(w, job, fate) =>
      && PcOf(y, w) == Idle && PurgeClaimable(y.q, job)
      && var r := ClaimPurgeTx(y.q, job);
         z == y.(q := Committed(y.q, r.0, fate),
                 workers := y.workers[w := if fate == Answered then Claimed(job, r.1) else Idle])
    case Work(w, fate, order) =>
      var pc := PcOf(y, w);
      && pc != Idle && Lists(order, KeysOf(y.q.db))
      && var r := WorkerCall(y.q, pc, fate, order);
         z == System(r.0, y.workers[w := r.1],
                     if r.2.Some? then y.acknowledged + {(pc.job, r.2.value)} else y.acknowledged)
    case Crash(w) => z == y.(workers := y.workers[w := Idle])
  }

  // ---- The invariant ----

  ghost predicate Acknowledged(y: System, job: Uuid, keys: seq<ObjectKey>, n: nat)
    requires n <= |keys|
  {
    forall i :: 0 <= i < n ==> (job, keys[i]) in y.acknowledged
  }

  /** A job with a key list has detached its project; a succeeded one has such a list, and every
    * key on it was deleted. */
  ghost predicate PurgeJobOk(y: System, job: Uuid)
    requires job in y.q.jobs
  {
    var j := y.q.jobs[job];
    && job < y.q.db.nextId
    && (j.detached.Some? ==> Detached(y.q.db))
    && (j.status == Succeeded ==> j.detached.Some? && Acknowledged(y, job, j.detached.value, |j.detached.value|))
    && (j.status == Queued ==> j.attempts < 5)
  }

  /** A worker that deletes works through its job's own list. */
  ghost predicate PurgePcOk(y: System, pc: Pc) {
    pc.Working? ==>
      && pc.job in y.q.jobs && y.q.jobs[pc.job].detached == Some(pc.keys)
      && pc.next <= |pc.keys| && Acknowledged(y, pc.job, pc.keys, pc.next)
  }

  ghost predicate QueueOk(y: System) {
    && (forall job :: job in y.q.jobs ==> PurgeJobOk(y, job))
    && (forall w: int :: PurgePcOk(y, PcOf(y, w)))
  }

  /** How purge jobs evolve: none disappears, and a key list once set is fixed. */
  ghost predicate ListsStay(y: System, z: System) {
    && y.acknowledged <= z.acknowledged
    && (forall job :: job in y.q.jobs ==>
      && job in z.q.jobs
      && (y.q.jobs[job].detached.Some? ==> z.q.jobs[job].detached == y.q.jobs[job].detached))
    && (Detached(y.q.db) ==> Detached(z.q.db))
  }

  // ---- Every event ----

  lemma {:induction false} DetachedStays(s: State)
    requires Detached(s)
    ensures Detached(EnqueuePurgeTx(s).0) && EnqueuePurgeTx(s).1.Err?
    ensures !StatusIs(s, Deleting)
  {
  }

  /** The first detach removes every row of the project, and the list is exactly its object keys,
    * each once; every later call returns the same list and changes nothing. */
  lemma {:induction false} PrepareMeaning(q: Queue, job: Uuid, token: Uuid, order: seq<ObjectKey>)
    requires Lists(order, KeysOf(q.db)) && PrepareTx(q, job, token, order).1.Ok?
    ensures var r := PrepareTx(q, job, token, order);
      && job in r.0.jobs && r.0.jobs[job].detached == Some(r.1.value)
      && (q.jobs[job].detached.Some? ==> r.0 == q && r.1.value == q.jobs[job].detached.value)
      && (q.jobs[job].detached.None? ==>
            Detached(r.0.db) && NoDuplicates(r.1.value) && forall k :: k in r.1.value <==> k in KeysOf(q.db))
  {
    hide KeysOf;
  }

  /** One job row is replaced. */
  lemma {:induction false} JobChanges(y: System, z: System, job: Uuid, j: PurgeJob)
    requires QueueOk(y) && y.q.db.nextId <= z.q.db.nextId && (Detached(y.q.db) ==> Detached(z.q.db))
    requires job in y.q.jobs && z.q.jobs == y.q.jobs[job := j] && y.acknowledged <= z.acknowledged
    requires y.q.jobs[job].detached.Some? ==> j.detached == y.q.jobs[job].detached
    requires PurgeJobOk(z, job)
    ensures ListsStay(y, z)
    ensures forall id :: id in z.q.jobs ==> PurgeJobOk(z, id)
  {
    forall id | id in z.q.jobs ensures PurgeJobOk(z, id) {
      if id != job {
        assert PurgeJobOk(y, id);
      }
    }
  }

  lemma {:induction false} PcsStay(y: System, z: System, w: int)
    requires QueueOk(y) && ListsStay(y, z)
    requires forall v: int :: v != w ==> PcOf(z, v) == PcOf(y, v)
    requires PurgePcOk(z, PcOf(z, w))
    ensures forall v: int :: PurgePcOk(z, PcOf(z, v))
  {
    forall v: int ensures PurgePcOk(z, PcOf(z, v)) {
      if v != w {
        assert PurgePcOk(y, PcOf(y, v));
      }
    }
  }

  lemma {:induction false} EnqueueKeeps(y: System, z: System)
    requires QueueOk(y) && Moves(y, Enqueue, z)
    ensures QueueOk(z) && ListsStay(y, z)
  {
    if Detached(y.q.db) {
      DetachedStays(y.q.db);
    }
    hide Detached;
    forall w: int ensures PurgePcOk(z, PcOf(z, w)) {
      assert PurgePcOk(y, PcOf(y, w));
    }
    forall job | job in z.q.jobs ensures PurgeJobOk(z, job) {
      if job in y.q.jobs {
        assert PurgeJobOk(y, job);
      }
    }
  }

  lemma {:induction false} OthersKeep(y: System, db: State, z: System)
    requires QueueOk(y) && Moves(y, Others(db), z)
    ensures QueueOk(z) && ListsStay(y, z)
  {
    hide Detached;
    forall w: int ensures PurgePcOk(z, PcOf(z, w)) {
      assert PurgePcOk(y, PcOf(y, w));
    }
    forall job | job in z.q.jobs ensures PurgeJobOk(z, job) {
      assert PurgeJobOk(y, job);
    }
  }

  lemma {:induction false} ClaimKeepsQueue(y: System, w: int, job: Uuid, fate: Fate, z: System)
    requires QueueOk(y) && Moves(y, Claim(w, job, fate), z)
    ensures QueueOk(z) && ListsStay(y, z)
  {
    assert PurgeJobOk(y, job);
    if fate == NotMade {
      assert y.q.jobs[job := y.q.jobs[job]] == y.q.jobs;
    }
    JobChanges(y, z, job, z.q.jobs[job]);
    PcsStay(y, z, w);
  }

  lemma {:induction false} PrepareKeepsQueue(y: System, w: int, fate: Fate, order: seq<ObjectKey>, z: System)
    requires QueueOk(y) && Moves(y, Work(w, fate, order), z) && PcOf(y, w).Claimed?
    ensures QueueOk(z) && ListsStay(y, z)
  {
    hide Lists, KeysOf;
    var pc := PcOf(y, w);
    if pc.job in y.q.jobs {
      assert PurgeJobOk(y, pc.job);
      if z.q == y.q {
        assert y.q.jobs[pc.job := y.q.jobs[pc.job]] == y.q.jobs;
      }
      JobChanges(y, z, pc.job, z.q.jobs[pc.job]);
    } else {
      forall id | id in z.q.jobs ensures PurgeJobOk(z, id) {
        assert PurgeJobOk(y, id);
      }
    }
    PcsStay(y, z, w);
  }

  lemma {:induction false} WorkKeepsQueue(y: System, w: int, fate: Fate, order: seq<ObjectKey>, z: System)
    requires QueueOk(y) && Moves(y, Work(w, fate, order), z) && !PcOf(y, w).Claimed?
    ensures QueueOk(z) && ListsStay(y, z)
  {
    hide Lists, KeysOf, Detached;
    var pc := PcOf(y, w);
    assert PurgePcOk(y, pc);
    if pc.job in y.q.jobs {
      assert PurgeJobOk(y, pc.job);
      if z.q == y.q {
        assert y.q.jobs[pc.job := y.q.jobs[pc.job]] == y.q.jobs;
      }
      JobChanges(y, z, pc.job, z.q.jobs[pc.job]);
    } else {
      forall id | id in z.q.jobs ensures PurgeJobOk(z, id) {
        assert PurgeJobOk(y, id);
      }
    }
    PcsStay(y, z, w);
  }

  lemma {:induction false} CrashKeepsQueue(y: System, w: int, z: System)
    requires QueueOk(y) && Moves(y, Crash(w), z)
    ensures QueueOk(z) && ListsStay(y, z)
  {
    forall id | id in z.q.jobs ensures PurgeJobOk(z, id) {
      assert PurgeJobOk(y, id);
    }
    PcsStay(y, z, w);
  }

  lemma {:induction false} EventKeepsQueue(y: System, e: Event, z: System)
    requires QueueOk(y) && Moves(y, e, z)
    ensures QueueOk(z) && ListsStay(y, z)
  {
    hide QueueOk, ListsStay;
    match e
    case Enqueue => EnqueueKeeps(y, z);
    case Others(db) => OthersKeep(y, db, z);
    case Claim(w, job, fate) => ClaimKeepsQueue(y, w, job, fate, z);
    case Work(w, fate, order) =>
      if PcOf(y, w).Claimed? {
        PrepareKeepsQueue(y, w, fate, order, z);
      } else {
        WorkKeepsQueue(y, w, fate, order, z);
      }
    case Crash(w) => CrashKeepsQueue(y, w, z);
  }

  // ---- Runs ----

  ghost predicate IsRun(run: seq<System>, events: seq<Event>) {
    && |run| == |events| + 1
    && run[0].q.jobs == map[] && run[0].workers == map[] && run[0].acknowledged == {}
    && (forall i :: 0 <= i < |events| ==> Moves(run[i], events[i], run[i + 1]))
  }

  lemma {:induction false} RunKeepsQueue(run: seq<System>, events: seq<Event>, i: nat)
    requires IsRun(run, events) && i < |run|
    ensures QueueOk(run[i])
  {
    hide Moves, QueueOk;
    if i == 0 {
      StartIsOk(run[0]);
    } else {
      RunKeepsQueue(run, events, i - 1);
      EventKeepsQueue(run[i - 1], events[i - 1], run[i]);
    }
  }

  lemma {:induction false} StartIsOk(y: System)
    requires y.q.jobs == map[] && y.workers == map[] && y.acknowledged == {}
    ensures QueueOk(y)
  {
  }

  lemma {:induction false} RunKeepsLists(run: seq<System>, events: seq<Event>, i: nat, j: nat)
    requires IsRun(run, events) && i <= j < |run|
    ensures ListsStay(run[i], run[j])
    decreases j - i
  {
    hide Moves, QueueOk;
    if i < j {
      RunKeepsLists(run, events, i, j - 1);
      RunKeepsQueue(run, events, j - 1);
      EventKeepsQueue(run[j - 1], events[j - 1], run[j]);
    }
  }

  /** Across crashes, retries and lease takeovers: when a purge job has succeeded, its project is
    * detached, and the object store acknowledged the deletion of every key on the job's list. */
  lemma {:induction false} SucceededPurgeDeletedAll(run: seq<System>, events: seq<Event>, i: nat, job: Uuid)
    requires IsRun(run, events) && i < |run|
    requires job in run[i].q.jobs && run[i].q.jobs[job].status == Succeeded
    ensures Detached(run[i].q.db) && run[i].q.jobs[job].detached.Some?
    ensures forall k :: k in run[i].q.jobs[job].detached.value ==> (job, k) in run[i].acknowledged
  {
    hide Moves, Detached;
    RunKeepsQueue(run, events, i);
    assert PurgeJobOk(run[i], job);
  }

  /** The list a worker was once given is the list every later worker of the job is given, and the
    * project's rows never come back. */
  lemma {:induction false} RetriesGetTheSameList(run: seq<System>, events: seq<Event>, i: nat, j: nat, job: Uuid,
      token: Uuid, order: seq<ObjectKey>, later: Uuid, order': seq<ObjectKey>)
    requires IsRun(run, events) && i < j < |run|
    requires events[i].Work? && events[i].fate != NotMade && events[i].order == order
    requires PcOf(run[i], events[i].worker) == Claimed(job, token)
    requires PrepareTx(run[i].q, job, token, order).1.Ok?
    ensures Detached(run[j].q.db)
    ensures PrepareTx(run[j].q, job, later, order').1.Ok? ==>
      && PrepareTx(run[j].q, job, later, order').1 == PrepareTx(run[i].q, job, token, order).1
      && PrepareTx(run[j].q, job, later, order').0 == run[j].q
  {
    hide QueueOk, KeysOf;
    assert Moves(run[i], events[i], run[i + 1]);
    PrepareMeaning(run[i].q, job, token, order);
    RunKeepsLists(run, events, i + 1, j);
    RunKeepsQueue(run, events, i + 1);
    hide Moves;
    DetachedByThen(run[i + 1], job);
  }

  lemma {:induction false} DetachedByThen(y: System, job: Uuid)
    requires QueueOk(y) && job in y.q.jobs && y.q.jobs[job].detached.Some?
    ensures Detached(y.q.db)
  {
    assert PurgeJobOk(y, job);
  }

  // ---- A worker left alone ----

  /** From event `from` up to `to` there are answered calls of worker `w` and nothing else. */
  predicate LeftAlone(events: seq<Event>, from: nat, to: nat, w: int) {
    from <= to <= |events|
    && forall i :: from <= i < to ==> events[i].Work? && events[i].worker == w && events[i].fate == Answered
  }

  /** The job is running under the token until after `now`. */
  predicate LeasedPurge(q: Queue, job: Uuid, token: Uuid) {
    && job in q.jobs && q.jobs[job].status == Running && q.jobs[job].lease == Some(token)
    && q.db.now < q.jobs[job].leaseExpires
  }

  /** The worker works through its list: the rows stay as they are, every key is acknowledged, and in
    * the end the job has succeeded. */
  lemma {:induction false} WorkerFinishes(run: seq<System>, events: seq<Event>, i: nat, w: int)
    requires IsRun(run, events) && i < |run| && PcOf(run[i], w).Working?
    requires PcOf(run[i], w).next <= |PcOf(run[i], w).keys|
    requires LeasedPurge(run[i].q, PcOf(run[i], w).job, PcOf(run[i], w).token)
    requires LeftAlone(events, i, i + |PcOf(run[i], w).keys| - PcOf(run[i], w).next + 1, w)
    ensures var pc := PcOf(run[i], w); var end := run[i + |pc.keys| - pc.next + 1];
      && pc.job in end.q.jobs && end.q.jobs[pc.job].status == Succeeded && end.q.jobs[pc.job].lease == None
      && end.q.jobs[pc.job].detached == run[i].q.jobs[pc.job].detached
      && end.q.db == run[i].q.db && PcOf(end, w) == Idle
    decreases |PcOf(run[i], w).keys| - PcOf(run[i], w).next
  {
    hide KeysOf, Lists, Detached;
    var pc := PcOf(run[i], w);
    assert Moves(run[i], events[i], run[i + 1]);
    if pc.next < |pc.keys| {
      assert PcOf(run[i + 1], w) == Working(pc.job, pc.token, pc.keys, pc.next + 1) && run[i + 1].q == run[i].q;
      WorkerFinishes(run, events, i + 1, w);
    }
  }

  /** A purge that is due and left alone is carried out: a claim, the detach, one call per key and the
    * completion leave no row of the project, and the job succeeded with the list of its object keys. */
  lemma {:induction false} ClaimedPurgeIsCarriedOut(run: seq<System>, events: seq<Event>, i: nat, w: int, job: Uuid)
    requires IsRun(run, events) && i + 1 < |events| && events[i] == Claim(w, job, Answered) && events[i + 1].Work?
    requires job in run[i].q.jobs && run[i].q.jobs[job].detached == None
    requires run[i].q.db.project.Some? && run[i].q.db.project.value.status == Status.Deleting
    requires LeftAlone(events, i + 1, i + |events[i + 1].order| + 3, w)
    ensures var end := run[i + |events[i + 1].order| + 3]; var order := events[i + 1].order;
      && job in end.q.jobs && end.q.jobs[job].status == Succeeded && end.q.jobs[job].detached == Some(order)
      && NoDuplicates(order) && (forall k :: k in order <==> k in KeysOf(run[i].q.db))
      && Detached(end.q.db)
  {
    hide KeysOf;
    assert Moves(run[i], events[i], run[i + 1]);
    assert Moves(run[i + 1], events[i + 1], run[i + 2]);
    var token := run[i].q.db.nextId;
    assert LeasedPurge(run[i + 1].q, job, token) && PcOf(run[i + 1], w) == Claimed(job, token);
    SameKeys(run[i].q.db, run[i + 1].q.db);
    DetachGives(run[i + 1].q, job, token, events[i + 1].order);
    WorkerFinishes(run, events, i + 2, w);
  }

  lemma {:induction false} SameKeys(s: State, u: State)
    requires u.payloads == s.payloads && u.snapshots == s.snapshots && u.manifests == s.manifests
    ensures KeysOf(u) == KeysOf(s)
  {
  }

  lemma {:induction false} DetachGives(q: Queue, job: Uuid, token: Uuid, order: seq<ObjectKey>)
    requires LeasedPurge(q, job, token) && q.jobs[job].detached == None
    requires q.db.project.Some? && q.db.project.value.status == Status.Deleting
    ensures var r := PrepareTx(q, job, token, order);
      && r.1 == Ok(order) && LeasedPurge(r.0, job, token) && r.0.jobs[job].detached == Some(order) && Detached(r.0.db)
  {
  }

  /** A worker whose deletion fails gives the job up at its next answered call: due again a minute
    * later below the fifth attempt, failed from then on. */
  lemma {:induction false} FailedPurgeIsTriedAgain(y: System, e: Event, mid: System, f: Event, z: System, w: int)
    requires Moves(y, e, mid) && e.Work? && e.worker == w && e.fate == NotMade
    requires PcOf(y, w).Working? && PcOf(y, w).next < |PcOf(y, w).keys|
    requires Moves(mid, f, z) && f.Work? && f.worker == w && f.fate == Answered
    requires LeasedPurge(y.q, PcOf(y, w).job, PcOf(y, w).token)
    ensures var job := PcOf(y, w).job;
      && job in z.q.jobs && z.q.jobs[job].status == (if y.q.jobs[job].attempts < 5 then Queued else Failed)
      && z.q.jobs[job].attempts == y.q.jobs[job].attempts && z.q.jobs[job].lease == None
      && z.q.jobs[job].runAfter == y.q.db.now + 60 && z.q.jobs[job].detached == y.q.jobs[job].detached
      && z.q.db == y.q.db && PcOf(z, w) == Idle
  {
    hide KeysOf, Lists;
  }
}

/** The rest of the service respects what `ProjectPurge` assumes of it. */
module PurgeInService {
  import opened Basics
  import opened ChangeLog
  import opened Transactions
  import opened Push
  import opened Replica
  import opened RestoreLoop
  import opened Invariants
  import opened Service
  import opened Safety
  import opened Runs
  import ProjectPurge

  lemma {:induction false} CallLeavesDetached(s: State, c: Call)
    requires ProjectPurge.Detached(s) && CallFits(s, c)
    ensures ProjectPurge.Detached(Called(s, c))
  {
    hide InOrder;
  }

  lemma {:induction false} WorkLeavesDetached(s: State, pc: Pc, fate: Fate, ranked: seq<ObjectId>, order: seq<ObjectId>)
    requires ProjectPurge.Detached(s) && pc != Idle && OrdersFit(s, pc.job, ranked, order)
    ensures WorkerCall(s, pc, fate, ranked, order).0 == s
  {
    hide ResolveTarget, InOrder, Lists;
  }

  /** Every event of the service is one that `ProjectPurge` allows between two steps of a purge:
    * once a project is detached, no event brings a row of it back. */
  lemma {:induction false} ServiceAllowsPurge(y: System, e: Event, z: System)
    requires SystemOk(y) && Moves(y, e, z)
    ensures ProjectPurge.OthersAllowed(y.db, z.db)
  {
    hide SystemOk, Later, Moves, ProjectPurge.Detached;
    EventIsLater(y, e, z);
    LaterMovesOn(y.db, z.db);
    if ProjectPurge.Detached(y.db) {
      EventLeavesDetached(y, e, z);
    }
  }

  lemma {:induction false} LaterMovesOn(s: State, u: State)
    requires Later(s, u)
    ensures s.now <= u.now && s.nextId <= u.nextId
  {
    hide JobsLater, SnapshotsStay, RowsStay, Undisturbed;
  }

  lemma {:induction false} EventLeavesDetached(y: System, e: Event, z: System)
    requires ProjectPurge.Detached(y.db) && Moves(y, e, z)
    ensures ProjectPurge.Detached(z.db)
  {
    hide Called, CallFits, WorkerCall, OrdersFit, Lists, Logged, Latest, PullTx, Received;
    match e
    case Calls(c) => CallLeavesDetached(y.db, c);
    case Work(w, fate, ranked, order) => WorkLeavesDetached(y.db, PcOf(y, w), fate, ranked, order);
    case _ =>
  }

  lemma {:induction false} CallKeepsProject(s: State, c: Call)
    requires s.project.Some? && CallFits(s, c) && !c.Detach? && !c.DetachAccount?
    ensures Called(s, c).project.Some?
  {
    hide InOrder, HeadRows, Lists, PushTx, Referenced, HasActiveJob, RegisterPayloadTx, CollectPayloadTx, EnqueueTx, AdminEnqueueTx;
    match c
    case PushRequest(device, generation, key, hash, items) => PushKeepsProject(s, device, generation, key, hash, items);
    case Enqueue(target) => RequestsKeepProject(s, target);
    case AdminEnqueue(target) => RequestsKeepProject(s, target);
    case RegisterPayload(content, size, essence) => PayloadsKeepProject(s, content, size, essence, 0);
    case CollectPayload(content, olderThan) => PayloadsKeepProject(s, content, 0, "", olderThan);
    case _ =>
  }

  lemma {:induction false} PushKeepsProject(s: State, device: Uuid, generation: int, key: string, hash: Hash, items: seq<NewRevision>)
    ensures PushTx(s, device, generation, key, hash, items).0.project == s.project
  {
    hide PushBatch, WithoutExpired;
  }

  lemma {:induction false} RequestsKeepProject(s: State, target: Target)
    ensures EnqueueTx(s, target).0.project == s.project == AdminEnqueueTx(s, target).0.project
  {
    hide HasActiveJob;
  }

  lemma {:induction false} PayloadsKeepProject(s: State, content: Hash, size: int, essence: string, olderThan: Time)
    ensures RegisterPayloadTx(s, content, size, essence).0.project == s.project == CollectPayloadTx(s, content, olderThan).project
  {
    hide Referenced;
  }

  lemma {:induction false} CalledDetaches(s: State)
    requires s.project.Some?
    ensures CallFits(s, Detach) && CallFits(s, DetachAccount)
    ensures Called(s, Detach).project.None? <==> s.project.value.status == Deleting
    ensures s.project.value.status == Deleting ==> ProjectPurge.Detached(Called(s, Detach))
    ensures s.project.value.status != Deleting ==> Called(s, Detach) == s
    ensures ProjectPurge.Detached(Called(s, DetachAccount))
  {
  }

  lemma {:induction false} WorkKeepsProject(s: State, pc: Pc, fate: Fate, ranked: seq<ObjectId>, order: seq<ObjectId>)
    requires s.project.Some? && pc != Idle && OrdersFit(s, pc.job, ranked, order)
    ensures WorkerCall(s, pc, fate, ranked, order).0.project.Some?
  {
    hide ResolveTarget, InOrder, Lists, RestoreItems, WithAbsent, HeadRows;
  }

  /** A project ends only by a purge: by the detach of a project that is being deleted, or with its
    * account; then every row of it is gone.  A detach of any other project changes nothing. */
  lemma {:induction false} ProjectGoesOnlyByPurge(y: System, e: Event, z: System)
    requires Moves(y, e, z) && y.db.project.Some?
    ensures z.db.project.None? <==>
      e == Calls(DetachAccount) || (e == Calls(Detach) && y.db.project.value.status == Deleting)
    ensures z.db.project.None? ==> ProjectPurge.Detached(z.db)
    ensures e == Calls(Detach) && y.db.project.value.status != Deleting ==> z == y
  {
    hide Called, CallFits, WorkerCall, OrdersFit, Lists, Logged, Latest, PullTx, Received;
    match e
    case Calls(Detach) => CalledDetaches(y.db);
    case Calls(DetachAccount) => CalledDetaches(y.db);
    case Calls(c) => CallKeepsProject(y.db, c);
    case Work(w, fate, ranked, order) => WorkKeepsProject(y.db, PcOf(y, w), fate, ranked, order);
    case _ =>
  }
}
