/** The database transactions of one project, each as a function of the state it reads.
  *
  * `State` holds the rows of every table that carry the project's identifier.  The class in
  * module `Persistence` performs these transactions statement by statement; the events of module
  * `Service` interleave them.  Arguments named `order` and `ranked` are the orders in which the
  * database returns rows of a query that does not fix one.
  */
module Transactions {
  import opened Basics
  import opened ChangeLog
  import opened Push
  import opened Replica
  import opened RestoreLoop

  const DAY: int := 86400
  const RECORD_LIFETIME: int := 30 * DAY
  const MANIFEST_LIFETIME: int := DAY
  const LEASE_SECONDS: int := 300
  const RETRY_SECONDS: int := 60
  const MAX_ATTEMPTS: int := 3

  datatype Status = Active | Maintenance | Disabled | Deleting

  datatype Project = Project(status: Status, generation: int)

  datatype JobStatus = Queued | Running | Succeeded | Failed | Cancelled

  datatype Target = SnapshotTarget(snapshot: Uuid) | SequenceTarget(sequence: int)

  /** A row of `restore_jobs`. */
  datatype Job = Job(
    target: Target,
    status: JobStatus,
    preSnapshot: Option<Uuid>,
    generationBefore: Option<int>,
    generationAfter: Option<int>,
    objects: int,
    tombstones: int,
    attempts: int,
    runAfter: Time,
    lease: Option<Uuid>,
    leaseExpires: Time,
    cancelRequested: bool)

  datatype SnapshotStatus = Pending | Ready | Stale

  /** A row of `snapshots`; `items` is its manifest. */
  datatype Snapshot = Snapshot(
    generation: int,
    sequence: int,
    items: seq<Revision>,
    status: SnapshotStatus,
    createdAt: Time)

  /** A row of `bootstrap_manifests`. */
  datatype Manifest = Manifest(generation: int, sequence: int, items: seq<LogRow>, expiresAt: Time)

  datatype RequestKey = RequestKey(device: Uuid, key: string)

  datatype Outcome = Success(generation: int, results: seq<ItemResult>) | Refusal(failure: Failure)

  /** A row of `idempotency_records`. */
  datatype Record = Record(hash: Hash, outcome: Outcome, expiresAt: Time)

  /** A row key of `bootstrap_completions`. */
  datatype Completion = Completion(device: Uuid, generation: int)

  datatype State = State(
    now: Time,
    nextId: nat,
    project: Option<Project>,
    t: Tables,
    payloads: Catalogue,
    jobs: map<Uuid, Job>,
    snapshots: map<Uuid, Snapshot>,
    records: map<RequestKey, Record>,
    manifests: map<Uuid, Manifest>,
    completions: map<Completion, int>)

  datatype PushReply =
    | Pushed(generation: int, results: seq<ItemResult>, replayed: bool)
    | Refused(error: Error)

  datatype PullReply = PullReply(generation: int, page: Page, nextSequence: int)

  datatype BootstrapReply = BootstrapReply(generation: int, sequence: int, page: Page)

  // ---- Guards ----

  predicate StatusIs(s: State, status: Status) {
    s.project.Some? && s.project.value.status == status
  }

  /** The generation of an active project, or the error of `require_active_project`. */
  function RequireActive(s: State): Result<int, Error> {
    if s.project.None? then Err(NotFound)
    else if s.project.value.status != Active then Err(ProjectMaintenance)
    else Ok(s.project.value.generation)
  }

  function WithStatus(s: State, status: Status): State {
    if s.project.None? then s else s.(project := Some(s.project.value.(status := status)))
  }

  predicate ActiveJob(j: Job) {
    j.status == Queued || j.status == Running
  }

  predicate HasActiveJob(s: State) {
    exists id :: id in s.jobs && ActiveJob(s.jobs[id])
  }

  /** The job is running and leased under `token`. */
  predicate Holds(s: State, job: Uuid, token: Uuid) {
    job in s.jobs && s.jobs[job].status == Running && s.jobs[job].lease == Some(token)
  }

  // ---- Push ----

  function StatusCode(f: Failure): int {
    match f
    case MaintenanceFailure => 423
    case GenerationFailure(_, _) => 409
    case BootstrapFailure => 409
  }

  /** The failure stored under an idempotency key, for the errors that are stored. */
  function PushFailure(e: Error): Option<Failure> {
    match e
    case ProjectMaintenance => Some(MaintenanceFailure)
    case GenerationMismatch(expected, actual) => Some(GenerationFailure(expected, actual))
    case BootstrapRequired => Some(BootstrapFailure)
    case _ => None
  }

  function WithoutExpired(s: State, k: RequestKey): map<RequestKey, Record> {
    if k in s.records && s.records[k].expiresAt <= s.now then s.records - {k} else s.records
  }

  function Refuse(s: State, k: RequestKey, hash: Hash, e: Error): (State, PushReply) {
    if PushFailure(e).None? then (s, Refused(e))
    else
      (s.(records := WithoutExpired(s, k)[k := Record(hash, Refusal(PushFailure(e).value), s.now + RECORD_LIFETIME)]),
       Refused(e))
  }

  function Replay(r: Record): PushReply {
    match r.outcome
    case Success(generation, results) => Pushed(generation, results, true)
    case Refusal(f) => Refused(IdempotencyReplay(f, StatusCode(f)))
  }

  function PushTx(s: State, device: Uuid, generation: int, key: string, hash: Hash, items: seq<NewRevision>)
    : (State, PushReply)
  {
    var k := RequestKey(device, key);
    if k in WithoutExpired(s, k) then
      (s, if s.records[k].hash == hash then Replay(s.records[k]) else Refused(IdempotencyConflict))
    else
      match RequireActive(s)
      case Err(e) => Refuse(s, k, hash, e)
      case Ok(actual) =>
        if generation != actual then Refuse(s, k, hash, GenerationMismatch(generation, actual))
        else if Completion(device, actual) !in s.completions then Refuse(s, k, hash, BootstrapRequired)
        else
          match PushBatch(Batch(s.t, s.nextId, []), s.payloads, device, items)
          case Err(e) => (s, Refused(e))
          case Ok(b) =>
            (s.(t := b.t, nextId := b.nextId,
                records := WithoutExpired(s, k)[k := Record(hash, Success(actual, b.results), s.now + RECORD_LIFETIME)]),
             Pushed(actual, b.results, false))
  }

  // ---- Pull and bootstrap ----

  ghost function PullTx(s: State, generation: int, after: int, limit: nat): Result<PullReply, Error>
    requires Logged(s.t)
  {
    match RequireActive(s)
    case Err(e) => Err(e)
    case Ok(actual) =>
      if generation != actual then Err(GenerationMismatch(generation, actual))
      else if after < 0 || after > s.t.changeSeq then Err(NotFound)
      else
        var page := PullRows(Entries(s.t), after, limit);
        Ok(PullReply(actual, page, NextSequence(page, after)))
  }

  ghost function PrepareManifest(s: State, order: seq<ObjectId>): Result<Manifest, Error>
    requires Logged(s.t) && Lists(order, Latest(Entries(s.t)).Keys)
  {
    match RequireActive(s)
    case Err(e) => Err(e)
    case Ok(actual) => Ok(Manifest(actual, s.t.changeSeq, InOrder(Latest(Entries(s.t)), order), 0))
  }

  function RecordManifest(s: State, id: Uuid, m: Manifest): (State, Result<(), Error>) {
    if s.project.None? then (s, Err(Database))
    else if id in s.manifests then (s, Err(Conflict))
    else (s.(manifests := s.manifests[id := m.(expiresAt := s.now + MANIFEST_LIFETIME)]), Ok(()))
  }

  function ManifestPageTx(s: State, device: Uuid, id: Uuid, offset: int, limit: int)
    : (State, Result<BootstrapReply, Error>)
  {
    match RequireActive(s)
    case Err(e) => (s, Err(e))
    case Ok(actual) =>
      if id !in s.manifests || s.manifests[id].expiresAt <= s.now then (s, Err(NotFound))
      else
        var m := s.manifests[id];
        if m.generation != actual then (s, Err(GenerationMismatch(m.generation, actual)))
        else if m.sequence > s.t.changeSeq || offset < 0 then (s, Err(NotFound))
        else
          var page := ManifestPage(m.items, offset, if limit < 0 then 0 else limit);
          (if page.hasMore then s
           else s.(completions := s.completions[Completion(device, actual) := m.sequence]),
           Ok(BootstrapReply(actual, m.sequence, page)))
  }

  // ---- Snapshots ----

  function SnapshotTx(s: State, order: seq<ObjectId>): (State, Result<Uuid, Error>)
    requires forall o :: o in order ==> o in HeadRows(s.t)
  {
    match RequireActive(s)
    case Err(e) => (s, Err(e))
    case Ok(actual) =>
      var snapshot := Snapshot(actual, s.t.changeSeq, InOrder(HeadRows(s.t), order), Pending, s.now);
      (s.(snapshots := s.snapshots[s.nextId := snapshot], nextId := s.nextId + 1), Ok(s.nextId))
  }

  function RecordSnapshotTx(s: State, id: Uuid): (State, Result<(), Error>) {
    if s.project.None? || s.project.value.status == Disabled || s.project.value.status == Deleting
      || id !in s.snapshots || s.snapshots[id].status != Pending
    then (s, Err(NotFound))
    else (s.(snapshots := s.snapshots[id := s.snapshots[id].(status := Ready)]), Ok(()))
  }

  function ExpireSnapshotsTx(s: State, olderThan: Time): State {
    s.(snapshots := map id | id in s.snapshots ::
      if s.snapshots[id].status == Pending && s.snapshots[id].createdAt < olderThan
      then s.snapshots[id].(status := Stale) else s.snapshots[id])
  }

  // ---- Restore jobs ----

  function NewJob(target: Target, now: Time): Job {
    Job(target, Queued, None, None, None, 0, 0, 0, now, None, 0, false)
  }

  function InsertJob(s: State, target: Target): (State, Result<Uuid, Error>) {
    if target.SnapshotTarget? && !(target.snapshot in s.snapshots && s.snapshots[target.snapshot].status == Ready)
    then (s, Err(NotFound))
    else (s.(jobs := s.jobs[s.nextId := NewJob(target, s.now)], nextId := s.nextId + 1), Ok(s.nextId))
  }

  /** `enqueue_restore`, after exactly one target form was checked to be present. */
  function EnqueueTx(s: State, target: Target): (State, Result<Uuid, Error>) {
    if target.SequenceTarget? && target.sequence < 0 then (s, Err(InvalidRestoreTarget))
    else
      match RequireActive(s)
      case Err(e) => (s, Err(e))
      case Ok(_) =>
        if HasActiveJob(s) then (s, Err(Conflict))
        else if target.SequenceTarget? && target.sequence > s.t.changeSeq then (s, Err(InvalidRestoreTarget))
        else InsertJob(s, target)
  }

  function AdminEnqueueTx(s: State, target: Target): (State, Result<Uuid, Error>) {
    if target.SequenceTarget? && target.sequence < 0 then (s, Err(InvalidRestoreTarget))
    else if s.project.None? then (s, Err(NotFound))
    else if !StatusIs(s, Active) || (target.SequenceTarget? && target.sequence > s.t.changeSeq)
    then (s, Err(InvalidRestoreTarget))
    else if HasActiveJob(s) then (s, Err(Conflict))
    else InsertJob(s, target)
  }

  /** The rows the claim query selects. */
  predicate Claimable(s: State, job: Uuid) {
    job in s.jobs &&
    (|| (s.jobs[job].status == Queued && s.jobs[job].runAfter <= s.now)
     || (s.jobs[job].status == Running && s.jobs[job].leaseExpires < s.now))
  }

  predicate ClaimAllowed(s: State, j: Job) {
    StatusIs(s, Maintenance) || (j.status == Queued && StatusIs(s, Active))
  }

  function ClaimedJob(s: State, j: Job): Job
    requires s.project.Some?
  {
    j.(status := Running,
       generationBefore := if j.generationBefore.Some? then j.generationBefore else Some(s.project.value.generation),
       lease := Some(s.nextId),
       leaseExpires := s.now + LEASE_SECONDS)
  }

  /** Claims the selected row: a queued job enters maintenance, an expired lease needs it. */
  function ClaimTx(s: State, job: Uuid): (State, Result<Uuid, Error>)
    requires Claimable(s, job)
  {
    if ClaimAllowed(s, s.jobs[job]) then
      (s.(project := Some(Project(Maintenance, s.project.value.generation)),
          jobs := s.jobs[job := ClaimedJob(s, s.jobs[job])],
          nextId := s.nextId + 1),
       Ok(s.nextId))
    else
      (s.(jobs := s.jobs[job := s.jobs[job].(status := Failed)]), Err(ProjectMaintenance))
  }

  function CreatePreSnapshotTx(s: State, job: Uuid, token: Uuid, order: seq<ObjectId>): (State, Result<Uuid, Error>)
    requires forall o :: o in order ==> o in HeadRows(s.t)
  {
    if !Holds(s, job, token) || s.project.None? then (s, Err(NotFound))
    else if s.jobs[job].cancelRequested then (s, Err(RestoreCancelled))
    else
      var snapshot := Snapshot(s.project.value.generation, s.t.changeSeq, InOrder(HeadRows(s.t), order), Pending, s.now);
      (s.(snapshots := s.snapshots[s.nextId := snapshot],
          jobs := s.jobs[job := s.jobs[job].(preSnapshot := Some(s.nextId))],
          nextId := s.nextId + 1),
       Ok(s.nextId))
  }

  function MarkSnapshotReadyTx(s: State, job: Uuid, token: Uuid, id: Uuid): State {
    if Holds(s, job, token) && id in s.snapshots && s.snapshots[id].status == Pending
    then s.(snapshots := s.snapshots[id := s.snapshots[id].(status := Ready)])
    else s
  }

  function RenewLeaseTx(s: State, job: Uuid, token: Uuid): (State, Result<(), Error>) {
    if !Holds(s, job, token) then (s, Err(Conflict))
    else (s.(jobs := s.jobs[job := s.jobs[job].(leaseExpires := s.now + LEASE_SECONDS)]), Ok(()))
  }

  function CancelWithLeaseTx(s: State, job: Uuid, token: Uuid): (State, Result<(), Error>) {
    if !Holds(s, job, token) then (s, Err(NotFound))
    else if !s.jobs[job].cancelRequested then (s, Err(Conflict))
    else
      var cancelled := s.(jobs := s.jobs[job := s.jobs[job].(status := Cancelled, lease := None)]);
      (if StatusIs(s, Maintenance) then WithStatus(cancelled, Active) else cancelled, Ok(()))
  }

  /** Requeues a transient failure; the third one fails the job.  Reports whether it was requeued. */
  function RetryTx(s: State, job: Uuid, token: Uuid): (State, bool) {
    if !Holds(s, job, token) then (s, false)
    else
      var j := s.jobs[job];
      var again := j.attempts + 1 < MAX_ATTEMPTS;
      (s.(jobs := s.jobs[job := j.(
            attempts := j.attempts + 1,
            status := if again then Queued else Failed,
            runAfter := s.now + RETRY_SECONDS,
            lease := None)]),
       again)
  }

  function CancelTx(s: State, job: Uuid): (State, Result<(), Error>) {
    if job !in s.jobs then (s, Err(NotFound))
    else
      match s.jobs[job].status
      case Queued => (s.(jobs := s.jobs[job := s.jobs[job].(status := Cancelled)]), Ok(()))
      case Running => (s.(jobs := s.jobs[job := s.jobs[job].(cancelRequested := true)]), Ok(()))
      case _ => (s, Err(Conflict))
  }

  function ReopenTx(s: State): (State, Result<(), Error>) {
    if s.project.None? then (s, Err(NotFound))
    else if !StatusIs(s, Maintenance) then (s, Err(RestoreNotReopenable))
    else if !(exists id :: id in s.jobs && s.jobs[id].status == Failed) then (s, Err(RestoreNotReopenable))
    else (WithStatus(s, Active), Ok(()))
  }

  function DisableTx(s: State): (State, Result<(), Error>) {
    if s.project.None? then (s, Err(NotFound)) else (WithStatus(s, Disabled), Ok(()))
  }

  // ---- Executing a restore ----

  function ItemsOf(rows: seq<Revision>): (items: seq<Item>)
    ensures |items| == |rows|
    ensures forall i :: 0 <= i < |rows| ==> items[i] == ItemOf(rows[i])
  {
    seq(|rows|, i requires 0 <= i < |rows| => ItemOf(rows[i]))
  }

  function ItemsOfLog(rows: seq<LogRow>): (items: seq<Item>)
    ensures |items| == |rows|
    ensures forall i :: 0 <= i < |rows| ==> items[i] == ItemOf(rows[i].rev)
  {
    seq(|rows|, i requires 0 <= i < |rows| => ItemOf(rows[i].rev))
  }

  /** The orders fit the queries the restore runs. */
  ghost predicate OrdersFit(s: State, job: Uuid, ranked: seq<ObjectId>, order: seq<ObjectId>) {
    && Logged(s.t)
    && Lists(order, HeadRows(s.t).Keys)
    && (job in s.jobs && s.jobs[job].target.SequenceTarget? ==>
      Lists(ranked, Latest(Upto(Entries(s.t), s.jobs[job].target.sequence)).Keys))
  }

  ghost function ResolveTarget(s: State, target: Target, ranked: seq<ObjectId>): Result<seq<Item>, Error>
    requires Logged(s.t)
    requires target.SequenceTarget? ==> Lists(ranked, Latest(Upto(Entries(s.t), target.sequence)).Keys)
  {
    match target
    case SnapshotTarget(id) =>
      if id in s.snapshots && s.snapshots[id].status == Ready then Ok(ItemsOf(s.snapshots[id].items)) else Err(NotFound)
    case SequenceTarget(n) =>
      Ok(ItemsOfLog(InOrder(Latest(Upto(Entries(s.t), n)), ranked)))
  }

  ghost function ExecuteTx(s: State, job: Uuid, token: Uuid, ranked: seq<ObjectId>, order: seq<ObjectId>)
    : (State, Result<(), Error>)
    requires OrdersFit(s, job, ranked, order)
  {
    if !Holds(s, job, token) then (s, Err(NotFound))
    else if s.jobs[job].cancelRequested then (s, Err(RestoreCancelled))
    else if !StatusIs(s, Maintenance) then (s, Err(ProjectMaintenance))
    else
      match ResolveTarget(s, s.jobs[job].target, ranked)
      case Err(e) => (s, Err(e))
      case Ok(target) =>
        match RestoreItems(Progress(s.t, s.nextId, 0, 0), s.payloads, HeadRows(s.t),
                           WithAbsent(target, HeadRows(s.t), order), s.now)
        case Err(e) => (s, Err(e))
        case Ok(q) => (FinishRestore(s, job, q), Ok(()))
  }

  /** The last statements of a restore: a new generation, an active project, a succeeded job. */
  function FinishRestore(s: State, job: Uuid, q: Progress): State
    requires job in s.jobs && s.project.Some?
  {
    var generation := s.project.value.generation + 1;
    s.(project := Some(Project(Active, generation)),
       t := q.t,
       nextId := q.nextId,
       jobs := s.jobs[job := s.jobs[job].(
         status := Succeeded,
         generationAfter := Some(generation),
         objects := q.objects,
         tombstones := q.tombstones,
         lease := None)])
  }

  // ---- Payload catalogue ----

  function RegisterPayloadTx(s: State, hash: Hash, size: int, essence: string): (State, Result<(), Error>) {
    match RequireActive(s)
    case Err(e) => (s, Err(e))
    case Ok(_) =>
      if hash in s.payloads then (s, Ok(()))
      else (s.(payloads := s.payloads[hash := Payload(s.nextId, size, essence, s.now)], nextId := s.nextId + 1), Ok(()))
  }

  predicate Referenced(s: State, payload: Uuid) {
    exists id :: id in s.t.revisions && s.t.revisions[id].payload == Some(payload)
  }

  /** The catalogue half of garbage collection: an old row no revision uses is removed. */
  function CollectPayloadTx(s: State, hash: Hash, olderThan: Time): State {
    if hash in s.payloads && s.payloads[hash].createdAt < olderThan && !Referenced(s, s.payloads[hash].id)
    then s.(payloads := s.payloads - {hash})
    else s
  }

  // ---- Expiry and purge ----

  function ExpireRecordsTx(s: State, reached: set<RequestKey>): State {
    s.(records := map k | k in s.records && !(k in reached && s.records[k].expiresAt <= s.now) :: s.records[k])
  }

  function ExpireManifestsTx(s: State, reached: set<Uuid>): State {
    s.(manifests := map k | k in s.manifests && !(k in reached && s.manifests[k].expiresAt <= s.now) :: s.manifests[k])
  }

  function EnqueuePurgeTx(s: State): (State, Result<(), Error>) {
    if s.project.None? then (s, Err(NotFound))
    else if !StatusIs(s, Active) && !StatusIs(s, Disabled) then (s, Err(Conflict))
    else if HasActiveJob(s) then (s, Err(Conflict))
    else (WithStatus(s, Deleting), Ok(()))
  }

  /** The request for an account purge closes the account's projects, from maintenance too. */
  function EnqueueAccountPurgeTx(s: State): (State, Result<(), Error>) {
    if HasActiveJob(s) then (s, Err(Conflict)) else (WithStatus(s, Deleting), Ok(()))
  }

  /** Every row of the project is removed. */
  function Removed(s: State): State {
    State(s.now, s.nextId, None, EmptyTables, map[], map[], map[], map[], map[], map[])
  }

  /** The database half of a project purge; that of an account purge asks nothing of the project. */
  function DetachTx(s: State): State {
    if StatusIs(s, Deleting) then Removed(s) else s
  }
}
