/** The running service: the database, the restore workers, the requests in progress and the
  * devices, as one state that moves one transaction at a time.
  *
  * A worker is a program counter over `process_restore_jobs`.  Every call it makes may be
  * answered, may commit without the answer arriving, or may not happen at all, and a worker may
  * stop between any two calls.
  */
module Service {
  import opened Basics
  import opened ChangeLog
  import opened Push
  import opened Replica
  import opened RestoreLoop
  import opened Transactions

  datatype Pc =
    | Idle
    | Claimed(job: Uuid, token: Uuid)
    | Snapped(job: Uuid, token: Uuid, snapshot: Uuid)
    | Renewed(job: Uuid, token: Uuid, snapshot: Uuid)
    | Stored(job: Uuid, token: Uuid, snapshot: Uuid)
    | Marked(job: Uuid, token: Uuid, snapshot: Uuid)
    | Armed(job: Uuid, token: Uuid, snapshot: Uuid)
    | Cancelling(job: Uuid, token: Uuid)
    | Retrying(job: Uuid, token: Uuid)
  {
    predicate HasSnapshot() {
      Snapped? || Renewed? || Stored? || Marked? || Armed?
    }
  }

  /** A device between requests: what it holds, and the claims of the token it was last given. */
  datatype Device =
    | Fresh
    | Loading(manifest: Uuid, offset: int, received: seq<LogRow>)
    | Synced(generation: int, cursor: int, copy: Copy)

  /** `prepared` holds the manifests that requests have built but perhaps not recorded yet;
    * `takenUnder` remembers the lease token each pre-restore snapshot was taken under. */
  datatype System = System(
    db: State,
    workers: map<int, Pc>,
    prepared: map<Uuid, Manifest>,
    devices: map<Uuid, Device>,
    takenUnder: map<Uuid, Uuid>)

  /** The transactions that touch nothing but the database. */
  datatype Call =
    | Wait(seconds: nat)
    | PushRequest(device: Uuid, generation: int, key: string, hash: Hash, items: seq<NewRevision>)
    | TakeSnapshot(order: seq<ObjectId>)
    | RecordSnapshot(snapshot: Uuid)
    | ExpireSnapshots(olderThan: Time)
    | Enqueue(target: Target)
    | AdminEnqueue(target: Target)
    | CancelRestore(job: Uuid)
    | Reopen
    | Disable
    | RegisterPayload(content: Hash, size: int, essence: string)
    | CollectPayload(content: Hash, olderThan: Time)
    | ExpireRecords(keys: set<RequestKey>)
    | ExpireManifests(manifests: set<Uuid>)
    | EnqueuePurge
    | Detach
    | EnqueueAccountPurge
    | DetachAccount

  /** `OtherPage` is a bootstrap page whose answer the device does not follow: one that was lost, or
    * one asked for with a page token the device was not itself given. */
  datatype Event =
    | Calls(call: Call)
    | PrepareBootstrap(order: seq<ObjectId>)
    | RecordBootstrap(manifest: Uuid)
    | FirstPage(device: Uuid, manifest: Uuid, limit: int)
    | NextPage(device: Uuid, limit: int)
    | OtherPage(device: Uuid, manifest: Uuid, offset: int, limit: int)
    | PullChanges(device: Uuid, pageSize: nat)
    | Claim(worker: int, job: Uuid, fate: Fate)
    | Work(worker: int, fate: Fate, ranked: seq<ObjectId>, order: seq<ObjectId>)
    | Crash(worker: int)

  function PcOf(y: System, w: int): Pc {
    if w in y.workers then y.workers[w] else Idle
  }

  function DeviceOf(y: System, d: Uuid): Device {
    if d in y.devices then y.devices[d] else Fresh
  }

  // ---- Database calls ----

  ghost predicate CallFits(s: State, c: Call) {
    c.TakeSnapshot? ==> Lists(c.order, HeadRows(s.t).Keys)
  }

  ghost function Called(s: State, c: Call): State
    requires CallFits(s, c)
  {
    match c
    case Wait(seconds) => s.(now := s.now + seconds)
    case PushRequest(device, generation, key, hash, items) => PushTx(s, device, generation, key, hash, items).0
    case TakeSnapshot(order) => SnapshotTx(s, order).0
    case RecordSnapshot(id) => RecordSnapshotTx(s, id).0
    case ExpireSnapshots(olderThan) => ExpireSnapshotsTx(s, olderThan)
    case Enqueue(target) => EnqueueTx(s, target).0
    case AdminEnqueue(target) => AdminEnqueueTx(s, target).0
    case CancelRestore(job) => CancelTx(s, job).0
    case Reopen => ReopenTx(s).0
    case Disable => DisableTx(s).0
    case RegisterPayload(content, size, essence) => RegisterPayloadTx(s, content, size, essence).0
    case CollectPayload(content, olderThan) => CollectPayloadTx(s, content, olderThan)
    case ExpireRecords(keys) => ExpireRecordsTx(s, keys)
    case ExpireManifests(manifests) => ExpireManifestsTx(s, manifests)
    case EnqueuePurge => EnqueuePurgeTx(s).0
    case Detach => DetachTx(s)
    case EnqueueAccountPurge => EnqueueAccountPurgeTx(s).0
    case DetachAccount => Removed(s)
  }

  // ---- Workers ----

  function ClaimCall(s: State, job: Uuid, fate: Fate): (State, Pc)
    requires Claimable(s, job)
  {
    var r := ClaimTx(s, job);
    (Committed(s, r.0, fate), if fate == Answered && r.1.Ok? then Claimed(job, r.1.value) else Idle)
  }

  /** What the worker does next, one call of `process_restore_jobs`. */
  ghost function WorkerCall(s: State, pc: Pc, fate: Fate, ranked: seq<ObjectId>, order: seq<ObjectId>): (State, Pc)
    requires pc != Idle && OrdersFit(s, pc.job, ranked, order)
  {
    match pc
    case Claimed(job, token) =>
      var r := CreatePreSnapshotTx(s, job, token, order);
      (Committed(s, r.0, fate),
       if fate != Answered then Retrying(job, token)
       else if r.1.Ok? then Snapped(job, token, r.1.value)
       else if r.1.error == RestoreCancelled then Cancelling(job, token)
       else Retrying(job, token))
    case Snapped(job, token, snapshot) =>
      var r := RenewLeaseTx(s, job, token);
      (Committed(s, r.0, fate), if fate == Answered && r.1.Ok? then Renewed(job, token, snapshot) else Idle)
    case Renewed(job, token, snapshot) =>
      (s, if fate == Answered then Stored(job, token, snapshot) else Retrying(job, token))
    case Stored(job, token, snapshot) =>
      (Committed(s, MarkSnapshotReadyTx(s, job, token, snapshot), fate),
       if fate == Answered then Marked(job, token, snapshot) else Idle)
    case Marked(job, token, snapshot) =>
      var r := RenewLeaseTx(s, job, token);
      (Committed(s, r.0, fate), if fate == Answered && r.1.Ok? then Armed(job, token, snapshot) else Idle)
    case Armed(job, token, _) =>
      var r := ExecuteTx(s, job, token, ranked, order);
      (Committed(s, r.0, fate),
       if fate != Answered then Retrying(job, token)
       else if r.1.Ok? then Idle
       else if r.1.error == RestoreCancelled then Cancelling(job, token)
       else Retrying(job, token))
    case Cancelling(job, token) =>
      (Committed(s, CancelWithLeaseTx(s, job, token).0, fate), Idle)
    case Retrying(job, token) =>
      (Committed(s, RetryTx(s, job, token).0, fate), Idle)
  }

  // ---- Devices ----

  /** A device applies an answered bootstrap page: it keeps the page token while there is more,
    * and the pull cursor of the manifest's sequence at the end. */
  function Received(id: Uuid, offset: int, received: seq<LogRow>, r: BootstrapReply): Device {
    var rows := received + r.page.records;
    if r.page.hasMore then Loading(id, offset + |r.page.records|, rows)
    else Synced(r.generation, r.sequence, Apply(map[], rows))
  }

  // ---- Steps of the service ----

  ghost predicate CallHappens(y: System, call: Call, z: System) {
    CallFits(y.db, call) && z == y.(db := Called(y.db, call))
  }

  ghost predicate PrepareHappens(y: System, order: seq<ObjectId>, z: System) {
    && Logged(y.db.t) && Lists(order, Latest(Entries(y.db.t)).Keys)
    && var m := PrepareManifest(y.db, order);
       z == if m.Ok? then y.(db := y.db.(nextId := y.db.nextId + 1), prepared := y.prepared[y.db.nextId := m.value]) else y
  }

  ghost predicate RecordHappens(y: System, id: Uuid, z: System) {
    id in y.prepared && z == y.(db := RecordManifest(y.db, id, y.prepared[id]).0)
  }

  ghost predicate PageHappens(y: System, device: Uuid, id: Uuid, offset: int, received: seq<LogRow>, limit: int, z: System) {
    var r := ManifestPageTx(y.db, device, id, offset, limit);
    z == y.(db := r.0,
            devices := if r.1.Ok? then y.devices[device := Received(id, offset, received, r.1.value)] else y.devices)
  }

  ghost predicate OtherPageHappens(y: System, device: Uuid, id: Uuid, offset: int, limit: int, z: System) {
    z == y.(db := ManifestPageTx(y.db, device, id, offset, limit).0)
  }

  ghost predicate PullHappens(y: System, device: Uuid, pageSize: nat, z: System) {
    var d := DeviceOf(y, device);
    && d.Synced? && Logged(y.db.t)
    && var r := PullTx(y.db, d.generation, d.cursor, pageSize);
       z == if r.Ok?
            then y.(devices := y.devices[device :=
              Synced(r.value.generation, r.value.nextSequence, Apply(d.copy, r.value.page.records))])
            else y
  }

  ghost predicate ClaimHappens(y: System, w: int, job: Uuid, fate: Fate, z: System) {
    && PcOf(y, w) == Idle && Claimable(y.db, job)
    && var r := ClaimCall(y.db, job, fate);
       z == y.(db := r.0, workers := y.workers[w := r.1])
  }

  ghost predicate WorkHappens(y: System, w: int, fate: Fate, ranked: seq<ObjectId>, order: seq<ObjectId>, z: System) {
    var pc := PcOf(y, w);
    && pc != Idle && OrdersFit(y.db, pc.job, ranked, order)
    && var r := WorkerCall(y.db, pc, fate, ranked, order);
       z == y.(db := r.0, workers := y.workers[w := r.1],
               takenUnder := if r.1.Snapped? then y.takenUnder[r.1.snapshot := pc.token] else y.takenUnder)
  }

  ghost predicate Moves(y: System, e: Event, z: System) {
    match e
    case Calls(call) => CallHappens(y, call, z)
    case PrepareBootstrap(order) => PrepareHappens(y, order, z)
    case RecordBootstrap(id) => RecordHappens(y, id, z)
    case FirstPage(device, id, limit) => PageHappens(y, device, id, 0, [], limit, z)
    case NextPage(device, limit) =>
      var d := DeviceOf(y, device);
      d.Loading? && PageHappens(y, device, d.manifest, d.offset, d.received, limit, z)
    case OtherPage(device, id, offset, limit) => OtherPageHappens(y, device, id, offset, limit, z)
    case PullChanges(device, pageSize) => PullHappens(y, device, pageSize, z)
    case Claim(w, job, fate) => ClaimHappens(y, w, job, fate, z)
    case Work(w, fate, ranked, order) => WorkHappens(y, w, fate, ranked, order, z)
    case Crash(w) => z == y.(workers := y.workers[w := Idle])
  }

  const EmptyState := State(0, 0, Some(Project(Active, 1)), EmptyTables, map[], map[], map[], map[], map[], map[])

  /** A new project, before anything has called. */
  predicate Starts(y: System) {
    && y.db == EmptyState.(now := y.db.now, nextId := y.db.nextId)
    && y.workers == map[] && y.prepared == map[] && y.devices == map[] && y.takenUnder == map[]
  }

  /** A run: every consecutive pair of systems is one event apart. */
  ghost predicate IsRun(run: seq<System>, events: seq<Event>) {
    && |run| == |events| + 1
    && Starts(run[0])
    && (forall i :: 0 <= i < |events| ==> Moves(run[i], events[i], run[i + 1]))
  }
}
