/** The invariant of the running service, kept by every event. */
module Safety {
  import opened Basics
  import opened ChangeLog
  import opened Push
  import opened Replica
  import opened RestoreLoop
  import opened Transactions
  import opened Invariants
  import opened Service

  // ---- The invariant ----

  /** The job's pre-restore snapshot is `x`, and `x` lists exactly the current heads. */
  ghost predicate Frozen(s: State, job: Uuid, x: Uuid)
    requires Logged(s.t)
  {
    && job in s.jobs && s.jobs[job].preSnapshot == Some(x)
    && x in s.snapshots && s.snapshots[x].sequence == s.t.changeSeq
    && s.jobs[job].generationBefore == Some(s.snapshots[x].generation)
    && ListsRows(s.snapshots[x].items, Latest(Entries(s.t)))
  }

  /** A worker past its snapshot took it under its own token, and as long as it holds the lease
    * of a project in maintenance, the snapshot lists the current heads. */
  ghost predicate WorkerOk(s: State, pc: Pc, taken: map<Uuid, Uuid>)
    requires Logged(s.t)
  {
    && (pc != Idle ==> pc.token < s.nextId)
    && (pc.HasSnapshot() ==>
      && pc.snapshot in taken && taken[pc.snapshot] == pc.token
      && (Holds(s, pc.job, pc.token) && StatusIs(s, Maintenance) ==> Frozen(s, pc.job, pc.snapshot)))
  }

  ghost predicate WorkersOk(y: System)
    requires Logged(y.db.t)
  {
    && (forall w: int :: WorkerOk(y.db, PcOf(y, w), y.takenUnder))
    && (forall v: int, w: int :: v != w && PcOf(y, v) != Idle && PcOf(y, w) != Idle ==> PcOf(y, v).token != PcOf(y, w).token)
    && (forall x :: x in y.takenUnder ==> x < y.db.nextId)
  }

  ghost predicate SameManifest(a: Manifest, b: Manifest) {
    a.items == b.items && a.sequence == b.sequence && a.generation == b.generation
  }

  /** Every recorded manifest is one that a request prepared, frozen at its sequence. */
  ghost predicate PreparedOk(s: State, prepared: map<Uuid, Manifest>)
    requires Logged(s.t)
  {
    && (forall id :: id in prepared ==> id < s.nextId)
    && (forall id :: id in s.manifests ==> id in prepared && SameManifest(s.manifests[id], prepared[id]))
    && (s.project.Some? ==>
      forall id :: id in prepared ==> ManifestOk(prepared[id], Entries(s.t), s.project.value.generation))
  }

  /** A device in the middle of a bootstrap has received the first `offset` items of its manifest;
    * a synchronized one holds the newest rows up to its cursor. */
  ghost predicate DeviceOk(s: State, d: Device, prepared: map<Uuid, Manifest>)
    requires Logged(s.t)
  {
    match d
    case Fresh => true
    case Loading(id, offset, received) =>
      && id in prepared && 0 <= offset < |prepared[id].items|
      && received == prepared[id].items[..offset]
    case Synced(_, cursor, copy) =>
      s.project.Some? ==> 0 <= cursor <= s.t.changeSeq && copy == Latest(Entries(s.t)[..cursor])
  }

  ghost predicate DevicesOk(y: System)
    requires Logged(y.db.t)
  {
    forall d :: d in y.devices ==> DeviceOk(y.db, y.devices[d], y.prepared)
  }

  ghost predicate SystemOk(y: System) {
    DbOk(y.db) && WorkersOk(y) && PreparedOk(y.db, y.prepared) && DevicesOk(y)
  }

  // ---- Database calls ----

  /** What a plain database call leaves alone: no manifest or completion appears, the generation
    * stays, and no job succeeds. */
  ghost predicate Plain(s: State, u: State) {
    && (forall id :: id in u.manifests ==> id in s.manifests && u.manifests[id] == s.manifests[id])
    && (forall c :: c in u.completions ==> c in s.completions)
    && (u.project.Some? ==> s.project.Some? && u.project.value.generation == s.project.value.generation)
    && (forall job :: job in u.jobs && u.jobs[job].status == Succeeded ==> job in s.jobs && s.jobs[job].status == Succeeded)
  }

  lemma {:induction false} EnqueueKeeps(s: State, target: Target)
    requires DbOk(s)
    ensures DbOk(EnqueueTx(s, target).0) && Step(s, EnqueueTx(s, target).0, None)
    ensures DbOk(AdminEnqueueTx(s, target).0) && Step(s, AdminEnqueueTx(s, target).0, None)
  {
    hide DbOk, Step, InsertJob;
    StutterKeeps(s);
    if StatusIs(s, Active) && !HasActiveJob(s) && (target.SequenceTarget? ==> 0 <= target.sequence <= s.t.changeSeq) {
      InsertJobKeeps(s, target);
    }
  }

  lemma {:induction false} RecordSnapshotKeeps(s: State, id: Uuid)
    requires DbOk(s)
    ensures DbOk(RecordSnapshotTx(s, id).0) && Step(s, RecordSnapshotTx(s, id).0, None)
  {
    hide DbOk, Step;
    StutterKeeps(s);
    if id in s.snapshots && s.snapshots[id].status == Pending {
      SnapshotStatusKeeps(s, id, Ready);
    }
  }

  lemma {:induction false} MarkReadyKeeps(s: State, job: Uuid, token: Uuid, id: Uuid)
    requires DbOk(s)
    ensures DbOk(MarkSnapshotReadyTx(s, job, token, id)) && Step(s, MarkSnapshotReadyTx(s, job, token, id), None)
  {
    hide DbOk, Step;
    StutterKeeps(s);
    if id in s.snapshots && s.snapshots[id].status == Pending {
      SnapshotStatusKeeps(s, id, Ready);
    }
  }

  lemma {:induction false} StatusCallsKeep(s: State)
    requires DbOk(s)
    ensures DbOk(ReopenTx(s).0) && Step(s, ReopenTx(s).0, None)
    ensures DbOk(DisableTx(s).0) && Step(s, DisableTx(s).0, None)
    ensures DbOk(EnqueuePurgeTx(s).0) && Step(s, EnqueuePurgeTx(s).0, None)
    ensures DbOk(EnqueueAccountPurgeTx(s).0) && Step(s, EnqueueAccountPurgeTx(s).0, None)
  {
    hide DbOk, Step, WithStatus;
    StutterKeeps(s);
    StatusKeeps(s, Active);
    StatusKeeps(s, Disabled);
    StatusKeeps(s, Deleting);
  }

  lemma {:induction false} CallKeeps(s: State, c: Call)
    requires DbOk(s) && CallFits(s, c)
    ensures DbOk(Called(s, c)) && Step(s, Called(s, c), None)
  {
    hide DbOk, Step, PushTx, EnqueueTx, AdminEnqueueTx, CancelTx, SnapshotTx, RecordSnapshotTx, ReopenTx, EnqueuePurgeTx,
      EnqueueAccountPurgeTx, Removed;
    match c
    case Wait(seconds) => TickKeeps(s, seconds);
    case PushRequest(device, generation, key, hash, items) => PushKeeps(s, device, generation, key, hash, items);
    case TakeSnapshot(order) => SnapshotKeeps(s, order);
    case RecordSnapshot(id) => RecordSnapshotKeeps(s, id);
    case ExpireSnapshots(olderThan) => ExpireSnapshotsKeeps(s, olderThan);
    case Enqueue(target) => EnqueueKeeps(s, target);
    case AdminEnqueue(target) => EnqueueKeeps(s, target);
    case CancelRestore(job) => CancelKeeps(s, job);
    case Reopen => StatusCallsKeep(s);
    case Disable => StatusCallsKeep(s);
    case RegisterPayload(content, size, essence) => RegisterPayloadKeeps(s, content, size, essence);
    case CollectPayload(content, olderThan) => CollectPayloadKeeps(s, content, olderThan);
    case ExpireRecords(keys) => ExpireRecordsKeeps(s, keys);
    case ExpireManifests(manifests) => ExpireManifestsKeeps(s, manifests);
    case EnqueuePurge => StatusCallsKeep(s);
    case Detach => DetachKeeps(s);
    case EnqueueAccountPurge => StatusCallsKeep(s);
    case DetachAccount => RemovedKeeps(s);
  }

  lemma {:induction false} PushIsPlain(s: State, device: Uuid, generation: int, key: string, hash: Hash, items: seq<NewRevision>)
    ensures Plain(s, PushTx(s, device, generation, key, hash, items).0)
  {
    hide PushBatch, WithoutExpired, Replay, Refuse;
    forall k: RequestKey, e: Error ensures Plain(s, Refuse(s, k, hash, e).0) {
      RefuseIsPlain(s, k, hash, e);
    }
  }

  lemma {:induction false} RefuseIsPlain(s: State, k: RequestKey, hash: Hash, e: Error)
    ensures Plain(s, Refuse(s, k, hash, e).0)
  {
    hide WithoutExpired;
  }

  lemma {:induction false} InsertJobIsPlain(s: State, target: Target)
    ensures Plain(s, InsertJob(s, target).0)
  {
  }

  lemma {:induction false} JobRowIsPlain(s: State, job: Uuid, k: Job)
    requires k.status != Succeeded
    ensures Plain(s, s) && Plain(s, s.(jobs := s.jobs[job := k]))
  {
  }

  lemma {:induction false} CancelIsPlain(s: State, job: Uuid)
    ensures Plain(s, CancelTx(s, job).0)
  {
    hide Plain;
    StatusIsPlain(s, Active);
    if job in s.jobs {
      JobRowIsPlain(s, job, s.jobs[job].(status := Cancelled));
      if s.jobs[job].status == Running {
        JobRowIsPlain(s, job, s.jobs[job].(cancelRequested := true));
      }
    }
  }

  lemma {:induction false} StatusIsPlain(s: State, status: Status)
    ensures Plain(s, s) && Plain(s, WithStatus(s, status))
  {
  }

  lemma {:induction false} StatusCallsArePlain(s: State)
    ensures Plain(s, ReopenTx(s).0) && Plain(s, DisableTx(s).0) && Plain(s, EnqueuePurgeTx(s).0)
    ensures Plain(s, EnqueueAccountPurgeTx(s).0)
  {
    hide Plain, WithStatus, HasActiveJob;
    StatusIsPlain(s, Active);
    StatusIsPlain(s, Disabled);
    StatusIsPlain(s, Deleting);
  }

  lemma {:induction false} ExpiryIsPlain(s: State, keys: set<RequestKey>, manifests: set<Uuid>, olderThan: Time)
    ensures Plain(s, ExpireRecordsTx(s, keys)) && Plain(s, ExpireManifestsTx(s, manifests))
    ensures Plain(s, ExpireSnapshotsTx(s, olderThan))
  {
  }

  lemma {:induction false} CatalogueCallsArePlain(s: State, content: Hash, size: int, essence: string, olderThan: Time)
    ensures Plain(s, RegisterPayloadTx(s, content, size, essence).0)
    ensures Plain(s, CollectPayloadTx(s, content, olderThan))
  {
  }

  lemma {:induction false} SnapshotCallsArePlain(s: State, id: Uuid, order: seq<ObjectId>)
    ensures Plain(s, RecordSnapshotTx(s, id).0)
    ensures (forall o :: o in order ==> o in HeadRows(s.t)) ==> Plain(s, SnapshotTx(s, order).0)
  {
    hide InOrder, HeadRows;
  }

  lemma {:induction false} ClockAndDetachArePlain(s: State, seconds: nat)
    ensures Plain(s, s.(now := s.now + seconds)) && Plain(s, DetachTx(s)) && Plain(s, Removed(s))
  {
  }

  lemma {:induction false} CallIsPlain(s: State, c: Call)
    requires CallFits(s, c)
    ensures Plain(s, Called(s, c))
  {
    hide Plain, PushTx, InsertJob, InOrder, HeadRows, CancelTx, ReopenTx, DisableTx, EnqueuePurgeTx, RegisterPayloadTx,
      CollectPayloadTx, ExpireRecordsTx, ExpireManifestsTx, ExpireSnapshotsTx, HasActiveJob, SnapshotTx, RecordSnapshotTx, DetachTx,
      EnqueueAccountPurgeTx, Removed;
    StatusIsPlain(s, Active);
    match c
    case Wait(seconds) => ClockAndDetachArePlain(s, seconds);
    case PushRequest(device, generation, key, hash, items) => PushIsPlain(s, device, generation, key, hash, items);
    case TakeSnapshot(order) => SnapshotCallsArePlain(s, 0, order);
    case RecordSnapshot(id) => SnapshotCallsArePlain(s, id, []);
    case ExpireSnapshots(olderThan) => ExpiryIsPlain(s, {}, {}, olderThan);
    case Enqueue(target) => InsertJobIsPlain(s, target);
    case AdminEnqueue(target) => InsertJobIsPlain(s, target);
    case CancelRestore(job) => CancelIsPlain(s, job);
    case RegisterPayload(content, size, essence) => CatalogueCallsArePlain(s, content, size, essence, 0);
    case CollectPayload(content, olderThan) => CatalogueCallsArePlain(s, content, 0, "", olderThan);
    case ExpireRecords(keys) => ExpiryIsPlain(s, keys, {}, 0);
    case ExpireManifests(manifests) => ExpiryIsPlain(s, {}, manifests, 0);
    case Detach => ClockAndDetachArePlain(s, 0);
    case DetachAccount => ClockAndDetachArePlain(s, 0);
    case _ => StatusCallsArePlain(s);
  }

  // ---- Workers ----

  /** While the lease and the maintenance window last, the frozen snapshot stays the heads. */
  lemma {:induction false} WorkerStays(s: State, u: State, mover: Option<Uuid>, pc: Pc, taken: map<Uuid, Uuid>, later: map<Uuid, Uuid>)
    requires DbOk(s) && Step(s, u, mover)
    requires WorkerOk(s, pc, taken) && (pc != Idle ==> mover != Some(pc.token))
    requires forall x :: x in taken ==> x in later && later[x] == taken[x]
    ensures WorkerOk(u, pc, later)
  {
    hide Linear, HeadsAreLatest, Closed, ListsRows, Latest, CompletionsAtGeneration, RowsStay, SnapshotsOk, TargetsOk,
      BootstrapOk, GenerationOk;
    if pc.HasSnapshot() && Holds(u, pc.job, pc.token) && StatusIs(u, Maintenance) {
      assert Holds(s, pc.job, pc.token) && StatusIs(s, Maintenance) && Frozen(s, pc.job, pc.snapshot);
      assert u.project.Some?;
      assert JobEvolves(s.jobs[pc.job], u.jobs[pc.job], s.nextId);
    }
  }

  /** The pre-restore snapshot lists the heads at the moment it is taken. */
  lemma {:induction false} SnapshotFreezes(s: State, job: Uuid, token: Uuid, order: seq<ObjectId>)
    requires DbOk(s) && Lists(order, HeadRows(s.t).Keys)
    requires CreatePreSnapshotTx(s, job, token, order).1.Ok?
    ensures var r := CreatePreSnapshotTx(s, job, token, order);
      && r.1.value == s.nextId < r.0.nextId
      && Logged(r.0.t) && Frozen(r.0, job, r.1.value)
  {
    hide Linear, HeadsAreLatest, Closed, ListsRows, Latest, SnapshotsOk, TargetsOk, BootstrapOk, GenerationOk, HeadRows;
    HeadRowsListed(s.t, order);
    JobFacts(s, job);
  }

  function MoverOf(pc: Pc): Option<Uuid> {
    if pc.Claimed? then Some(pc.token) else None
  }

  /** Every call a worker makes keeps the database invariants, whatever becomes of it. */
  lemma {:induction false} WorkKeepsDb(s: State, pc: Pc, fate: Fate, ranked: seq<ObjectId>, order: seq<ObjectId>)
    requires DbOk(s) && pc != Idle && OrdersFit(s, pc.job, ranked, order)
    ensures var u := WorkerCall(s, pc, fate, ranked, order).0;
      DbOk(u) && Step(s, u, MoverOf(pc)) && u.manifests == s.manifests && u.completions == s.completions
  {
    hide DbOk, Step, ExecuteTx, CreatePreSnapshotTx, RenewLeaseTx, MarkSnapshotReadyTx, CancelWithLeaseTx, RetryTx, HeadRows, Lists;
    StutterKeeps(s);
    match pc
    case Claimed(job, token) =>
      AnyMover(s, s, token);
      CreatePreSnapshotKeeps(s, job, token, order);
      WorkTouchesNoBootstrap(s, pc, ranked, order);
    case Snapped(job, token, _) => RenewKeeps(s, job, token); WorkTouchesNoBootstrap(s, pc, ranked, order);
    case Renewed(_, _, _) =>
    case Stored(job, token, snapshot) => MarkReadyKeeps(s, job, token, snapshot); WorkTouchesNoBootstrap(s, pc, ranked, order);
    case Marked(job, token, _) => RenewKeeps(s, job, token); WorkTouchesNoBootstrap(s, pc, ranked, order);
    case Armed(job, token, _) => ExecuteKeeps(s, job, token, ranked, order); WorkTouchesNoBootstrap(s, pc, ranked, order);
    case Cancelling(job, token) => CancelWithLeaseKeeps(s, job, token); WorkTouchesNoBootstrap(s, pc, ranked, order);
    case Retrying(job, token) => RetryKeeps(s, job, token); WorkTouchesNoBootstrap(s, pc, ranked, order);
  }

  lemma {:induction false} ExecuteTouchesNoBootstrap(s: State, job: Uuid, token: Uuid, ranked: seq<ObjectId>, order: seq<ObjectId>)
    requires OrdersFit(s, job, ranked, order)
    ensures var u := ExecuteTx(s, job, token, ranked, order).0;
      u.manifests == s.manifests && u.completions == s.completions
  {
    hide RestoreItems, WithAbsent, ResolveTarget, HeadRows, Lists, Latest;
  }

  lemma {:induction false} RenewalTouchesNoBootstrap(s: State, job: Uuid, token: Uuid, x: Uuid)
    ensures var u := RenewLeaseTx(s, job, token).0; u.manifests == s.manifests && u.completions == s.completions
    ensures var u := MarkSnapshotReadyTx(s, job, token, x); u.manifests == s.manifests && u.completions == s.completions
  {
    hide Holds;
  }

  lemma {:induction false} ReleaseTouchesNoBootstrap(s: State, job: Uuid, token: Uuid)
    ensures var u := RetryTx(s, job, token).0; u.manifests == s.manifests && u.completions == s.completions
    ensures var u := CancelWithLeaseTx(s, job, token).0; u.manifests == s.manifests && u.completions == s.completions
  {
    hide Holds;
  }

  lemma {:induction false} WorkTouchesNoBootstrap(s: State, pc: Pc, ranked: seq<ObjectId>, order: seq<ObjectId>)
    requires pc != Idle && OrdersFit(s, pc.job, ranked, order)
    ensures var u := WorkerCall(s, pc, Answered, ranked, order).0;
      u.manifests == s.manifests && u.completions == s.completions
  {
    hide ExecuteTx, RenewLeaseTx, RetryTx, CancelWithLeaseTx, MarkSnapshotReadyTx, HeadRows, Latest, InOrder, Logged;
    match pc
    case Armed(job, token, _) => ExecuteTouchesNoBootstrap(s, job, token, ranked, order);
    case Claimed(_, _) =>
    case Snapped(job, token, x) => RenewalTouchesNoBootstrap(s, job, token, x);
    case Renewed(_, _, _) =>
    case Stored(job, token, x) => RenewalTouchesNoBootstrap(s, job, token, x);
    case Marked(job, token, x) => RenewalTouchesNoBootstrap(s, job, token, x);
    case Cancelling(job, token) => ReleaseTouchesNoBootstrap(s, job, token);
    case Retrying(job, token) => ReleaseTouchesNoBootstrap(s, job, token);
  }

  lemma {:induction false} DbIsLogged(s: State)
    requires DbOk(s)
    ensures Logged(s.t)
  {
  }

  lemma {:induction false} SnapshotMoves(s: State, pc: Pc, fate: Fate, ranked: seq<ObjectId>, order: seq<ObjectId>,
      taken: map<Uuid, Uuid>)
    requires DbOk(s) && pc.Claimed? && OrdersFit(s, pc.job, ranked, order) && pc.token < s.nextId
    ensures var r := WorkerCall(s, pc, fate, ranked, order);
      && Logged(r.0.t)
      && WorkerOk(r.0, r.1, if r.1.Snapped? then taken[r.1.snapshot := pc.token] else taken)
      && r.1 != Idle && r.1.token == pc.token
      && (r.1.Snapped? ==> r.1.snapshot >= s.nextId && r.1.snapshot < r.0.nextId)
  {
    hide DbOk, Frozen, HeadRows, Latest, CreatePreSnapshotTx, LeaseStable, JobsEvolve, SnapshotsStay, RowsStay,
      CompletionsAtGeneration, Logged;
    WorkKeepsDb(s, pc, fate, ranked, order);
    DbIsLogged(WorkerCall(s, pc, fate, ranked, order).0);
    if CreatePreSnapshotTx(s, pc.job, pc.token, order).1.Ok? {
      SnapshotFreezes(s, pc.job, pc.token, order);
    }
  }

  /** After its call a worker is again where it may be. */
  lemma {:induction false} WorkerMoves(s: State, pc: Pc, fate: Fate, ranked: seq<ObjectId>, order: seq<ObjectId>,
      taken: map<Uuid, Uuid>)
    requires DbOk(s) && Logged(s.t) && pc != Idle && OrdersFit(s, pc.job, ranked, order) && WorkerOk(s, pc, taken)
    ensures var r := WorkerCall(s, pc, fate, ranked, order);
      && Logged(r.0.t)
      && WorkerOk(r.0, r.1, if r.1.Snapped? then taken[r.1.snapshot := pc.token] else taken)
      && (r.1 != Idle ==> r.1.token == pc.token)
      && (r.1.Snapped? ==> r.1.snapshot >= s.nextId && r.1.snapshot < r.0.nextId)
  {
    hide DbOk, Step, Frozen, ExecuteTx, RenewLeaseTx, MarkSnapshotReadyTx, CancelWithLeaseTx, RetryTx, CreatePreSnapshotTx,
      HeadRows, Lists, Latest, Logged;
    var r := WorkerCall(s, pc, fate, ranked, order);
    WorkKeepsDb(s, pc, fate, ranked, order);
    DbIsLogged(r.0);
    if pc.Claimed? {
      SnapshotMoves(s, pc, fate, ranked, order, taken);
    } else {
      WorkerStays(s, r.0, None, pc, taken, taken);
    }
  }

  // ---- Manifests and devices ----

  lemma {:induction false} PreparedStays(s: State, u: State, prepared: map<Uuid, Manifest>)
    requires Grows(s, u) && PreparedOk(s, prepared)
    requires forall id :: id in u.manifests ==> id in prepared && SameManifest(u.manifests[id], prepared[id])
    ensures PreparedOk(u, prepared)
  {
    hide Logged, ManifestOk;
    if u.project.Some? {
      FrozenStays(Entries(s.t), Entries(u.t), s.project.value.generation, u.project.value.generation);
    }
  }

  lemma {:induction false} DeviceStays(s: State, u: State, d: Device, prepared: map<Uuid, Manifest>, later: map<Uuid, Manifest>)
    requires Grows(s, u) && DeviceOk(s, d, prepared)
    requires forall id :: id in prepared ==> id in later && later[id] == prepared[id]
    ensures DeviceOk(u, d, later)
  {
    hide Logged, Latest;
    if d.Synced? && u.project.Some? {
      assert Entries(u.t)[..d.cursor] == Entries(s.t)[..d.cursor];
    }
  }

  /** A page of a recorded manifest takes a device one page further, and the last page leaves it
    * with the newest rows at the manifest's sequence. */
  lemma {:induction false} DeviceReceives(s: State, prepared: map<Uuid, Manifest>, device: Uuid, id: Uuid, offset: int,
      received: seq<LogRow>, limit: int)
    requires Logged(s.t) && PreparedOk(s, prepared)
    requires id in prepared ==> 0 <= offset <= |prepared[id].items| && received == prepared[id].items[..offset]
    requires ManifestPageTx(s, device, id, offset, limit).1.Ok?
    ensures var r := ManifestPageTx(s, device, id, offset, limit);
      && Logged(r.0.t)
      && DeviceOk(r.0, Received(id, offset, received, r.1.value), prepared)
      && (!r.1.value.page.hasMore ==> received + r.1.value.page.records == prepared[id].items)
  {
    hide Latest, Logged, ManifestOf, Apply, ManifestPage;
    var m := s.manifests[id];
    var items := prepared[id].items;
    assert SameManifest(m, prepared[id]) && ManifestOk(prepared[id], Entries(s.t), s.project.value.generation);
    ManifestPageIsSlice(items, offset, if limit < 0 then 0 else limit);
    var page := ManifestPage(items, offset, if limit < 0 then 0 else limit);
    assert received + page.records == items[..offset + |page.records|];
    if !page.hasMore {
      assert items[..|items|] == items;
      ManifestCopyIsLatest(items, Entries(s.t), m.sequence);
      assert 0 <= m.sequence <= |Entries(s.t)| by {
        ManifestBounds(items, Entries(s.t), m.sequence);
      }
    }
  }

  lemma {:induction false} ManifestBounds(items: seq<LogRow>, log: seq<Revision>, s: int)
    requires ManifestOf(items, log, s)
    ensures 0 <= s <= |log|
  {
  }

  /** A page of the log takes a synchronized device to the cursor it returns; without more pages
    * the device holds the newest rows of the whole log. */
  lemma {:induction false} DevicePulls(s: State, prepared: map<Uuid, Manifest>, d: Device, pageSize: nat)
    requires Logged(s.t) && d.Synced? && DeviceOk(s, d, prepared)
    requires PullTx(s, d.generation, d.cursor, pageSize).Ok?
    ensures var r := PullTx(s, d.generation, d.cursor, pageSize).value;
      var after := Synced(r.generation, r.nextSequence, Apply(d.copy, r.page.records));
      && DeviceOk(s, after, prepared)
      && d.cursor <= r.nextSequence
      && (r.page.hasMore && pageSize > 0 ==> d.cursor < r.nextSequence)
      && (!r.page.hasMore ==> after.copy == Latest(Entries(s.t)))
  {
    hide Latest, Apply, PullRows, NextSequence;
    PullKeepsCopy(Entries(s.t), d.cursor, pageSize);
  }

  // ---- Events ----

  /** An event that moves only the database, as a call that records no new manifest. */
  lemma {:induction false} DatabaseMoves(y: System, z: System)
    requires SystemOk(y) && DbOk(z.db) && Step(y.db, z.db, None)
    requires z == y.(db := z.db)
    requires forall id :: id in z.db.manifests ==> id in y.prepared && SameManifest(z.db.manifests[id], y.prepared[id])
    ensures SystemOk(z)
  {
    hide DbOk, WorkerOk, DeviceOk, JobsEvolve, SnapshotsStay, RowsStay, CompletionsAtGeneration, LeaseStable, Linear, Latest;
    PreparedStays(y.db, z.db, y.prepared);
    forall w: int ensures WorkerOk(z.db, PcOf(z, w), z.takenUnder) {
      WorkerStays(y.db, z.db, None, PcOf(y, w), y.takenUnder, z.takenUnder);
    }
    forall d | d in z.devices ensures DeviceOk(z.db, z.devices[d], z.prepared) {
      DeviceStays(y.db, z.db, y.devices[d], y.prepared, z.prepared);
    }
    assert forall w: int :: PcOf(z, w) == PcOf(y, w);
  }

  lemma {:induction false} DatabaseKeeps(y: System, c: Call, z: System)
    requires SystemOk(y) && CallHappens(y, c, z)
    ensures SystemOk(z)
  {
    hide DbOk, WorkersOk, DevicesOk, Step, Called, CallFits, Logged, ManifestOk;
    CallKeeps(y.db, c);
    CallIsPlain(y.db, c);
    DatabaseMoves(y, z);
  }

  lemma {:induction false} RecordBootstrapKeeps(y: System, id: Uuid, z: System)
    requires SystemOk(y) && RecordHappens(y, id, z)
    ensures SystemOk(z)
  {
    hide DbOk, WorkersOk, DevicesOk, Step, Logged, ManifestOk;
    DbIsLogged(y.db);
    RecordManifestKeeps(y.db, id, y.prepared[id]);
    DatabaseMoves(y, z);
  }

  lemma {:induction false} OtherPageKeeps(y: System, device: Uuid, id: Uuid, offset: int, limit: int, z: System)
    requires SystemOk(y) && OtherPageHappens(y, device, id, offset, limit, z)
    ensures SystemOk(z)
  {
    hide DbOk, WorkersOk, DevicesOk, Step, Logged, ManifestOk, ManifestPage;
    ManifestPageKeeps(y.db, device, id, offset, limit);
    DatabaseMoves(y, z);
  }

  lemma {:induction false} PageKeeps(y: System, device: Uuid, id: Uuid, offset: int, received: seq<LogRow>, limit: int, z: System)
    requires SystemOk(y) && PageHappens(y, device, id, offset, received, limit, z)
    requires id in y.prepared ==> 0 <= offset <= |y.prepared[id].items| && received == y.prepared[id].items[..offset]
    ensures SystemOk(z)
  {
    hide DbOk, WorkersOk, Step, Logged, ManifestOk, ManifestPage, DeviceOk, Received;
    DbIsLogged(y.db);
    var mid := y.(db := z.db);
    ManifestPageKeeps(y.db, device, id, offset, limit);
    DatabaseMoves(y, mid);
    RequestsChange(mid, z);
    if ManifestPageTx(y.db, device, id, offset, limit).1.Ok? {
      DeviceReceives(y.db, y.prepared, device, id, offset, received, limit);
    }
  }

  /** Workers do not depend on the devices or on the manifests being prepared. */
  lemma {:induction false} RequestsChange(y: System, z: System)
    requires Logged(y.db.t) && WorkersOk(y) && z == y.(devices := z.devices, prepared := z.prepared)
    ensures WorkersOk(z)
  {
    hide WorkerOk;
    assert forall w: int :: PcOf(z, w) == PcOf(y, w);
  }

  lemma {:induction false} NextPageKeeps(y: System, device: Uuid, limit: int, z: System)
    requires SystemOk(y) && Moves(y, NextPage(device, limit), z)
    ensures SystemOk(z)
  {
    hide DbOk, WorkersOk, PreparedOk, PageHappens;
    var d := DeviceOf(y, device);
    DbIsLogged(y.db);
    assert DeviceOk(y.db, d, y.prepared);
    PageKeeps(y, device, d.manifest, d.offset, d.received, limit, z);
  }

  lemma {:induction false} PullKeeps(y: System, device: Uuid, pageSize: nat, z: System)
    requires SystemOk(y) && PullHappens(y, device, pageSize, z)
    ensures SystemOk(z)
  {
    hide DbOk, WorkersOk, PreparedOk, DeviceOk, PullTx, Logged;
    var d := DeviceOf(y, device);
    DbIsLogged(y.db);
    RequestsChange(y, z);
    if PullTx(y.db, d.generation, d.cursor, pageSize).Ok? {
      DevicePulls(y.db, y.prepared, d, pageSize);
    }
  }

  lemma {:induction false} CounterKeeps(s: State)
    requires DbOk(s)
    ensures DbOk(s.(nextId := s.nextId + 1)) && Step(s, s.(nextId := s.nextId + 1), None)
  {
    hide Closed, Logged, Linear, HeadsAreLatest, SnapshotOk, ManifestOk;
    OnlyJobsKeeps(s, s.(nextId := s.nextId + 1), None);
  }

  lemma {:induction false} PrepareKeeps(y: System, order: seq<ObjectId>, z: System)
    requires SystemOk(y) && PrepareHappens(y, order, z)
    ensures SystemOk(z)
  {
    hide DbOk, WorkersOk, DeviceOk, Step, Logged, ManifestOf, Lists, InOrder, Latest;
    if z != y {
      var mid := y.(db := z.db);
      CounterKeeps(y.db);
      DatabaseMoves(y, mid);
      OrderedRowsAreManifest(Entries(y.db.t), order);
      forall d | d in z.devices ensures DeviceOk(z.db, z.devices[d], z.prepared) {
        DeviceGainsManifest(mid.db, z.devices[d], mid.prepared, z.prepared);
      }
      RequestsChange(mid, z);
    }
  }

  lemma {:induction false} DeviceGainsManifest(s: State, d: Device, prepared: map<Uuid, Manifest>, later: map<Uuid, Manifest>)
    requires Logged(s.t) && DeviceOk(s, d, prepared)
    requires forall id :: id in prepared ==> id in later && later[id] == prepared[id]
    ensures DeviceOk(s, d, later)
  {
  }

  /** One worker moves, and the database with it. */
  lemma {:induction false} WorkerChanges(y: System, w: int, pc: Pc, mover: Option<Uuid>, z: System)
    requires SystemOk(y) && DbOk(z.db) && Step(y.db, z.db, mover) && Logged(z.db.t)
    requires z == y.(db := z.db, workers := y.workers[w := pc], takenUnder := z.takenUnder)
    requires z.db.manifests == y.db.manifests
    requires WorkerOk(z.db, pc, z.takenUnder)
    requires forall x :: x in y.takenUnder ==> x in z.takenUnder && z.takenUnder[x] == y.takenUnder[x]
    requires forall x :: x in z.takenUnder ==> x < z.db.nextId
    requires mover.Some? ==> PcOf(y, w) != Idle && mover.value == PcOf(y, w).token
    requires pc != Idle ==>
      pc.token >= y.db.nextId || (PcOf(y, w) != Idle && pc.token == PcOf(y, w).token)
    ensures SystemOk(z)
  {
    hide DbOk, WorkerOk, DeviceOk, Logged, JobsEvolve, SnapshotsStay, RowsStay, CompletionsAtGeneration, LeaseStable, ManifestOk;
    PreparedStays(y.db, z.db, y.prepared);
    forall v: int ensures WorkerOk(z.db, PcOf(z, v), z.takenUnder) {
      if v != w {
        assert PcOf(z, v) == PcOf(y, v);
        WorkerStays(y.db, z.db, mover, PcOf(y, v), y.takenUnder, z.takenUnder);
      }
    }
    forall d | d in z.devices ensures DeviceOk(z.db, z.devices[d], z.prepared) {
      DeviceStays(y.db, z.db, y.devices[d], y.prepared, z.prepared);
    }
    TokensStayDistinct(y, w, pc, z);
  }

  lemma {:induction false} TokensStayDistinct(y: System, w: int, pc: Pc, z: System)
    requires Logged(y.db.t) && WorkersOk(y) && z.workers == y.workers[w := pc]
    requires pc != Idle ==>
      pc.token >= y.db.nextId || (PcOf(y, w) != Idle && pc.token == PcOf(y, w).token)
    ensures forall v: int, u: int :: v != u && PcOf(z, v) != Idle && PcOf(z, u) != Idle ==> PcOf(z, v).token != PcOf(z, u).token
  {
    forall v: int ensures PcOf(z, v) == if v == w then pc else PcOf(y, v) {
    }
    forall v: int | PcOf(y, v) != Idle ensures PcOf(y, v).token < y.db.nextId {
      assert WorkerOk(y.db, PcOf(y, v), y.takenUnder);
    }
  }

  lemma {:induction false} CrashKeeps(y: System, w: int, z: System)
    requires SystemOk(y) && z == y.(workers := y.workers[w := Idle])
    ensures SystemOk(z)
  {
    hide DbOk, WorkersOk, DevicesOk, PreparedOk, Step;
    StutterKeeps(y.db);
    DbIsLogged(y.db);
    TakenIsBelow(y);
    WorkerChanges(y, w, Idle, None, z);
  }

  lemma {:induction false} TakenIsBelow(y: System)
    requires Logged(y.db.t) && WorkersOk(y)
    ensures forall x :: x in y.takenUnder ==> x < y.db.nextId
    ensures forall w: int :: PcOf(y, w) != Idle ==> WorkerOk(y.db, PcOf(y, w), y.takenUnder)
  {
  }

  lemma {:induction false} ClaimMoves(y: System, w: int, job: Uuid, fate: Fate, z: System)
    requires SystemOk(y) && ClaimHappens(y, w, job, fate, z)
    ensures SystemOk(z)
  {
    hide DbOk, WorkersOk, DevicesOk, PreparedOk, JobsEvolve, SnapshotsStay, RowsStay, CompletionsAtGeneration, LeaseStable, Logged;
    StutterKeeps(y.db);
    ClaimKeeps(y.db, job);
    DbIsLogged(y.db);
    DbIsLogged(z.db);
    TakenIsBelow(y);
    WorkerChanges(y, w, z.workers[w], None, z);
  }

  lemma {:induction false} WorkKeeps(y: System, w: int, fate: Fate, ranked: seq<ObjectId>, order: seq<ObjectId>, z: System)
    requires SystemOk(y) && WorkHappens(y, w, fate, ranked, order, z)
    ensures SystemOk(z)
  {
    hide DbOk, WorkersOk, DevicesOk, PreparedOk, JobsEvolve, SnapshotsStay, RowsStay, CompletionsAtGeneration, LeaseStable,
      Logged, WorkerCall, Lists, Latest, HeadRows, WorkerOk;
    var pc := PcOf(y, w);
    DbIsLogged(y.db);
    WorkKeepsDb(y.db, pc, fate, ranked, order);
    DbIsLogged(z.db);
    TakenIsBelow(y);
    WorkerMoves(y.db, pc, fate, ranked, order, y.takenUnder);
    WorkerChanges(y, w, z.workers[w], MoverOf(pc), z);
  }

  /** Every event of the service keeps its invariant. */
  lemma {:induction false} EventKeeps(y: System, e: Event, z: System)
    requires SystemOk(y) && Moves(y, e, z)
    ensures SystemOk(z)
  {
    hide SystemOk, CallHappens, PrepareHappens, RecordHappens, PageHappens, OtherPageHappens, PullHappens, ClaimHappens, WorkHappens;
    match e
    case Calls(c) => DatabaseKeeps(y, c, z);
    case PrepareBootstrap(order) => PrepareKeeps(y, order, z);
    case RecordBootstrap(id) => RecordBootstrapKeeps(y, id, z);
    case FirstPage(device, id, limit) => PageKeeps(y, device, id, 0, [], limit, z);
    case NextPage(device, limit) => NextPageKeeps(y, device, limit, z);
    case OtherPage(device, id, offset, limit) => OtherPageKeeps(y, device, id, offset, limit, z);
    case PullChanges(device, pageSize) => PullKeeps(y, device, pageSize, z);
    case Claim(w, job, fate) => ClaimMoves(y, w, job, fate, z);
    case Work(w, fate, ranked, order) => WorkKeeps(y, w, fate, ranked, order, z);
    case Crash(w) => CrashKeeps(y, w, z);
  }

  lemma {:induction false} StartIsOk(y: System)
    requires Starts(y)
    ensures SystemOk(y)
  {
    assert Entries(y.db.t) == [];
    assert Successes(y.db.jobs) == {};
    assert forall w: int :: PcOf(y, w) == Idle;
  }
}
