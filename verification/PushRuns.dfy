/** Pushes over whole runs: linear history, idempotent replay and generation gating. */
module PushRuns {
  import opened Basics
  import opened ChangeLog
  import opened Push
  import opened Replica
  import opened RestoreLoop
  import opened Transactions
  import opened Invariants
  import opened Service
  import opened Safety
  import opened Runs
  import opened RestoreRuns

  // ---- Linear history ----

  /** The push was judged item by item now, not replayed. */
  predicate Judged(r: PushReply) {
    r.Pushed? && !r.replayed
  }

  /** Once some entry wrote an object over a base revision, no push at any later moment applies an
    * item with that object and base again: not under a new request key, not after the record of
    * the first push expired, and not from another device. */
  lemma {:induction false} UsedItemNeverAppliesAgain(run: seq<System>, events: seq<Event>, i: nat, j: nat, n: nat,
      device: Uuid, generation: int, key: string, hash: Hash, items: seq<NewRevision>, k: nat)
    requires IsRun(run, events) && i <= j < |run| && k < |items|
    requires Logged(run[i].db.t) && n < run[i].db.t.changeSeq
    requires Entries(run[i].db.t)[n].obj == items[k].obj && Entries(run[i].db.t)[n].base == items[k].base
    requires Judged(PushTx(run[j].db, device, generation, key, hash, items).1)
    ensures var r := PushTx(run[j].db, device, generation, key, hash, items).1;
      |r.results| == |items| && r.results[k].Conflicted?
  {
    hide Moves, Starts, DbOk, Linear, HeadsAreLatest, Closed, PushBatch, JobsLater, SnapshotsStay, RowsStay, Undisturbed, Replay;
    RunGrows(run, events, i, j);
    var s := run[j].db;
    JudgedPush(s, device, generation, key, hash, items);
    UsedItemConflicts(Batch(s.t, s.nextId, []), s.payloads, device, items, k, n);
  }

  lemma {:induction false} JudgedPush(s: State, device: Uuid, generation: int, key: string, hash: Hash, items: seq<NewRevision>)
    requires Judged(PushTx(s, device, generation, key, hash, items).1)
    ensures var b := PushBatch(Batch(s.t, s.nextId, []), s.payloads, device, items);
      && b.Ok? && PushTx(s, device, generation, key, hash, items).1 == Pushed(generation, b.value.results, false)
      && s.project == Some(Project(Active, generation))
      && Completion(device, generation) in s.completions
  {
    hide PushBatch;
  }

  // ---- Idempotent replay ----

  /** What a repeated request is answered after a first answer `r`. */
  function Repeated(r: PushReply): PushReply {
    match r
    case Pushed(generation, results, _) => Pushed(generation, results, true)
    case Refused(e) =>
      if PushFailure(e).Some? then Refused(IdempotencyReplay(PushFailure(e).value, StatusCode(PushFailure(e).value)))
      else Refused(e)
  }

  /** The answers that are kept: every judged push, and the recorded request failures. */
  predicate Kept(r: PushReply) {
    Judged(r) || (r.Refused? && PushFailure(r.error).Some?)
  }

  /** `u` holds, under `k`, a record that answers as `r` did and lives for thirty days. */
  predicate Recorded(u: State, k: RequestKey, hash: Hash, r: PushReply) {
    && k in u.records && u.records[k].hash == hash
    && u.records[k].expiresAt == u.now + RECORD_LIFETIME
    && Replay(u.records[k]) == Repeated(r)
  }

  lemma {:induction false} RefusalIsRecorded(s: State, k: RequestKey, hash: Hash, e: Error)
    requires PushFailure(e).Some?
    ensures Recorded(Refuse(s, k, hash, e).0, k, hash, Refuse(s, k, hash, e).1)
  {
    hide WithoutExpired;
  }

  lemma {:induction false} BatchFailsInDatabase(b: Batch, payloads: Catalogue, device: Uuid, items: seq<NewRevision>)
    requires PushBatch(b, payloads, device, items).Err?
    ensures PushBatch(b, payloads, device, items).error == Error.Database
  {
    if PushBatch(b, payloads, device, Init(items)).Err? {
      BatchFailsInDatabase(b, payloads, device, Init(items));
    }
  }

  lemma {:induction false} KeptAnswerIsRecorded(s: State, device: Uuid, generation: int, key: string, hash: Hash, items: seq<NewRevision>)
    requires Kept(PushTx(s, device, generation, key, hash, items).1)
    ensures var r := PushTx(s, device, generation, key, hash, items);
      Recorded(r.0, RequestKey(device, key), hash, r.1) && r.0.now == s.now
  {
    hide PushBatch, WithoutExpired, Refuse;
    var k := RequestKey(device, key);
    if PushBatch(Batch(s.t, s.nextId, []), s.payloads, device, items).Err? {
      BatchFailsInDatabase(Batch(s.t, s.nextId, []), s.payloads, device, items);
    }
    forall e: Error ensures Refuse(s, k, hash, e).1 == Refused(e) && Refuse(s, k, hash, e).0.now == s.now {
      RefuseAnswers(s, k, hash, e);
    }
    forall e: Error | PushFailure(e).Some? ensures Recorded(Refuse(s, k, hash, e).0, k, hash, Refused(e)) {
      RefusalIsRecorded(s, k, hash, e);
    }
  }

  lemma {:induction false} RefuseAnswers(s: State, k: RequestKey, hash: Hash, e: Error)
    ensures Refuse(s, k, hash, e).1 == Refused(e) && Refuse(s, k, hash, e).0.now == s.now
  {
  }

  /** A record answers every push under its key until it expires, and nothing changes. */
  lemma {:induction false} RecordAnswers(s: State, k: RequestKey, generation: int, hash: Hash, items: seq<NewRevision>)
    requires k in s.records && s.records[k].expiresAt > s.now
    ensures PushTx(s, k.device, generation, k.key, hash, items)
      == (s, if hash == s.records[k].hash then Replay(s.records[k]) else Refused(IdempotencyConflict))
  {
  }

  lemma {:induction false} RecordIsThere(s: State, u: State, k: RequestKey)
    requires Later(s, u) && u.project.Some? && k in s.records && s.records[k].expiresAt > u.now
    ensures k in u.records && u.records[k] == s.records[k]
  {
    hide Grows, JobsLater, SnapshotsStay, Undisturbed;
  }

  /** Once a push was answered with a kept answer, every push under the same key within thirty
    * days is answered with the same outcome if it carries the same hash and refused otherwise,
    * and changes nothing, whatever its items, its generation, and what ran in between. */
  lemma {:induction false} PushIsIdempotent(run: seq<System>, events: seq<Event>, i: nat, j: nat,
      device: Uuid, generation: int, key: string, hash: Hash, items: seq<NewRevision>,
      generation': int, hash': Hash, items': seq<NewRevision>)
    requires IsRun(run, events) && i < j < |run|
    requires events[i] == Calls(PushRequest(device, generation, key, hash, items))
    requires Kept(PushTx(run[i].db, device, generation, key, hash, items).1)
    requires run[j].db.project.Some? && run[j].db.now < run[i].db.now + 2_592_000
    ensures var s := run[j].db;
      PushTx(s, device, generation', key, hash', items')
      == (s, if hash' == hash then Repeated(PushTx(run[i].db, device, generation, key, hash, items).1)
             else Refused(IdempotencyConflict))
  {
    hide PushTx, Later, DbOk, CoreOk, Starts, Repeated, Replay, Kept;
    assert Moves(run[i], events[i], run[i + 1]);
    assert run[i + 1].db == PushTx(run[i].db, device, generation, key, hash, items).0;
    KeptAnswerIsRecorded(run[i].db, device, generation, key, hash, items);
    hide Moves;
    var k := RequestKey(device, key);
    RunGrows(run, events, i + 1, j);
    RecordIsThere(run[i + 1].db, run[j].db, k);
    RecordAnswers(run[j].db, k, generation', hash', items');
  }

  // ---- Generation gating ----

  function GenerationOf(y: System): int {
    if y.db.project.Some? then y.db.project.value.generation else 0
  }

  /** The bootstrap page an event asks for: device, manifest, offset and limit. */
  function PageAsked(y: System, e: Event): Option<(Uuid, Uuid, int, int)> {
    match e
    case FirstPage(device, id, limit) => Some((device, id, 0, limit))
    case NextPage(device, limit) =>
      if DeviceOf(y, device).Loading? then Some((device, DeviceOf(y, device).manifest, DeviceOf(y, device).offset, limit))
      else None
    case OtherPage(device, id, offset, limit) => Some((device, id, offset, limit))
    case _ => None
  }

  /** The event serves `c.device` the last page of a manifest of generation `c.generation`. */
  ghost predicate Completes(y: System, e: Event, c: Completion) {
    PageAsked(y, e).Some? &&
    var (device, id, offset, limit) := PageAsked(y, e).value;
    var r := ManifestPageTx(y.db, device, id, offset, limit).1;
    && device == c.device && r.Ok? && !r.value.page.hasMore
    && id in y.db.manifests && y.db.manifests[id].generation == c.generation
    && y.db.project == Some(Project(Active, c.generation))
  }

  lemma {:induction false} PageCompletes(s: State, device: Uuid, id: Uuid, offset: int, limit: int, c: Completion)
    requires var u := ManifestPageTx(s, device, id, offset, limit).0; c in u.completions && c !in s.completions
    ensures var r := ManifestPageTx(s, device, id, offset, limit).1;
      && device == c.device && r.Ok? && !r.value.page.hasMore
      && id in s.manifests && s.manifests[id].generation == c.generation
      && s.project == Some(Project(Active, c.generation))
  {
    hide ManifestPage;
  }

  lemma {:induction false} CompletionAppears(y: System, e: Event, z: System, c: Completion)
    requires DbOk(y.db) && Moves(y, e, z) && c in z.db.completions && c !in y.db.completions
    ensures Completes(y, e, c)
  {
    hide DbOk, Step, Called, CallFits, ClaimTx, WorkerCall, ManifestPageTx, RecordManifest, HeadRows, Lists, Latest, PullTx,
      Received, Apply, Logged, OrdersFit;
    match e
    case Calls(call) => CallIsPlain(y.db, call);
    case FirstPage(device, id, limit) => PageCompletes(y.db, device, id, 0, limit, c);
    case NextPage(device, limit) =>
      PageCompletes(y.db, device, DeviceOf(y, device).manifest, DeviceOf(y, device).offset, limit, c);
    case OtherPage(device, id, offset, limit) => PageCompletes(y.db, device, id, offset, limit, c);
    case RecordBootstrap(id) => RecordTouchesNoCompletion(y.db, id, y.prepared[id]);
    case Claim(_, job, _) => ClaimTouchesNoCompletion(y.db, job);
    case Work(w, fate, ranked, order) => WorkKeepsDb(y.db, PcOf(y, w), fate, ranked, order);
    case _ =>
  }

  lemma {:induction false} RecordTouchesNoCompletion(s: State, id: Uuid, m: Manifest)
    ensures RecordManifest(s, id, m).0.completions == s.completions
    ensures RecordManifest(s, id, m).0.project == s.project
  {
  }

  lemma {:induction false} ClaimTouchesNoCompletion(s: State, job: Uuid)
    requires Claimable(s, job)
    ensures ClaimTx(s, job).0.completions == s.completions
    ensures ClaimTx(s, job).0.project.Some? ==>
      s.project.Some? && ClaimTx(s, job).0.project.value.generation == s.project.value.generation
  {
  }

  lemma {:induction false} CompletionHasOrigin(run: seq<System>, events: seq<Event>, j: nat, c: Completion) returns (i: nat)
    requires IsRun(run, events) && j < |run| && c in run[j].db.completions
    ensures i < j && Completes(run[i], events[i], c)
  {
    hide Completes, Moves, SystemOk, DbOk;
    if j == 0 {
      assert false;
    } else {
      RunIsSafe(run, events, j - 1);
      SystemIsDb(run[j - 1]);
      if c in run[j - 1].db.completions {
        i := CompletionHasOrigin(run, events, j - 1, c);
      } else {
        CompletionAppears(run[j - 1], events[j - 1], run[j], c);
        i := j - 1;
      }
    }
  }

  // ---- Where a generation comes from ----

  lemma {:induction false} WorkGeneration(s: State, pc: Pc, fate: Fate, ranked: seq<ObjectId>, order: seq<ObjectId>)
    requires pc != Idle && OrdersFit(s, pc.job, ranked, order)
    requires var u := WorkerCall(s, pc, fate, ranked, order).0;
      u.project.Some? && s.project.Some? && u.project.value.generation != s.project.value.generation
    ensures pc.Armed? && fate != NotMade && ExecuteTx(s, pc.job, pc.token, ranked, order).1.Ok?
    ensures WorkerCall(s, pc, fate, ranked, order).0.project.value.generation == s.project.value.generation + 1
  {
    hide RestoreItems, WithAbsent, ResolveTarget, HeadRows, Lists, Latest, InOrder;
  }

  /** Only a successful restore changes the generation, and then by one. */
  lemma {:induction false} GenerationMoves(y: System, e: Event, z: System)
    requires DbOk(y.db) && Moves(y, e, z) && y.db.project.Some? && z.db.project.Some? && GenerationOf(z) != GenerationOf(y)
    ensures Restores(y, e) && GenerationOf(z) == GenerationOf(y) + 1
  {
    hide DbOk, Step, Called, CallFits, ClaimTx, WorkerCall, ManifestPageTx, RecordManifest, HeadRows, Lists, Latest, PullTx,
      Received, Apply, Logged, OrdersFit, ExecuteTx;
    match e
    case Calls(call) => CallIsPlain(y.db, call);
    case FirstPage(device, id, limit) => PageTouchesNoProject(y.db, device, id, 0, limit);
    case NextPage(device, limit) =>
      PageTouchesNoProject(y.db, device, DeviceOf(y, device).manifest, DeviceOf(y, device).offset, limit);
    case OtherPage(device, id, offset, limit) => PageTouchesNoProject(y.db, device, id, offset, limit);
    case RecordBootstrap(id) => RecordTouchesNoCompletion(y.db, id, y.prepared[id]);
    case Claim(_, job, _) => ClaimTouchesNoCompletion(y.db, job);
    case Work(w, fate, ranked, order) => WorkGeneration(y.db, PcOf(y, w), fate, ranked, order);
    case _ =>
  }

  lemma {:induction false} PageTouchesNoProject(s: State, device: Uuid, id: Uuid, offset: int, limit: int)
    ensures ManifestPageTx(s, device, id, offset, limit).0.project == s.project
  {
    hide ManifestPage;
  }

  /** The restore that opened the present generation, after which it has not changed. */
  lemma {:induction false} GenerationHasOrigin(run: seq<System>, events: seq<Event>, j: nat) returns (o: nat)
    requires IsRun(run, events) && j < |run| && run[j].db.project.Some? && GenerationOf(run[j]) > 1
    ensures o < j && Restores(run[o], events[o])
    ensures GenerationOf(run[o]) == GenerationOf(run[j]) - 1 && GenerationOf(run[o + 1]) == GenerationOf(run[j])
  {
    hide Moves, SystemOk, DbOk, Restores, JobsLater, SnapshotsStay, RowsStay, Undisturbed, CoreOk, Logged;
    if j == 0 {
      assert false;
    } else {
      RunGrows(run, events, j - 1, j);
      if GenerationOf(run[j - 1]) == GenerationOf(run[j]) {
        o := GenerationHasOrigin(run, events, j - 1);
      } else {
        GenerationMoves(run[j - 1], events[j - 1], run[j]);
        o := j - 1;
      }
    }
  }

  lemma {:induction false} GenerationsGrow(run: seq<System>, events: seq<Event>, i: nat, j: nat)
    requires IsRun(run, events) && i <= j < |run| && run[j].db.project.Some?
    ensures run[i].db.project.Some? && GenerationOf(run[i]) <= GenerationOf(run[j])
  {
    hide Moves, Starts, DbOk, CoreOk, JobsLater, SnapshotsStay, RowsStay, Undisturbed, Logged;
    RunGrows(run, events, i, j);
  }

  /** A push is judged only for a device that was served the last page of a bootstrap manifest of
    * the present generation, and after the restore that opened this generation. */
  lemma {:induction false} PushNeedsBootstrap(run: seq<System>, events: seq<Event>, j: nat,
      device: Uuid, generation: int, key: string, hash: Hash, items: seq<NewRevision>) returns (i: nat, o: nat)
    requires IsRun(run, events) && j < |run|
    requires Judged(PushTx(run[j].db, device, generation, key, hash, items).1)
    ensures i < j && Completes(run[i], events[i], Completion(device, generation))
    ensures GenerationOf(run[j]) == generation
    ensures generation > 1 ==>
      && o < i && Restores(run[o], events[o])
      && GenerationOf(run[o]) == generation - 1 && GenerationOf(run[o + 1]) == generation
  {
    hide Moves, Starts, PushTx, Restores, ManifestPageTx;
    JudgedPush(run[j].db, device, generation, key, hash, items);
    i := CompletionHasOrigin(run, events, j, Completion(device, generation));
    o := 0;
    if generation > 1 {
      o := GenerationHasOrigin(run, events, j);
      if i <= o {
        GenerationsGrow(run, events, i, o);
        GenerationsGrow(run, events, i, j);
        assert false;
      }
    }
  }

  /** A pull cursor of an older generation is never served again. */
  lemma {:induction false} OldCursorIsRefused(run: seq<System>, events: seq<Event>, i: nat, j: nat,
      generation: int, after: int, limit: nat)
    requires IsRun(run, events) && i <= j < |run| && generation < GenerationOf(run[i])
    ensures Logged(run[j].db.t) && PullTx(run[j].db, generation, after, limit).Err?
  {
    hide Moves, Starts, SystemOk, DbOk;
    RunIsSafe(run, events, j);
    SystemIsDb(run[j]);
    if run[j].db.project.Some? {
      GenerationsGrow(run, events, i, j);
    }
  }
}
