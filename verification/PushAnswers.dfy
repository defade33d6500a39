/** What a push is answered, in terms of the log, the catalogue and the rows it reads alone.
  *
  * Nothing here is stated through the functions of the push itself: the limits, the codes and the
  * revisions of an answer are written out.
  */
module PushAnswers {
  import opened Basics
  import opened ChangeLog
  import opened Push
  import opened Replica
  import opened RestoreLoop
  import opened Transactions
  import opened Invariants
  import opened Service
  import opened Safety
  import opened Runs
  import opened RestoreRuns
  import opened PushRuns

  // ---- One item ----

  /** The revision of an object's newest entry, if it has one. */
  function NewestRevision(log: seq<Revision>, o: ObjectId): Option<int> {
    if o in Latest(log) then Some(Latest(log)[o].rev.revision) else None
  }

  function ByteLimit(kind: Kind): int {
    match kind
    case Todo => 8_388_608
    case Classification => 5_242_880
    case Index => 5_242_880
    case Image => 10_485_760
  }

  predicate MediaFits(kind: Kind, essence: string) {
    match kind
    case Todo => essence in {"text/markdown", "text/plain"}
    case Classification => essence == "application/json"
    case Index => essence == "application/json"
    case Image => essence == "application/octet-stream" || (|essence| >= 6 && essence[..6] == "image/")
  }

  /** The answer to an item that meets `log`. */
  ghost predicate AnswerOf(item: NewRevision, result: ItemResult, log: seq<Revision>, payloads: Catalogue) {
    if item.base != NewestRevision(log, item.obj) then
      result == Conflicted(item.obj, item.base, NewestRevision(log, item.obj))
    else if !item.tombstone && (item.hash.None? || item.hash.value !in payloads) then
      result == Rejected(item.obj, MissingPayload)
    else if !item.tombstone && payloads[item.hash.value].size > ByteLimit(item.obj.kind) then
      result == Rejected(item.obj, TooLarge(ByteLimit(item.obj.kind), payloads[item.hash.value].size))
    else if !item.tombstone && !MediaFits(item.obj.kind, payloads[item.hash.value].essence) then
      result == Rejected(item.obj, WrongMediaType)
    else
      result == Applied(item.obj, (if item.base.Some? then item.base.value else 0) + 1, |log| + 1, item.changedAt)
  }

  lemma {:induction false} HeadIsNewest(t: Tables, o: ObjectId)
    requires TablesOk(t)
    ensures HeadRevision(t, o) == NewestRevision(Entries(t), o)
  {
    hide Linear, Latest;
  }

  lemma {:induction false} LimitsAreThese(kind: Kind, essence: string)
    ensures MaxPayloadBytes(kind) == ByteLimit(kind)
    ensures ValidMediaType(kind, essence) <==> MediaFits(kind, essence)
  {
  }

  lemma {:induction false} OneAnswer(b: Batch, payloads: Catalogue, device: Uuid, item: NewRevision)
    requires BatchOk(b, payloads) && PushOne(b, payloads, device, item).Ok?
    ensures var c := PushOne(b, payloads, device, item).value;
      && c.results == b.results + [Last(c.results)]
      && AnswerOf(item, Last(c.results), Entries(b.t), payloads)
  {
    hide TablesOk, Closed, IdsBelow, NewestRevision, MaxPayloadBytes, ByteLimit, ValidMediaType, MediaFits, RowCheck, Append, HeadRevision;
    HeadIsNewest(b.t, item.obj);
    if !item.tombstone && item.hash.Some? && item.hash.value in payloads {
      LimitsAreThese(item.obj.kind, payloads[item.hash.value].essence);
    }
  }

  // ---- A batch ----

  /** The log that item `k` meets: the entries before the push and those of the items applied so far. */
  ghost function LogBefore(log: seq<Revision>, start: nat, results: seq<ItemResult>, k: nat): seq<Revision>
    requires k <= |results|
  {
    Upto(log, start + AppliedCount(results[..k]))
  }

  /** Every item of a batch is answered as the log it meets and the catalogue demand. */
  ghost predicate AnswersAll(items: seq<NewRevision>, results: seq<ItemResult>, log: seq<Revision>, start: nat, payloads: Catalogue) {
    && |results| == |items|
    && (forall k :: 0 <= k < |items| ==> AnswerOf(items[k], results[k], LogBefore(log, start, results, k), payloads))
  }

  lemma {:induction false} AnswersGrow(items: seq<NewRevision>, results: seq<ItemResult>, log: seq<Revision>, start: nat,
      payloads: Catalogue, item: NewRevision, result: ItemResult, longer: seq<Revision>)
    requires AnswersAll(items, results, log, start, payloads) && AnswerOf(item, result, log, payloads)
    requires log <= longer && |log| == start + AppliedCount(results)
    ensures AnswersAll(items + [item], results + [result], longer, start, payloads)
  {
    hide AnswerOf, AppliedCount, Upto;
    var all, more := items + [item], results + [result];
    forall k | 0 <= k < |all| ensures AnswerOf(all[k], more[k], LogBefore(longer, start, more, k), payloads) {
      assert more[..k] == results[..k];
      AppliedCountGrows(results, k);
      SamePrefix(log, longer, start + AppliedCount(results[..k]));
      if k == |items| {
        assert results[..k] == results;
      }
    }
  }

  lemma {:induction false} BatchAnswers(b: Batch, payloads: Catalogue, device: Uuid, items: seq<NewRevision>)
    requires BatchOk(b, payloads) && b.results == []
    requires PushBatch(b, payloads, device, items).Ok?
    ensures var c := PushBatch(b, payloads, device, items).value;
      BatchOk(c, payloads) && AnswersAll(items, c.results, Entries(c.t), b.t.changeSeq, payloads)
  {
    hide AnswerOf, AnswersAll, PushOne, BatchOk, Entries, TablesOk, Logged, Reports;
    BatchLength(b, payloads);
    if items == [] {
      NothingToAnswer(Entries(b.t), b.t.changeSeq, payloads);
    } else {
      var before := PushBatch(b, payloads, device, Init(items)).value;
      BatchAnswers(b, payloads, device, Init(items));
      PushBatchKeeps(b, payloads, device, Init(items));
      PushOneKeeps(before, payloads, device, Last(items));
      PushOneReports(b, before, payloads, device, Last(items));
      OneAnswer(before, payloads, device, Last(items));
      BatchLength(before, payloads);
      var c := PushBatch(b, payloads, device, items).value;
      AnswersGrow(Init(items), before.results, Entries(before.t), b.t.changeSeq, payloads, Last(items), Last(c.results), Entries(c.t));
      assert Init(items) + [Last(items)] == items;
    }
  }

  lemma {:induction false} NothingToAnswer(log: seq<Revision>, start: nat, payloads: Catalogue)
    ensures AnswersAll([], [], log, start, payloads)
  {
  }

  lemma {:induction false} BatchLength(b: Batch, payloads: Catalogue)
    requires BatchOk(b, payloads)
    ensures Logged(b.t) && |Entries(b.t)| == b.t.changeSeq
  {
  }

  lemma {:induction false} AppliedCountGrows(results: seq<ItemResult>, k: nat)
    requires k <= |results|
    ensures AppliedCount(results[..k]) <= AppliedCount(results)
  {
    if k < |results| {
      AppliedCountGrows(Init(results), k);
      assert Init(results)[..k] == results[..k];
    } else {
      assert results[..k] == results;
    }
  }

  lemma {:induction false} SamePrefix(log: seq<Revision>, longer: seq<Revision>, n: nat)
    requires log <= longer && n <= |log|
    ensures Upto(longer, n) == Upto(log, n) && (n == |log| ==> Upto(longer, n) == log)
  {
    assert longer[..n] == log[..n];
    assert log[..|log|] == log;
  }

  // ---- A push in a run ----

  /** In every reachable state a judged push answers each item exactly so: a conflict precisely when
    * the item's base is not the newest revision of its object in the log the item meets, naming the
    * base as expected and that revision as actual; else a rejection with its reason, or the next
    * revision under the next sequence. */
  lemma {:induction false} PushAnswersItems(run: seq<System>, events: seq<Event>, j: nat,
      device: Uuid, generation: int, key: string, hash: Hash, items: seq<NewRevision>)
    requires IsRun(run, events) && j < |run|
    requires Judged(PushTx(run[j].db, device, generation, key, hash, items).1)
    ensures var s := run[j].db; var r := PushTx(s, device, generation, key, hash, items);
      && Logged(s.t) && Logged(r.0.t) && Entries(s.t) <= Entries(r.0.t)
      && r.0.t.changeSeq == s.t.changeSeq + AppliedCount(r.1.results)
      && AnswersAll(items, r.1.results, Entries(r.0.t), s.t.changeSeq, s.payloads)
  {
    hide Moves, Starts, SystemOk, DbOk, AnswersAll, PushBatch, Linear, HeadsAreLatest, Closed, LogBefore, Replay;
    RunIsSafe(run, events, j);
    SystemIsDb(run[j]);
    var s := run[j].db;
    JudgedTables(s, device, generation, key, hash, items);
    BatchAnswers(Batch(s.t, s.nextId, []), s.payloads, device, items);
    PushBatchKeeps(Batch(s.t, s.nextId, []), s.payloads, device, items);
  }

  lemma {:induction false} JudgedTables(s: State, device: Uuid, generation: int, key: string, hash: Hash, items: seq<NewRevision>)
    requires Judged(PushTx(s, device, generation, key, hash, items).1)
    ensures var b := PushBatch(Batch(s.t, s.nextId, []), s.payloads, device, items);
      && b.Ok? && PushTx(s, device, generation, key, hash, items).0.t == b.value.t
      && PushTx(s, device, generation, key, hash, items).1.results == b.value.results
  {
    hide PushBatch;
  }

  /** A conflict, said outright. */
  lemma {:induction false} ConflictExactly(run: seq<System>, events: seq<Event>, j: nat,
      device: Uuid, generation: int, key: string, hash: Hash, items: seq<NewRevision>, k: nat)
    requires IsRun(run, events) && j < |run| && k < |items|
    requires Judged(PushTx(run[j].db, device, generation, key, hash, items).1)
    ensures var s := run[j].db; var r := PushTx(s, device, generation, key, hash, items);
      && Logged(s.t) && Logged(r.0.t) && |r.1.results| == |items|
      && var newest := NewestRevision(LogBefore(Entries(r.0.t), s.t.changeSeq, r.1.results, k), items[k].obj);
         && (r.1.results[k].Conflicted? <==> items[k].base != newest)
         && (r.1.results[k].Conflicted? ==> r.1.results[k] == Conflicted(items[k].obj, items[k].base, newest))
  {
    hide Moves, Starts, PushTx, NewestRevision, LogBefore, ByteLimit, MediaFits, Logged;
    PushAnswersItems(run, events, j, device, generation, key, hash, items);
    var s := run[j].db;
    var r := PushTx(s, device, generation, key, hash, items);
    assert AnswerOf(items[k], r.1.results[k], LogBefore(Entries(r.0.t), s.t.changeSeq, r.1.results, k), s.payloads);
  }

  // ---- The request ----

  /** Nothing is stored under the request's key, or what is stored has expired. */
  predicate FreshKey(s: State, device: Uuid, key: string) {
    RequestKey(device, key) in s.records ==> s.records[RequestKey(device, key)].expiresAt <= s.now
  }

  /** A push under a fresh key is answered by the first of these that applies: the project is gone,
    * it is not active, the generation is another, the device has no completion; else it is judged,
    * unless a constraint fails.  The tables change only when it is judged. */
  lemma {:induction false} FreshPushIsAnswered(s: State, device: Uuid, generation: int, key: string, hash: Hash, items: seq<NewRevision>)
    requires FreshKey(s, device, key)
    ensures var r := PushTx(s, device, generation, key, hash, items);
      && (s.project.None? ==> r == (s, Refused(NotFound)))
      && (s.project.Some? && s.project.value.status != Active ==> r.1 == Refused(ProjectMaintenance))
      && (s.project.Some? && s.project.value.status == Active && s.project.value.generation != generation ==>
            r.1 == Refused(GenerationMismatch(generation, s.project.value.generation)))
      && (s.project == Some(Project(Active, generation)) && Completion(device, generation) !in s.completions ==>
            r.1 == Refused(BootstrapRequired))
      && (s.project == Some(Project(Active, generation)) && Completion(device, generation) in s.completions ==>
            Judged(r.1) || r.1 == Refused(Error.Database))
      && (!Judged(r.1) ==> r.0 == s.(records := r.0.records))
      && (Judged(r.1) ==> r.0 == s.(t := r.0.t, nextId := r.0.nextId, records := r.0.records))
  {
    hide PushBatch, WithoutExpired;
    assert RequestKey(device, key) !in WithoutExpired(s, RequestKey(device, key)) by {
      FreshIsAbsent(s, device, key);
    }
    if PushBatch(Batch(s.t, s.nextId, []), s.payloads, device, items).Err? {
      BatchFailsInDatabase(Batch(s.t, s.nextId, []), s.payloads, device, items);
    }
  }

  lemma {:induction false} ExpiryIsOfOneKey(s: State, k: RequestKey, other: RequestKey)
    requires other != k
    ensures other in WithoutExpired(s, k) <==> other in s.records
    ensures other in s.records ==> WithoutExpired(s, k)[other] == s.records[other]
  {
  }

  /** No push touches what is stored under another key. */
  lemma {:induction false} OtherRecordsStay(s: State, device: Uuid, generation: int, key: string, hash: Hash, items: seq<NewRevision>,
      other: RequestKey)
    requires other != RequestKey(device, key)
    ensures var u := PushTx(s, device, generation, key, hash, items).0;
      (other in u.records <==> other in s.records) && (other in s.records ==> u.records[other] == s.records[other])
  {
    hide PushBatch, WithoutExpired, Replay;
    ExpiryIsOfOneKey(s, RequestKey(device, key), other);
  }

  lemma {:induction false} FreshIsAbsent(s: State, device: Uuid, key: string)
    requires FreshKey(s, device, key)
    ensures RequestKey(device, key) !in WithoutExpired(s, RequestKey(device, key))
  {
  }

  /** A device that completed a bootstrap may push, under any fresh key, for as long as the project is
    * active at that generation. */
  lemma {:induction false} BootstrappedDeviceMayPush(run: seq<System>, events: seq<Event>, i: nat, j: nat, c: Completion,
      key: string, hash: Hash, items: seq<NewRevision>)
    requires IsRun(run, events) && i < j < |run| && Completes(run[i], events[i], c)
    requires run[j].db.project == Some(Project(Active, c.generation)) && FreshKey(run[j].db, c.device, key)
    ensures var r := PushTx(run[j].db, c.device, c.generation, key, hash, items).1;
      Judged(r) || r == Refused(Error.Database)
  {
    hide Starts, PushTx, Later, DbOk, CoreOk, FreshKey;
    CompletionIsWritten(run[i], events[i], run[i + 1], c);
    RunGrows(run, events, i + 1, j);
    hide Moves;
    CompletionStays(run[i + 1].db, run[j].db, c);
    FreshPushIsAnswered(run[j].db, c.device, c.generation, key, hash, items);
  }

  lemma {:induction false} CompletionIsWritten(y: System, e: Event, z: System, c: Completion)
    requires Completes(y, e, c) && Moves(y, e, z)
    ensures c in z.db.completions
  {
    hide ManifestPage, Received, Apply, Called, CallFits, WorkerCall, PullTx, OrdersFit;
  }

  lemma {:induction false} CompletionStays(s: State, u: State, c: Completion)
    requires Later(s, u) && u.project.Some? && c in s.completions
    ensures c in u.completions
  {
    hide Grows, JobsLater, SnapshotsStay, Undisturbed;
  }

  // ---- Constraints ----

  /** What the tables demand of a stored revision. */
  predicate Storable(e: Revision, payloads: Catalogue) {
    && e.revision >= 1 && (e.base.Some? ==> e.base.value >= 1)
    && if e.tombstone then e.payload == None && e.hash == None && e.schema == None
       else
         && e.hash.Some? && e.hash.value in payloads && e.payload == Some(payloads[e.hash.value].id)
         && e.schema.Some? && e.schema.value >= 1
  }

  /** What they demand of an item: no schema and no content for a tombstone, a schema otherwise. */
  predicate SoundItem(item: NewRevision) {
    if item.tombstone then item.hash == None && item.schema == None else item.schema.Some? && item.schema.value >= 1
  }

  lemma {:induction false} EntryIsStorable(t: Tables, payloads: Catalogue, n: nat)
    requires TablesOk(t) && Closed(t, payloads) && n < t.changeSeq
    ensures n < |Entries(t)| && Storable(Entries(t)[n], payloads)
  {
    hide Linear, HeadsAreLatest;
    var id := t.changeLog[n + 1];
    assert id in t.revisions && Entries(t)[n] == t.revisions[id];
  }

  /** In every reachable state every logged revision meets the constraints, and its content is in the
    * catalogue under the row it references. */
  lemma {:induction false} LogIsStorable(run: seq<System>, events: seq<Event>, i: nat)
    requires IsRun(run, events) && i < |run|
    ensures Logged(run[i].db.t)
    ensures forall n :: 0 <= n < |Entries(run[i].db.t)| ==> Storable(Entries(run[i].db.t)[n], run[i].db.payloads)
  {
    hide Moves, Starts, SystemOk, DbOk, CoreOk, Closed, Storable, Linear, HeadsAreLatest;
    RunIsSafe(run, events, i);
    SystemIsDb(run[i]);
    DbCovers(run[i].db);
    forall n | 0 <= n < |Entries(run[i].db.t)| ensures Storable(Entries(run[i].db.t)[n], run[i].db.payloads) {
      EntryIsStorable(run[i].db.t, run[i].db.payloads, n);
    }
  }

  lemma {:induction false} DbCovers(s: State)
    requires DbOk(s)
    ensures BatchOk(Batch(s.t, s.nextId, []), s.payloads)
  {
    hide Closed, Linear, HeadsAreLatest, JobsOk, SnapshotsOk, TargetsOk, BootstrapOk, GenerationOk;
  }

  lemma {:induction false} HeadIsPositive(t: Tables, payloads: Catalogue, o: ObjectId)
    requires TablesOk(t) && Closed(t, payloads)
    ensures HeadRevision(t, o).Some? ==> HeadRevision(t, o).value >= 1
  {
    hide Linear, Latest, Storable, HeadRevision;
    HeadIsNewest(t, o);
    LatestIsNewest(Entries(t));
    if o in Latest(Entries(t)) {
      EntryIsStorable(t, payloads, Latest(Entries(t))[o].sequence - 1);
      StorableIsPositive(Latest(Entries(t))[o].rev, payloads);
    }
  }

  lemma {:induction false} StorableIsPositive(e: Revision, payloads: Catalogue)
    requires Storable(e, payloads)
    ensures e.revision >= 1
  {
  }

  lemma {:induction false} SoundItemIsJudged(b: Batch, payloads: Catalogue, device: Uuid, item: NewRevision)
    requires BatchOk(b, payloads) && SoundItem(item)
    ensures PushOne(b, payloads, device, item).Ok?
  {
    hide TablesOk, Closed, IdsBelow, HeadRevision, MaxPayloadBytes, ValidMediaType, Append;
    HeadIsPositive(b.t, payloads, item.obj);
  }

  lemma {:induction false} SoundBatchIsJudged(b: Batch, payloads: Catalogue, device: Uuid, items: seq<NewRevision>)
    requires BatchOk(b, payloads) && b.results == []
    requires forall k :: 0 <= k < |items| ==> SoundItem(items[k])
    ensures PushBatch(b, payloads, device, items).Ok?
  {
    hide PushOne, BatchOk, Entries, TablesOk, Logged, Reports, SoundItem;
    if items != [] {
      SoundBatchIsJudged(b, payloads, device, Init(items));
      PushBatchKeeps(b, payloads, device, Init(items));
      SoundItemIsJudged(PushBatch(b, payloads, device, Init(items)).value, payloads, device, Last(items));
    }
  }

  lemma {:induction false} AppliedItemIsSound(b: Batch, payloads: Catalogue, device: Uuid, item: NewRevision)
    requires PushOne(b, payloads, device, item).Ok?
    ensures var c := PushOne(b, payloads, device, item).value;
      |c.results| == |b.results| + 1 && b.results == Init(c.results) && (Last(c.results).Applied? ==> SoundItem(item))
  {
    hide HeadRevision, MaxPayloadBytes, ValidMediaType, Append;
  }

  lemma {:induction false} AppliedItemsAreSound(b: Batch, payloads: Catalogue, device: Uuid, items: seq<NewRevision>)
    requires b.results == [] && PushBatch(b, payloads, device, items).Ok?
    ensures var c := PushBatch(b, payloads, device, items).value;
      |c.results| == |items| && forall k :: 0 <= k < |items| && c.results[k].Applied? ==> SoundItem(items[k])
  {
    hide PushOne, SoundItem;
    if items != [] {
      AppliedItemsAreSound(b, payloads, device, Init(items));
      AppliedItemIsSound(PushBatch(b, payloads, device, Init(items)).value, payloads, device, Last(items));
    }
  }

  /** A fresh push that passes the guards is judged if all its items are sound, in every reachable
    * state; and no judged push applies an item that is not. */
  lemma {:induction false} SoundPushIsJudged(run: seq<System>, events: seq<Event>, j: nat,
      device: Uuid, generation: int, key: string, hash: Hash, items: seq<NewRevision>)
    requires IsRun(run, events) && j < |run| && FreshKey(run[j].db, device, key)
    requires run[j].db.project == Some(Project(Active, generation)) && Completion(device, generation) in run[j].db.completions
    ensures var r := PushTx(run[j].db, device, generation, key, hash, items).1;
      && ((forall k :: 0 <= k < |items| ==> SoundItem(items[k])) ==> Judged(r))
      && (Judged(r) ==>
            |r.results| == |items| && forall k :: 0 <= k < |items| && r.results[k].Applied? ==> SoundItem(items[k]))
  {
    hide Moves, Starts, SystemOk, DbOk, CoreOk, SoundItem, BatchOk, FreshKey, WithoutExpired, PushBatch;
    RunIsSafe(run, events, j);
    SystemIsDb(run[j]);
    var s := run[j].db;
    DbCovers(s);
    FreshIsAbsent(s, device, key);
    if forall k :: 0 <= k < |items| ==> SoundItem(items[k]) {
      SoundBatchIsJudged(Batch(s.t, s.nextId, []), s.payloads, device, items);
    }
    if Judged(PushTx(s, device, generation, key, hash, items).1) {
      AppliedItemsAreSound(Batch(s.t, s.nextId, []), s.payloads, device, items);
    }
  }

  // ---- Repeated refusals ----

  /** A push refused because the project is not active, its generation is another or the device has no
    * completion is answered the same way for thirty days, with these status codes, even after the
    * reason for the refusal is gone. */
  lemma {:induction false} RefusalsAreRepeated(run: seq<System>, events: seq<Event>, i: nat, j: nat,
      device: Uuid, generation: int, key: string, hash: Hash, items: seq<NewRevision>)
    requires IsRun(run, events) && i < j < |run|
    requires events[i] == Calls(PushRequest(device, generation, key, hash, items)) && FreshKey(run[i].db, device, key)
    requires run[j].db.project.Some? && run[j].db.now < run[i].db.now + 2_592_000
    ensures var s := run[i].db; var r := PushTx(run[j].db, device, generation, key, hash, items);
      && (s.project.Some? && s.project.value.status != Active ==>
            r == (run[j].db, Refused(IdempotencyReplay(MaintenanceFailure, 423))))
      && (s.project.Some? && s.project.value.status == Active && s.project.value.generation != generation ==>
            r == (run[j].db, Refused(IdempotencyReplay(GenerationFailure(generation, s.project.value.generation), 409))))
      && (s.project == Some(Project(Active, generation)) && Completion(device, generation) !in s.completions ==>
            r == (run[j].db, Refused(IdempotencyReplay(BootstrapFailure, 409))))
  {
    hide Starts, Moves, PushTx, FreshKey;
    FreshPushIsAnswered(run[i].db, device, generation, key, hash, items);
    if Kept(PushTx(run[i].db, device, generation, key, hash, items).1) {
      PushIsIdempotent(run, events, i, j, device, generation, key, hash, items, generation, hash, items);
    }
  }
}
