/** What the sync endpoints check before they call the database, and the cursors they issue.
  *
  * A cursor is its signed claims: what a client presents is either claims the service issued or
  * is rejected before `Verify` is reached.
  */
module Requests {
  import opened Basics
  import opened ChangeLog
  import opened Push
  import opened Replica
  import opened RestoreLoop
  import opened Transactions
  import opened Invariants
  import opened Service
  import opened Safety
  import opened Runs
  import opened PushRuns
  import opened PushAnswers
  import opened ReadRuns

  const MAX_I64: int := 0x7fff_ffff_ffff_ffff

  // ---- Push items ----

  /** A push item as a client announces it. */
  datatype Announced = Announced(
    obj: ObjectId,
    schema: int,
    revision: int,
    base: Option<int>,
    hash: Hash,
    changedAt: Time,
    device: Uuid,
    tombstone: bool)

  predicate ValidContentHash(hash: Hash) {
    |hash| == 64 && forall c :: c in hash ==> '0' <= c <= '9' || 'a' <= c <= 'f'
  }

  predicate TodoIdChar(c: char) {
    || '0' <= c <= '9' || 'A' <= c <= 'H' || 'J' <= c <= 'K' || 'M' <= c <= 'N' || 'P' <= c <= 'T' || 'V' <= c <= 'Z'
  }

  predicate ValidObjectId(o: ObjectId) {
    match o.kind
    case Todo => |o.id| == 26 && forall c :: c in o.id ==> TodoIdChar(c)
    case Classification => o.id == "classification"
    case Index => o.id == "index"
    case Image =>
      o.id != "" && |o.id| <= 255 && o.id != "." && o.id != ".." && '/' !in o.id && '\\' !in o.id && '\0' !in o.id
  }

  /** `validate_revision_fields`; the successor of the base is computed with an overflow check. */
  predicate ValidRevisionFields(item: Announced, device: Uuid) {
    var base := if item.base.Some? then item.base.value else 0;
    && item.revision > 0
    && (item.base.Some? ==> item.base.value > 0)
    && base < MAX_I64 && item.revision == base + 1
    && item.device == device && ValidObjectId(item.obj)
  }

  predicate ValidItem(item: Announced, device: Uuid) {
    && (!item.tombstone ==> item.schema > 0 && ValidContentHash(item.hash))
    && ValidRevisionFields(item, device)
  }

  function Admitted(item: Announced): NewRevision {
    if item.tombstone then NewRevision(item.obj, None, item.base, None, item.changedAt, true)
    else NewRevision(item.obj, Some(item.schema), item.base, Some(item.hash), item.changedAt, false)
  }

  function AdmittedAll(items: seq<Announced>): (r: seq<NewRevision>)
    ensures |r| == |items|
    ensures forall i :: 0 <= i < |items| ==> r[i] == Admitted(items[i])
  {
    seq(|items|, i requires 0 <= i < |items| => Admitted(items[i]))
  }

  predicate ValidPush(items: seq<Announced>, device: Uuid) {
    |items| <= 100 && forall i :: 0 <= i < |items| ==> ValidItem(items[i], device)
  }

  lemma {:induction false} ValidItemNeverAborts(b: Batch, payloads: Catalogue, device: Uuid, item: Announced)
    requires ValidItem(item, device)
    ensures PushOne(b, payloads, device, Admitted(item)).Ok?
    ensures var r := PushOne(b, payloads, device, Admitted(item)).value;
      |r.results| == |b.results| + 1 && b.results == Init(r.results)
      && (Last(r.results).Applied? ==> Last(r.results).revision == item.revision)
  {
    hide ValidObjectId, ValidContentHash, ValidMediaType, MaxPayloadBytes;
  }

  /** A batch that passed the endpoint's checks never violates a constraint, and an item that is
    * applied gets exactly the revision its client announced. */
  lemma {:induction false} ValidBatchNeverAborts(b: Batch, payloads: Catalogue, device: Uuid, items: seq<Announced>)
    requires forall i :: 0 <= i < |items| ==> ValidItem(items[i], device)
    requires b.results == []
    ensures PushBatch(b, payloads, device, AdmittedAll(items)).Ok?
    ensures var r := PushBatch(b, payloads, device, AdmittedAll(items)).value.results;
      |r| == |items| && forall i :: 0 <= i < |items| && r[i].Applied? ==> r[i].revision == items[i].revision
  {
    hide ValidItem, Admitted, PushOne;
    if items != [] {
      var first := items[..|items| - 1];
      ValidBatchNeverAborts(b, payloads, device, first);
      assert Init(AdmittedAll(items)) == AdmittedAll(first);
      assert Last(AdmittedAll(items)) == Admitted(items[|items| - 1]);
      var before := PushBatch(b, payloads, device, AdmittedAll(first)).value;
      ValidItemNeverAborts(before, payloads, device, items[|items| - 1]);
    }
  }

  /** In particular a checked push is never refused with a database error. */
  lemma {:induction false} ValidPushIsAnswered(s: State, device: Uuid, generation: int, key: string, hash: Hash, items: seq<Announced>)
    requires ValidPush(items, device)
    ensures var r := PushTx(s, device, generation, key, hash, AdmittedAll(items)).1;
      && r != Refused(Error.Database)
      && (r.Pushed? && !r.replayed ==>
            |r.results| == |items|
            && forall i :: 0 <= i < |items| && r.results[i].Applied? ==> r.results[i].revision == items[i].revision)
  {
    hide ValidItem, Admitted, PushBatch, AdmittedAll;
    ValidBatchNeverAborts(Batch(s.t, s.nextId, []), s.payloads, device, items);
  }

  /** A device that completed a bootstrap has every push it announces properly judged, item by item,
    * for as long as the project is active at that generation. */
  lemma {:induction false} AnnouncedPushIsJudged(run: seq<System>, events: seq<Event>, i: nat, j: nat, c: Completion,
      key: string, hash: Hash, items: seq<Announced>)
    requires IsRun(run, events) && i < j < |run| && Completes(run[i], events[i], c)
    requires run[j].db.project == Some(Project(Active, c.generation)) && FreshKey(run[j].db, c.device, key)
    requires ValidPush(items, c.device)
    ensures Judged(PushTx(run[j].db, c.device, c.generation, key, hash, AdmittedAll(items)).1)
  {
    hide Moves, Starts, PushTx, FreshKey, Completes, ValidPush, AdmittedAll;
    BootstrappedDeviceMayPush(run, events, i, j, c, key, hash, AdmittedAll(items));
    ValidPushIsAnswered(run[j].db, c.device, c.generation, key, hash, items);
  }

  // ---- Cursors ----

  datatype CursorKind = BootstrapCursor | PullCursor

  datatype Claims = Claims(
    kind: CursorKind,
    project: Uuid,
    owner: Uuid,
    generation: int,
    sequence: int,
    offset: int,
    manifest: Option<Uuid>)

  /** `verify_cursor`, after the signature. */
  predicate Verify(c: Claims, kind: CursorKind, project: Uuid, owner: Uuid) {
    && c.kind == kind && c.project == project && c.owner == owner
    && c.generation > 0 && c.sequence >= 0 && c.offset >= 0
    && (kind == PullCursor ==> c.manifest.None?)
  }

  /** `valid_limit`. */
  function ValidLimit(value: Option<int>, fallback: int, maximum: int): Option<int> {
    var limit := if value.Some? then value.value else fallback;
    if 1 <= limit <= maximum then Some(limit) else None
  }

  function LimitsOf(values: seq<Option<int>>): (limits: seq<nat>)
    requires forall i :: 0 <= i < |values| ==> ValidLimit(values[i], 200, 1000).Some?
    ensures |limits| == |values|
    ensures forall i :: 0 <= i < |values| ==> limits[i] == ValidLimit(values[i], 200, 1000).value
  {
    seq(|values|, i requires 0 <= i < |values| => ValidLimit(values[i], 200, 1000).value)
  }

  /** Whatever limits clients ask for, the endpoint passes on only ones under which paging ends:
    * pages hold at most a thousand rows, a bootstrap finishes and delivers its whole manifest after
    * at most one request per item and one more, and a pull with more to come moves its cursor. */
  lemma {:induction false} ValidLimitsMakeProgress(items: seq<LogRow>, values: seq<Option<int>>, log: seq<Revision>, after: nat)
    requires forall i :: 0 <= i < |values| ==> ValidLimit(values[i], 200, 1000).Some?
    requires |values| > |items| && after <= |log|
    ensures Follow(items, 0, LimitsOf(values)) == items
    ensures forall i :: 0 <= i < |values| ==>
      var page := PullRows(log, after, LimitsOf(values)[i]);
      |page.records| <= 1000 && (page.hasMore ==> NextSequence(page, after) > after)
  {
    var limits := LimitsOf(values);
    PositivePagesFinish(items, 0, limits);
    TokensDeliverEachItemOnce(items, 0, limits);
    assert items[0..] == items;
    hide PullRows, NextSequence;
    forall i | 0 <= i < |values|
      ensures |PullRows(log, after, limits[i]).records| <= 1000
      ensures PullRows(log, after, limits[i]).hasMore ==> NextSequence(PullRows(log, after, limits[i]), after) > after
    {
      PullKeepsCopy(log, after, limits[i]);
      PullIsShort(log, after, limits[i]);
    }
  }

  lemma {:induction false} PullIsShort(log: seq<Revision>, after: nat, limit: nat)
    requires after <= |log|
    ensures |PullRows(log, after, limit).records| <= limit
  {
  }

  /** The page token and the pull cursor of a bootstrap answer. */
  function BootstrapCursors(project: Uuid, owner: Uuid, manifest: Uuid, offset: int, r: BootstrapReply)
    : (Option<Claims>, Option<Claims>)
  {
    var next := offset + |r.page.records|;
    if r.page.hasMore
    then (Some(Claims(BootstrapCursor, project, owner, r.generation, r.sequence, next, Some(manifest))), None)
    else (None, Some(Claims(PullCursor, project, owner, r.generation, r.sequence, 0, None)))
  }

  function PullCursorOf(project: Uuid, owner: Uuid, r: PullReply): Claims {
    Claims(PullCursor, project, owner, r.generation, r.nextSequence, 0, None)
  }

  /** What a device keeps of a bootstrap answer is what its cursors say. */
  ghost predicate KeepsCursors(d: Device, tokens: (Option<Claims>, Option<Claims>)) {
    match d
    case Fresh => false
    case Loading(manifest, offset, _) =>
      tokens.1.None? && tokens.0.Some? && tokens.0.value.manifest == Some(manifest) && tokens.0.value.offset == offset
    case Synced(generation, cursor, _) =>
      tokens.0.None? && tokens.1.Some? && tokens.1.value.generation == generation && tokens.1.value.sequence == cursor
  }

  /** In every run, an answered bootstrap page carries exactly one of the two cursors, the endpoint
    * accepts it back from the same user for the same project and as no other kind, and following
    * it is what the devices of `Service` do. */
  lemma {:induction false} BootstrapCursorsVerify(run: seq<System>, events: seq<Event>, i: nat, project: Uuid, owner: Uuid,
      device: Uuid, id: Uuid, offset: nat, received: seq<LogRow>, limit: int)
    requires IsRun(run, events) && i < |run|
    requires ManifestPageTx(run[i].db, device, id, offset, limit).1.Ok?
    ensures var r := ManifestPageTx(run[i].db, device, id, offset, limit).1.value;
      var tokens := BootstrapCursors(project, owner, id, offset, r);
      && KeepsCursors(Received(id, offset, received, r), tokens)
      && (tokens.0.Some? ==> Verify(tokens.0.value, BootstrapCursor, project, owner) && !Verify(tokens.0.value, PullCursor, project, owner))
      && (tokens.1.Some? ==> Verify(tokens.1.value, PullCursor, project, owner) && !Verify(tokens.1.value, BootstrapCursor, project, owner))
  {
    hide Moves, Starts, CoreOk, JobsOk, SnapshotsOk, TargetsOk, WorkersOk, DevicesOk, ManifestPage, Latest, Logged;
    RunIsSafe(run, events, i);
    SystemIsDb(run[i]);
    var s := run[i].db;
    assert ManifestOk(s.manifests[id], Entries(s.t), s.project.value.generation);
    ManifestBounds(s.manifests[id].items, Entries(s.t), s.manifests[id].sequence);
  }

  /** A cursor is accepted from nobody but its owner, for no project but its own and as no kind but its
    * own, and only with sound numbers. */
  lemma {:induction false} CursorIsBound(c: Claims, kind: CursorKind, project: Uuid, owner: Uuid)
    ensures Verify(c, kind, project, owner) <==>
      && (c.owner == owner && c.project == project && c.kind == kind)
      && (c.generation >= 1 && c.sequence >= 0 && c.offset >= 0)
      && !(kind == PullCursor && c.manifest.Some?)
  {
  }

  /** A pull's next cursor is accepted back, and carries the generation and sequence it was served at. */
  lemma {:induction false} PullCursorVerifies(run: seq<System>, events: seq<Event>, i: nat, project: Uuid, owner: Uuid,
      c: Claims, limit: nat)
    requires IsRun(run, events) && i < |run| && Verify(c, PullCursor, project, owner)
    requires Logged(run[i].db.t) && PullTx(run[i].db, c.generation, c.sequence, limit).Ok?
    ensures var r := PullTx(run[i].db, c.generation, c.sequence, limit).value;
      var next := PullCursorOf(project, owner, r);
      && Verify(next, PullCursor, project, owner)
      && next.generation == c.generation && next.sequence == c.sequence + |r.page.records|
      && (r.page.hasMore && limit > 0 ==> next.sequence > c.sequence)
  {
    hide Moves, Starts, PullTx, Logged;
    PullIsServedExactly(run, events, i, c.generation, c.sequence, limit);
  }
}
