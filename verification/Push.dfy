/** The item loop of a push: per-object compare-and-set over `object_heads`.
  *
  * `PushBatch` specifies the loop as a fold; the lemmas say what the fold means for the log.
  */
module Push {
  import opened Basics
  import opened ChangeLog

  datatype NewRevision = NewRevision(
    obj: ObjectId,
    schema: Option<int>,
    base: Option<int>,
    hash: Option<Hash>,
    changedAt: Time,
    tombstone: bool)

  datatype Code = MissingPayload | TooLarge(maxBytes: nat, actualBytes: int) | WrongMediaType

  datatype ItemResult =
    | Applied(obj: ObjectId, revision: int, changeSequence: int, changedAt: Time)
    | Conflicted(obj: ObjectId, expected: Option<int>, actual: Option<int>)
    | Rejected(obj: ObjectId, code: Code)

  /** Tables, fresh-identifier counter and results after some items of a batch. */
  datatype Batch = Batch(t: Tables, nextId: nat, results: seq<ItemResult>)

  function MaxPayloadBytes(kind: Kind): nat {
    match kind
    case Todo => 8 * 1024 * 1024
    case Classification => 5 * 1024 * 1024
    case Index => 5 * 1024 * 1024
    case Image => 10 * 1024 * 1024
  }

  predicate ValidMediaType(kind: Kind, essence: string) {
    match kind
    case Todo => essence == "text/markdown" || essence == "text/plain"
    case Classification => essence == "application/json"
    case Index => essence == "application/json"
    case Image => "image/" <= essence || essence == "application/octet-stream"
  }

  /** The catalogue row a revision will reference, or the reason the item is rejected. */
  function PayloadFor(payloads: Catalogue, item: NewRevision): Result<Option<Uuid>, Code> {
    if item.tombstone then Ok(None)
    else if item.hash.None? || item.hash.value !in payloads then Err(MissingPayload)
    else
      var p := payloads[item.hash.value];
      if p.size > MaxPayloadBytes(item.obj.kind) then Err(TooLarge(MaxPayloadBytes(item.obj.kind), p.size))
      else if !ValidMediaType(item.obj.kind, p.essence) then Err(WrongMediaType)
      else Ok(Some(p.id))
  }

  /** The revision written for an item over head revision `actual`. */
  function NextRevision(item: NewRevision, actual: Option<int>, payload: Option<Uuid>, device: Uuid): Revision {
    Revision(item.obj, (if actual.Some? then actual.value else 0) + 1, item.base, item.schema,
             payload, item.hash, item.tombstone, item.changedAt, device)
  }

  /** One turn of the loop; a violated check constraint aborts the whole transaction. */
  function PushOne(b: Batch, payloads: Catalogue, device: Uuid, item: NewRevision): Result<Batch, Error> {
    var actual := HeadRevision(b.t, item.obj);
    if item.base != actual then
      Ok(b.(results := b.results + [Conflicted(item.obj, item.base, actual)]))
    else
      match PayloadFor(payloads, item)
      case Err(code) => Ok(b.(results := b.results + [Rejected(item.obj, code)]))
      case Ok(payload) =>
        var rev := NextRevision(item, actual, payload, device);
        if !RowCheck(rev) then Err(Database)
        else Ok(Batch(Append(b.t, b.nextId, rev), b.nextId + 1,
                      b.results + [Applied(item.obj, rev.revision, b.t.changeSeq + 1, item.changedAt)]))
  }

  function PushBatch(b: Batch, payloads: Catalogue, device: Uuid, items: seq<NewRevision>): Result<Batch, Error> {
    if items == [] then Ok(b)
    else
      match PushBatch(b, payloads, device, Init(items))
      case Err(e) => Err(e)
      case Ok(before) => PushOne(before, payloads, device, Last(items))
  }

  // ---- What one batch keeps ----

  /** Every stored revision meets its check constraint and its content is in the catalogue. */
  ghost predicate Closed(t: Tables, payloads: Catalogue) {
    forall id :: id in t.revisions ==>
      var r := t.revisions[id];
      && RowCheck(r)
      && (!r.tombstone ==> r.hash.value in payloads && payloads[r.hash.value].id == r.payload.value)
  }

  ghost predicate IdsBelow(t: Tables, nextId: nat) {
    forall id :: id in t.revisions ==> id < nextId
  }

  ghost predicate BatchOk(b: Batch, payloads: Catalogue) {
    TablesOk(b.t) && IdsBelow(b.t, b.nextId) && Closed(b.t, payloads)
  }

  /** A checked revision whose content is in the catalogue keeps the tables covered by it. */
  lemma {:induction false} ClosedOfAppend(t: Tables, payloads: Catalogue, id: nat, rev: Revision)
    requires Closed(t, payloads) && IdsBelow(t, id) && RowCheck(rev)
    requires !rev.tombstone ==> rev.hash.value in payloads && payloads[rev.hash.value].id == rev.payload.value
    ensures Closed(Append(t, id, rev), payloads) && IdsBelow(Append(t, id, rev), id + 1)
  {
  }

  lemma {:induction false} PushOneKeeps(b: Batch, payloads: Catalogue, device: Uuid, item: NewRevision)
    requires BatchOk(b, payloads) && PushOne(b, payloads, device, item).Ok?
    ensures var c := PushOne(b, payloads, device, item).value;
      && BatchOk(c, payloads)
      && |c.results| == |b.results| + 1 && b.results == Init(c.results)
      && b.nextId <= c.nextId
      && (if Last(c.results).Applied?
          then
            && item.base == HeadRevision(b.t, item.obj) && PayloadFor(payloads, item).Ok?
            && Last(c.results).changeSequence == c.t.changeSeq
            && Entries(c.t) == Entries(b.t)
               + [NextRevision(item, item.base, PayloadFor(payloads, item).value, device)]
          else c.t == b.t)
  {
    hide Closed, TablesOk, Append, RowCheck;
    var actual := HeadRevision(b.t, item.obj);
    if item.base == actual && PayloadFor(payloads, item).Ok? {
      var rev := NextRevision(item, actual, PayloadFor(payloads, item).value, device);
      assert b.nextId !in b.t.revisions;
      ClosedOfAppend(b.t, payloads, b.nextId, rev);
      AppendKeepsTables(b.t, b.nextId, rev);
    }
  }

  /** `result` reports `item`, and when applied names the log entry that carries it. */
  ghost predicate Reports(item: NewRevision, result: ItemResult, device: Uuid, log: seq<Revision>, start: nat) {
    && result.obj == item.obj
    && (result.Applied? ==>
      && start < result.changeSequence <= |log|
      && result.changedAt == item.changedAt
      && var e := log[result.changeSequence - 1];
         && e.obj == item.obj && e.base == item.base && e.revision == result.revision
         && VisibleOf(e) == Visible(item.tombstone, item.schema, item.hash)
         && e.changedAt == item.changedAt && e.device == device)
  }

  function AppliedCount(results: seq<ItemResult>): nat {
    if results == [] then 0
    else AppliedCount(Init(results)) + if Last(results).Applied? then 1 else 0
  }

  /** A push only appends: the old log is a prefix, and the applied results are, in order,
    * exactly the new entries.  The log, the history and the heads stay consistent. */
  lemma {:induction false} PushBatchKeeps(b: Batch, payloads: Catalogue, device: Uuid, items: seq<NewRevision>)
    requires BatchOk(b, payloads) && b.results == []
    requires PushBatch(b, payloads, device, items).Ok?
    ensures var c := PushBatch(b, payloads, device, items).value;
      && BatchOk(c, payloads) && b.nextId <= c.nextId
      && Entries(b.t) <= Entries(c.t)
      && |c.results| == |items|
      && (forall k :: 0 <= k < |items| ==> Reports(items[k], c.results[k], device, Entries(c.t), b.t.changeSeq))
      && (forall k, m :: 0 <= k < m < |items| && c.results[k].Applied? && c.results[m].Applied? ==>
            c.results[k].changeSequence < c.results[m].changeSequence)
      && c.t.changeSeq == b.t.changeSeq + AppliedCount(c.results)
  {
    hide BatchOk, PushOne, PayloadFor, HeadRevision, Reports, Entries, TablesOk, Logged;
    if items != [] {
      var before := PushBatch(b, payloads, device, Init(items)).value;
      PushBatchKeeps(b, payloads, device, Init(items));
      PushOneKeeps(before, payloads, device, Last(items));
      var c := PushOne(before, payloads, device, Last(items)).value;
      PushOneReports(b, before, payloads, device, Last(items));
      forall k | 0 <= k < |items| - 1
        ensures c.results[k] == before.results[k]
        ensures Reports(items[k], c.results[k], device, Entries(c.t), b.t.changeSeq)
        ensures c.results[k].Applied? ==> c.results[k].changeSequence <= before.t.changeSeq
      {
        assert Init(items)[k] == items[k];
        ReportsLast(items[k], before.results[k], device, Entries(before.t), Entries(c.t), b.t.changeSeq);
      }
    }
  }

  /** A report stays true of a longer log. */
  lemma {:induction false} ReportsLast(item: NewRevision, result: ItemResult, device: Uuid, log: seq<Revision>,
      longer: seq<Revision>, start: nat)
    requires Reports(item, result, device, log, start) && log <= longer
    ensures Reports(item, result, device, longer, start)
    ensures result.Applied? ==> result.changeSequence <= |log|
  {
  }

  /** The last result reports the last item, and names an entry past all earlier ones. */
  lemma {:induction false} PushOneReports(b: Batch, before: Batch, payloads: Catalogue, device: Uuid, item: NewRevision)
    requires BatchOk(before, payloads) && PushOne(before, payloads, device, item).Ok?
    requires b.t.changeSeq <= before.t.changeSeq
    ensures var c := PushOne(before, payloads, device, item).value;
      && Logged(before.t) && Logged(c.t) && Entries(before.t) <= Entries(c.t) && c.results != []
      && Reports(item, Last(c.results), device, Entries(c.t), b.t.changeSeq)
      && c.t.changeSeq == before.t.changeSeq + (if Last(c.results).Applied? then 1 else 0)
      && (Last(c.results).Applied? ==> Last(c.results).changeSequence > before.t.changeSeq)
  {
    hide Closed, IdsBelow, Linear, HeadsAreLatest;
    PushOneKeeps(before, payloads, device, item);
  }

  // ---- An item is applied at most once, ever ----

  /** An item whose object and base were already written over is answered with a conflict. */
  lemma {:induction false} UsedItemConflicts(b: Batch, payloads: Catalogue, device: Uuid,
      items: seq<NewRevision>, k: nat, i: nat)
    requires BatchOk(b, payloads) && b.results == []
    requires PushBatch(b, payloads, device, items).Ok?
    requires k < |items| && i < b.t.changeSeq
    requires Entries(b.t)[i].obj == items[k].obj && Entries(b.t)[i].base == items[k].base
    ensures var r := PushBatch(b, payloads, device, items).value.results;
      |r| == |items| && r[k].Conflicted?
  {
    var before := PushBatch(b, payloads, device, Init(items)).value;
    PushBatchKeeps(b, payloads, device, items);
    PushBatchKeeps(b, payloads, device, Init(items));
    PushOneKeeps(before, payloads, device, Last(items));
    if k < |items| - 1 {
      UsedItemConflicts(b, payloads, device, Init(items), k, i);
    } else {
      assert Entries(before.t)[i] == Entries(b.t)[i];
      UsedBaseIsStale(Entries(before.t), i);
      HeadRowsAreLatest(before.t);
    }
  }

  lemma {:induction false} SameBaseSameEntry(x: NewRevision, y: NewRevision, r: ItemResult, q: ItemResult, device: Uuid,
      log: seq<Revision>, start: nat)
    requires Linear(log) && Reports(x, r, device, log, start) && Reports(y, q, device, log, start)
    requires r.Applied? && q.Applied? && x.obj == y.obj && x.base == y.base
    ensures r.changeSequence == q.changeSequence
  {
    OneWritePerBase(log, r.changeSequence - 1, q.changeSequence - 1);
  }

  /** Two items of one batch with the same object and base are never both applied. */
  lemma {:induction false} RepeatedItemAppliesOnce(b: Batch, payloads: Catalogue, device: Uuid,
      items: seq<NewRevision>, k: nat, m: nat)
    requires BatchOk(b, payloads) && b.results == []
    requires PushBatch(b, payloads, device, items).Ok?
    requires k < m < |items| && items[k].obj == items[m].obj && items[k].base == items[m].base
    ensures var r := PushBatch(b, payloads, device, items).value.results;
      |r| == |items| && !(r[k].Applied? && r[m].Applied?)
  {
    PushBatchKeeps(b, payloads, device, items);
    var c := PushBatch(b, payloads, device, items).value;
    if c.results[k].Applied? && c.results[m].Applied? {
      SameBaseSameEntry(items[k], items[m], c.results[k], c.results[m], device, Entries(c.t), b.t.changeSeq);
    }
  }

  // ---- Items over distinct objects do not interfere ----

  ghost predicate DistinctObjects(items: seq<NewRevision>) {
    forall i, j :: 0 <= i < j < |items| ==> items[i].obj != items[j].obj
  }

  /** What object `o` looks like in two states of the tables is the same. */
  ghost predicate SameObject(t: Tables, u: Tables, o: ObjectId)
    requires Logged(t) && Logged(u)
  {
    && (o in Latest(Entries(u)) <==> o in Latest(Entries(t)))
    && (o in Latest(Entries(t)) ==> Latest(Entries(u))[o] == Latest(Entries(t))[o])
    && HeadRevision(u, o) == HeadRevision(t, o)
  }

  ghost predicate Shows(t: Tables, item: NewRevision)
    requires Logged(t)
  {
    && item.obj in Latest(Entries(t))
    && VisibleOf(Latest(Entries(t))[item.obj].rev) == Visible(item.tombstone, item.schema, item.hash)
  }

  lemma {:induction false} PushOneTouchesOneObject(b: Batch, payloads: Catalogue, device: Uuid, item: NewRevision)
    requires BatchOk(b, payloads) && PushOne(b, payloads, device, item).Ok?
    ensures var c := PushOne(b, payloads, device, item).value;
      && TablesOk(c.t)
      && c.results != []
      && (Last(c.results).Applied? <==>
            item.base == HeadRevision(b.t, item.obj) && PayloadFor(payloads, item).Ok?)
      && (Last(c.results).Applied? ==> Shows(c.t, item))
      && (!Last(c.results).Applied? ==> c.t == b.t)
      && (forall o :: o != item.obj ==> SameObject(b.t, c.t, o))
  {
    PushOneKeeps(b, payloads, device, item);
    var c := PushOne(b, payloads, device, item).value;
    if Last(c.results).Applied? {
      LatestOfAppend(Entries(b.t), NextRevision(item, item.base, PayloadFor(payloads, item).value, device));
    }
  }

  /** `c` is what the items of `items`, each judged against `b` alone, make of `b`. */
  ghost predicate Independent(b: Batch, c: Batch, payloads: Catalogue, items: seq<NewRevision>)
    requires Logged(b.t)
  {
    && Logged(c.t) && |c.results| == |items|
    && (forall k :: 0 <= k < |items| ==>
      (c.results[k].Applied? <==>
        items[k].base == HeadRevision(b.t, items[k].obj) && PayloadFor(payloads, items[k]).Ok?))
    && (forall k :: 0 <= k < |items| && c.results[k].Applied? ==> Shows(c.t, items[k]))
    && (forall o :: (forall k :: 0 <= k < |items| && items[k].obj == o ==> !c.results[k].Applied?) ==>
      SameObject(b.t, c.t, o))
  }

  lemma {:induction false} IndependentStep(b: Batch, before: Batch, c: Batch, payloads: Catalogue, first: seq<NewRevision>,
      last: NewRevision)
    requires Logged(b.t) && Independent(b, before, payloads, first) && Logged(c.t)
    requires forall k :: 0 <= k < |first| ==> first[k].obj != last.obj
    requires |c.results| == |before.results| + 1 && before.results == Init(c.results)
    requires Last(c.results).Applied? <==>
      last.base == HeadRevision(before.t, last.obj) && PayloadFor(payloads, last).Ok?
    requires Last(c.results).Applied? ==> Shows(c.t, last)
    requires !Last(c.results).Applied? ==> c.t == before.t
    requires forall o :: o != last.obj ==> SameObject(before.t, c.t, o)
    ensures Independent(b, c, payloads, first + [last])
  {
    var items := first + [last];
    assert SameObject(b.t, before.t, last.obj);
    forall k | 0 <= k < |items|
      ensures c.results[k].Applied? <==>
        items[k].base == HeadRevision(b.t, items[k].obj) && PayloadFor(payloads, items[k]).Ok?
      ensures c.results[k].Applied? ==> Shows(c.t, items[k])
    {
      if k < |first| {
        assert before.results[k] == c.results[k];
        assert SameObject(before.t, c.t, items[k].obj);
      }
    }
    forall o | forall k :: 0 <= k < |items| && items[k].obj == o ==> !c.results[k].Applied?
      ensures SameObject(b.t, c.t, o)
    {
      forall k | 0 <= k < |first| && first[k].obj == o ensures !before.results[k].Applied? {
        assert items[k] == first[k] && before.results[k] == c.results[k];
      }
      assert SameObject(b.t, before.t, o);
      if o == last.obj {
        assert items[|first|] == last;
        assert !c.results[|first|].Applied?;
      } else {
        assert SameObject(before.t, c.t, o);
      }
    }
  }

  lemma {:induction false} NoItemsAreIndependent(b: Batch, payloads: Catalogue)
    requires Logged(b.t) && b.results == []
    ensures Independent(b, b, payloads, [])
  {
  }

  /** In a batch over distinct objects, an item is applied exactly when its base is the head
    * revision before the batch and its payload is acceptable; afterwards the object shows the
    * item's content, and every object without an applied item is unchanged. */
  lemma {:induction false} DistinctItemsAreIndependent(b: Batch, payloads: Catalogue, device: Uuid,
      items: seq<NewRevision>)
    requires BatchOk(b, payloads) && b.results == [] && DistinctObjects(items)
    requires PushBatch(b, payloads, device, items).Ok?
    ensures Independent(b, PushBatch(b, payloads, device, items).value, payloads, items)
  {
    hide Closed, IdsBelow, Linear, HeadsAreLatest, Latest, Shows, SameObject, PayloadFor, HeadRevision, Reports, Independent;
    if items == [] {
      NoItemsAreIndependent(b, payloads);
    } else {
      var before := PushBatch(b, payloads, device, Init(items)).value;
      PushBatchKeeps(b, payloads, device, Init(items));
      DistinctItemsAreIndependent(b, payloads, device, Init(items));
      PushOneKeeps(before, payloads, device, Last(items));
      PushOneTouchesOneObject(before, payloads, device, Last(items));
      var c := PushOne(before, payloads, device, Last(items)).value;
      IndependentStep(b, before, c, payloads, Init(items), Last(items));
      assert Init(items) + [Last(items)] == items;
    }
  }
}
