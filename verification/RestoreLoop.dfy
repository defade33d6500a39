/** The meaning of a restore: appending revisions that bring back an earlier state.
  *
  * `RestoreItems` specifies the write loop; `RestoredView` is what the restore promises.
  */
module RestoreLoop {
  import opened Basics
  import opened ChangeLog
  import opened Push

  /** An entry of a restore target: the part of a manifest row that is brought back. */
  datatype Item = Item(
    obj: ObjectId,
    schema: Option<int>,
    revision: int,
    hash: Option<Hash>,
    device: Uuid,
    tombstone: bool)

  /** Tables, fresh-identifier counter and write counters after some items. */
  datatype Progress = Progress(t: Tables, nextId: nat, objects: nat, tombstones: nat)

  function ItemOf(rev: Revision): Item {
    Item(rev.obj, rev.schema, rev.revision, rev.hash, rev.device, rev.tombstone)
  }

  /** The item added for a current object that the target does not contain. */
  function AbsentItem(row: Revision): Item {
    Item(row.obj, None, 0, None, row.device, true)
  }

  predicate SameManifestState(row: Revision, item: Item) {
    && row.obj == item.obj
    && row.tombstone == item.tombstone
    && row.schema == item.schema
    && row.hash == item.hash
    && row.revision == item.revision
  }

  predicate Mentions(items: seq<Item>, o: ObjectId) {
    exists i :: 0 <= i < |items| && items[i].obj == o
  }

  /** The target followed by a tombstone for every current object it does not mention. */
  function WithAbsent(target: seq<Item>, current: map<ObjectId, Revision>, order: seq<ObjectId>): seq<Item>
    requires forall o :: o in order ==> o in current
  {
    if order == [] then target
    else
      assert Last(order) in order;
      var longer := WithAbsent(target, current, Init(order));
      if Mentions(longer, Last(order)) then longer else longer + [AbsentItem(current[Last(order)])]
  }

  predicate Unchanged(current: map<ObjectId, Revision>, item: Item) {
    item.obj in current && SameManifestState(current[item.obj], item)
  }

  function RestoredRevision(current: map<ObjectId, Revision>, item: Item, payload: Option<Uuid>, now: Time): Revision {
    var actual := if item.obj in current then current[item.obj].revision else 0;
    Revision(item.obj, actual + 1, (if actual > 0 then Some(actual) else None), item.schema,
             payload, item.hash, item.tombstone, now, item.device)
  }

  function RestorePayload(payloads: Catalogue, item: Item): Result<Option<Uuid>, Error> {
    if item.tombstone then Ok(None)
    else if item.hash.None? then Err(InvalidPayload)
    else if item.hash.value !in payloads then Err(PayloadNotFound)
    else Ok(Some(payloads[item.hash.value].id))
  }

  /** One turn of the loop; `current` holds the heads as they were read before it started. */
  function RestoreOne(p: Progress, payloads: Catalogue, current: map<ObjectId, Revision>, item: Item, now: Time)
    : Result<Progress, Error>
  {
    if Unchanged(current, item) then Ok(p)
    else
      match RestorePayload(payloads, item)
      case Err(e) => Err(e)
      case Ok(payload) =>
        var rev := RestoredRevision(current, item, payload, now);
        if !RowCheck(rev) then Err(Database)
        else Ok(Progress(Append(p.t, p.nextId, rev), p.nextId + 1,
                         p.objects + (if item.tombstone then 0 else 1),
                         p.tombstones + (if item.tombstone then 1 else 0)))
  }

  function RestoreItems(p: Progress, payloads: Catalogue, current: map<ObjectId, Revision>, items: seq<Item>, now: Time)
    : Result<Progress, Error>
  {
    if items == [] then Ok(p)
    else
      match RestoreItems(p, payloads, current, Init(items), now)
      case Err(e) => Err(e)
      case Ok(before) => RestoreOne(before, payloads, current, Last(items), now)
  }

  // ---- Targets ----

  ghost predicate DistinctItems(items: seq<Item>) {
    forall i, j :: 0 <= i < j < |items| ==> items[i].obj != items[j].obj
  }

  /** `target` is the state of the first `s` entries of `log`: each newest row, once. */
  ghost predicate TargetAt(target: seq<Item>, log: seq<Revision>, s: nat)
    requires s <= |log|
  {
    && DistinctItems(target)
    && (forall item :: item in target <==>
      item.obj in Latest(log[..s]) && item == ItemOf(Latest(log[..s])[item.obj].rev))
  }

  /** The absent-object loop keeps the target, and adds exactly the missing objects as tombstones. */
  lemma {:induction false} WithAbsentCompletes(target: seq<Item>, current: map<ObjectId, Revision>, order: seq<ObjectId>)
    requires forall o :: o in order ==> o in current && current[o].obj == o
    requires DistinctItems(target)
    ensures var items := WithAbsent(target, current, order);
      && DistinctItems(items)
      && (forall item :: item in items <==>
        || item in target
        || (item.obj in order && !Mentions(target, item.obj) && item == AbsentItem(current[item.obj])))
      && (forall o :: Mentions(items, o) <==> Mentions(target, o) || o in order)
  {
    if order != [] {
      var shorter, last := Init(order), Last(order);
      assert forall o :: o in order <==> o in shorter || o == last;
      WithAbsentCompletes(target, current, shorter);
      var longer := WithAbsent(target, current, shorter);
      var items := WithAbsent(target, current, order);
      var added := AbsentItem(current[last]);
      if !Mentions(longer, last) {
        assert items == longer + [added];
        assert forall item :: item in items <==> item in longer || item == added;
        assert items[|longer|] == added;
        forall o ensures Mentions(items, o) <==> Mentions(longer, o) || o == last {
          if Mentions(longer, o) {
            var i :| 0 <= i < |longer| && longer[i].obj == o;
            assert items[i].obj == o;
          }
        }
      }
    }
  }

  // ---- The loop ----

  ghost predicate ProgressOk(p: Progress, payloads: Catalogue) {
    TablesOk(p.t) && IdsBelow(p.t, p.nextId) && Closed(p.t, payloads)
  }

  function ItemVisible(item: Item): Visible {
    Visible(item.tombstone, item.schema, item.hash)
  }

  /** The objects the loop writes, split by whether they become tombstones. */
  function Written(items: seq<Item>, current: map<ObjectId, Revision>, tombstone: bool): set<ObjectId> {
    set i | 0 <= i < |items| && items[i].tombstone == tombstone && !Unchanged(current, items[i]) :: items[i].obj
  }

  ghost predicate SameRow(rows: map<ObjectId, LogRow>, after: map<ObjectId, LogRow>, o: ObjectId) {
    && (o in after <==> o in rows)
    && (o in rows ==> after[o] == rows[o])
  }

  /** Object `o` shows `v` in `rows`. */
  ghost predicate ShowsAs(rows: map<ObjectId, LogRow>, o: ObjectId, v: Visible) {
    o in rows && VisibleOf(rows[o].rev) == v
  }

  /** `after` shows every item, and is `rows` everywhere else. */
  ghost predicate Brought(rows: map<ObjectId, LogRow>, after: map<ObjectId, LogRow>, items: seq<Item>) {
    && (forall i :: 0 <= i < |items| ==> ShowsAs(after, items[i].obj, ItemVisible(items[i])))
    && (forall o :: !Mentions(items, o) ==> SameRow(rows, after, o))
  }

  lemma {:induction false} BroughtStep(rows: map<ObjectId, LogRow>, before: map<ObjectId, LogRow>, after: map<ObjectId, LogRow>,
      items: seq<Item>, item: Item)
    requires Brought(rows, before, items) && !Mentions(items, item.obj)
    requires ShowsAs(after, item.obj, ItemVisible(item))
    requires forall o :: o != item.obj ==> SameRow(before, after, o)
    ensures Brought(rows, after, items + [item])
  {
    var longer := items + [item];
    forall i | 0 <= i < |longer| ensures ShowsAs(after, longer[i].obj, ItemVisible(longer[i])) {
      if i < |items| {
        assert longer[i] == items[i];
        assert SameRow(before, after, items[i].obj);
      }
    }
    forall o | !Mentions(longer, o) ensures SameRow(rows, after, o) {
      assert longer[|items|] == item;
      assert !Mentions(items, o) by {
        forall i | 0 <= i < |items| ensures items[i].obj != o {
          assert longer[i] == items[i];
        }
      }
      assert SameRow(rows, before, o) && SameRow(before, after, o);
    }
  }

  lemma {:induction false} RestoreOneKeeps(p: Progress, payloads: Catalogue, current: map<ObjectId, Revision>, item: Item, now: Time)
    requires ProgressOk(p, payloads) && RestoreOne(p, payloads, current, item, now).Ok?
    requires item.obj in current <==> item.obj in Latest(Entries(p.t))
    requires item.obj in current ==> current[item.obj] == Latest(Entries(p.t))[item.obj].rev
    ensures var q := RestoreOne(p, payloads, current, item, now).value;
      && ProgressOk(q, payloads) && p.nextId <= q.nextId
      && Entries(p.t) <= Entries(q.t)
      && ShowsAs(Latest(Entries(q.t)), item.obj, ItemVisible(item))
      && (forall o :: o != item.obj ==> SameRow(Latest(Entries(p.t)), Latest(Entries(q.t)), o))
      && q.objects == p.objects + (if Unchanged(current, item) || item.tombstone then 0 else 1)
      && q.tombstones == p.tombstones + (if Unchanged(current, item) || !item.tombstone then 0 else 1)
      && q.t.changeSeq == p.t.changeSeq + (q.objects - p.objects) + (q.tombstones - p.tombstones)
  {
    hide Closed, Linear, Append, RowCheck, Latest, HeadRows;
    if !Unchanged(current, item) {
      var rev := RestoredRevision(current, item, RestorePayload(payloads, item).value, now);
      assert p.nextId !in p.t.revisions;
      HeadRowsAreLatest(p.t);
      ClosedOfAppend(p.t, payloads, p.nextId, rev);
      AppendKeepsTables(p.t, p.nextId, rev);
      LatestOfAppend(Entries(p.t), rev);
    }
  }

  /** After a loop over `items` that started at `p`: what every object shows, how much was
    * written, and that nothing but appending happened. */
  ghost predicate Restored(p: Progress, q: Progress, payloads: Catalogue, current: map<ObjectId, Revision>, items: seq<Item>)
    requires Logged(p.t)
  {
    && ProgressOk(q, payloads) && p.nextId <= q.nextId
    && Entries(p.t) <= Entries(q.t)
    && Brought(Latest(Entries(p.t)), Latest(Entries(q.t)), items)
    && q.objects == p.objects + |Written(items, current, false)|
    && q.tombstones == p.tombstones + |Written(items, current, true)|
    && q.t.changeSeq == p.t.changeSeq + (q.objects - p.objects) + (q.tombstones - p.tombstones)
  }

  lemma {:induction false} WrittenStep(items: seq<Item>, item: Item, current: map<ObjectId, Revision>, tombstone: bool)
    requires !Mentions(items, item.obj)
    ensures Written(items + [item], current, tombstone) ==
      Written(items, current, tombstone)
      + if item.tombstone == tombstone && !Unchanged(current, item) then {item.obj} else {}
    ensures item.obj !in Written(items, current, tombstone)
  {
    var longer := items + [item];
    forall o | o in Written(items, current, tombstone) ensures o in Written(longer, current, tombstone) {
      var i :| 0 <= i < |items| && items[i].tombstone == tombstone && !Unchanged(current, items[i]) && items[i].obj == o;
      assert longer[i] == items[i];
    }
    if item.tombstone == tombstone && !Unchanged(current, item) {
      assert longer[|items|] == item;
    }
  }

  /** `current` holds the newest revision of every object. */
  ghost predicate CurrentIs(current: map<ObjectId, Revision>, rows: map<ObjectId, LogRow>) {
    && current.Keys == rows.Keys
    && (forall o :: o in rows ==> current[o] == rows[o].rev)
  }

  lemma {:induction false} RestoredStep(p: Progress, before: Progress, q: Progress, payloads: Catalogue, current: map<ObjectId, Revision>,
      items: seq<Item>, item: Item, now: Time)
    requires Logged(p.t) && CurrentIs(current, Latest(Entries(p.t)))
    requires Restored(p, before, payloads, current, items) && !Mentions(items, item.obj)
    requires RestoreOne(before, payloads, current, item, now) == Ok(q)
    ensures Restored(p, q, payloads, current, items + [item])
  {
    hide Latest, Linear, RestoreOne, Closed, IdsBelow, HeadsAreLatest, Unchanged, Written, Entries;
    assert SameRow(Latest(Entries(p.t)), Latest(Entries(before.t)), item.obj);
    RestoreOneKeeps(before, payloads, current, item, now);
    BroughtStep(Latest(Entries(p.t)), Latest(Entries(before.t)), Latest(Entries(q.t)), items, item);
    WrittenStep(items, item, current, false);
    WrittenStep(items, item, current, true);
  }

  lemma {:induction false} RestoredNothing(p: Progress, payloads: Catalogue, current: map<ObjectId, Revision>)
    requires ProgressOk(p, payloads)
    ensures Restored(p, p, payloads, current, [])
  {
    assert Written([], current, false) == {} && Written([], current, true) == {};
  }

  lemma {:induction false} RestoreItemsMeaning(p: Progress, payloads: Catalogue, current: map<ObjectId, Revision>,
      items: seq<Item>, now: Time)
    requires ProgressOk(p, payloads) && CurrentIs(current, Latest(Entries(p.t))) && DistinctItems(items)
    requires RestoreItems(p, payloads, current, items, now).Ok?
    ensures Restored(p, RestoreItems(p, payloads, current, items, now).value, payloads, current, items)
  {
    hide Restored, Closed, IdsBelow, Linear, HeadsAreLatest, RestoreOne, CurrentIs, Latest;
    if items == [] {
      RestoredNothing(p, payloads, current);
    } else {
      var first, last := Init(items), Last(items);
      RestoreItemsMeaning(p, payloads, current, first, now);
      assert !Mentions(first, last.obj);
      var before := RestoreItems(p, payloads, current, first, now).value;
      var q := RestoreItems(p, payloads, current, items, now).value;
      assert RestoreOne(before, payloads, current, last, now) == Ok(q);
      assert Logged(p.t);
      assert first + [last] == items;
      RestoredStep(p, before, q, payloads, current, first, last, now);
    }
  }

  // ---- When the loop fails ----

  /** An item whose content could be stored: what the check constraint asks of a revision. */
  predicate WellFormed(item: Item) {
    if item.tombstone then item.hash.None? && item.schema.None?
    else item.hash.Some? && item.schema.Some? && item.schema.value > 0
  }

  /** Over well-formed items the loop fails exactly when an item it must write has no catalogue
    * row, and then with `PayloadNotFound`. */
  lemma {:induction false} RestoreFailsOnlyOnMissingPayload(p: Progress, payloads: Catalogue,
      current: map<ObjectId, Revision>, items: seq<Item>, now: Time)
    requires forall i :: 0 <= i < |items| ==> WellFormed(items[i])
    requires forall o :: o in current ==> current[o].revision > 0
    ensures var r := RestoreItems(p, payloads, current, items, now);
      && (r.Err? <==> exists i :: 0 <= i < |items| && !items[i].tombstone && !Unchanged(current, items[i])
                        && items[i].hash.Some? && items[i].hash.value !in payloads)
      && (r.Err? ==> r.error == PayloadNotFound)
  {
    if items != [] {
      RestoreFailsOnlyOnMissingPayload(p, payloads, current, Init(items), now);
      var first, last := Init(items), Last(items);
      assert forall i :: 0 <= i < |first| ==> first[i] == items[i];
      assert items[|first|] == last;
      var r := RestoreItems(p, payloads, current, first, now);
      if r.Err? {
        var i :| 0 <= i < |first| && !first[i].tombstone && !Unchanged(current, first[i])
          && first[i].hash.Some? && first[i].hash.value !in payloads;
        assert items[i] == first[i];
      }
    }
  }

  // ---- What a restore promises ----

  /** The visible state after restoring the state of the first `s` entries of `log`. */
  ghost function RestoredView(log: seq<Revision>, s: nat): map<ObjectId, Visible>
    requires s <= |log|
  {
    map o | o in Latest(log) ::
      if o in Latest(log[..s]) then VisibleOf(Latest(log[..s])[o].rev) else Visible(true, None, None)
  }

  lemma {:induction false} LatestKeysGrow(log: seq<Revision>, s: nat)
    requires s <= |log|
    ensures Latest(log[..s]).Keys <= Latest(log).Keys
  {
    LatestIsNewest(log[..s]);
    LatestIsNewest(log);
    forall o | o in Latest(log[..s]) ensures o in Latest(log) {
      var i := Latest(log[..s])[o].sequence - 1;
      assert log[..s][i] == log[i];
    }
  }

  /** A restore to the state of the first `s` entries: every object shows what it showed then,
    * objects unknown then are tombstones, the old log is a prefix of the new one, every write is
    * its object's next revision, and the counters count the objects written. */
  lemma {:induction false} RestoreBringsBack(p: Progress, payloads: Catalogue, current: map<ObjectId, Revision>,
      target: seq<Item>, order: seq<ObjectId>, s: nat, now: Time)
    requires ProgressOk(p, payloads) && p.objects == 0 && p.tombstones == 0
    requires CurrentIs(current, Latest(Entries(p.t)))
    requires s <= p.t.changeSeq && TargetAt(target, Entries(p.t), s)
    requires Lists(order, current.Keys)
    requires RestoreItems(p, payloads, current, WithAbsent(target, current, order), now).Ok?
    ensures var q := RestoreItems(p, payloads, current, WithAbsent(target, current, order), now).value;
      && ProgressOk(q, payloads) && p.nextId <= q.nextId
      && Entries(p.t) <= Entries(q.t)
      && VisibleAt(Entries(q.t)) == RestoredView(Entries(p.t), s)
      && q.t.changeSeq == p.t.changeSeq + q.objects + q.tombstones
      && q.objects == |WrittenObjects(Entries(p.t), s)|
      && q.tombstones == |WrittenTombstones(Entries(p.t), s)|
  {
    hide Closed, IdsBelow, HeadsAreLatest, WithAbsent, RestoreItems, Latest, Brought, TargetAt, CurrentIs, RestoredView, VisibleAt;
    var items := WithAbsent(target, current, order);
    var q := RestoreItems(p, payloads, current, items, now).value;
    var log := Entries(p.t);
    CompleteTarget(log, current, target, order, s);
    RestoreItemsMeaning(p, payloads, current, items, now);
    BroughtIsRestoredView(log, Entries(q.t), current, items, s);
    WrittenMeaning(log, current, items, s);
  }

  /** The objects a restore to `s` writes content for. */
  ghost function WrittenObjects(log: seq<Revision>, s: nat): set<ObjectId>
    requires s <= |log|
  {
    LatestKeysGrow(log, s);
    set o | o in Latest(log[..s]) && !Latest(log[..s])[o].rev.tombstone && Moved(log, s, o)
  }

  /** The objects a restore to `s` writes a tombstone for: those that were tombstones then and
    * were written since, and every object that did not exist then. */
  ghost function WrittenTombstones(log: seq<Revision>, s: nat): set<ObjectId>
    requires s <= |log|
  {
    set o | o in Latest(log) && (o in Latest(log[..s]) ==> Latest(log[..s])[o].rev.tombstone && Moved(log, s, o))
  }

  /** The object was written after entry `s`. */
  ghost predicate Moved(log: seq<Revision>, s: nat, o: ObjectId)
    requires s <= |log| && o in Latest(log[..s])
  {
    o in Latest(log) && Latest(log)[o] != Latest(log[..s])[o]
  }

  ghost function CompletedItem(log: seq<Revision>, current: map<ObjectId, Revision>, s: nat, o: ObjectId): Item
    requires s <= |log| && CurrentIs(current, Latest(log)) && o in Latest(log)
  {
    if o in Latest(log[..s]) then ItemOf(Latest(log[..s])[o].rev) else AbsentItem(current[o])
  }

  /** The completed target: the state at `s`, and a tombstone for everything newer. */
  ghost predicate Completed(items: seq<Item>, log: seq<Revision>, current: map<ObjectId, Revision>, s: nat)
    requires s <= |log| && CurrentIs(current, Latest(log))
  {
    && DistinctItems(items)
    && (forall item :: item in items ==>
      item.obj in Latest(log) && item == CompletedItem(log, current, s, item.obj))
    && (forall o :: o in Latest(log) ==> Mentions(items, o))
  }

  lemma {:induction false} CompleteTarget(log: seq<Revision>, current: map<ObjectId, Revision>, target: seq<Item>, order: seq<ObjectId>, s: nat)
    requires s <= |log| && TargetAt(target, log, s)
    requires CurrentIs(current, Latest(log)) && Lists(order, current.Keys)
    ensures Completed(WithAbsent(target, current, order), log, current, s)
  {
    hide Latest, WithAbsent;
    LatestIsNewest(log);
    LatestIsNewest(log[..s]);
    WithAbsentCompletes(target, current, order);
    LatestKeysGrow(log, s);
    forall o | o in Latest(log[..s]) ensures Mentions(target, o) {
      var item := ItemOf(Latest(log[..s])[o].rev);
      assert item in target;
    }
  }

  lemma {:induction false} BroughtIsRestoredView(log: seq<Revision>, after: seq<Revision>, current: map<ObjectId, Revision>,
      items: seq<Item>, s: nat)
    requires s <= |log| && CurrentIs(current, Latest(log)) && Completed(items, log, current, s)
    requires Brought(Latest(log), Latest(after), items)
    ensures VisibleAt(after) == RestoredView(log, s)
  {
    hide Latest;
    forall o
      ensures o in Latest(after) <==> o in Latest(log)
      ensures o in Latest(after) ==> VisibleOf(Latest(after)[o].rev) == RestoredView(log, s)[o]
    {
      if Mentions(items, o) {
        var i :| 0 <= i < |items| && items[i].obj == o;
        assert items[i] in items;
        assert ShowsAs(Latest(after), items[i].obj, ItemVisible(items[i]));
      } else {
        assert SameRow(Latest(log), Latest(after), o);
      }
    }
  }

  lemma {:induction false} SameRowSameRevision(log: seq<Revision>, a: LogRow, b: LogRow)
    requires Linear(log) && 1 <= a.sequence <= |log| && 1 <= b.sequence <= |log|
    requires a.rev == log[a.sequence - 1] && b.rev == log[b.sequence - 1] && a.rev.obj == b.rev.obj
    ensures a == b <==> a.rev.revision == b.rev.revision
  {
    if a.sequence < b.sequence {
      RevisionsGrow(log, a.sequence - 1, b.sequence - 1);
    } else if b.sequence < a.sequence {
      RevisionsGrow(log, b.sequence - 1, a.sequence - 1);
    }
  }

  lemma {:induction false} UnchangedIsNotMoved(log: seq<Revision>, current: map<ObjectId, Revision>, s: nat, o: ObjectId)
    requires Linear(log) && s <= |log| && CurrentIs(current, Latest(log)) && o in Latest(log[..s])
    ensures o in Latest(log)
    ensures Unchanged(current, ItemOf(Latest(log[..s])[o].rev)) <==> !Moved(log, s, o)
  {
    LatestKeysGrow(log, s);
    LatestIsNewest(log);
    LatestIsNewest(log[..s]);
    var past, latest := Latest(log[..s])[o], Latest(log)[o];
    assert log[..s][past.sequence - 1] == log[past.sequence - 1];
    SameRowSameRevision(log, past, latest);
    assert current[o] == latest.rev;
  }

  lemma {:induction false} WrittenObject(log: seq<Revision>, current: map<ObjectId, Revision>, items: seq<Item>, s: nat, i: nat)
    requires Linear(log) && s <= |log| && CurrentIs(current, Latest(log)) && Completed(items, log, current, s)
    requires i < |items|
    ensures items[i].obj in Latest(log)
    ensures !Unchanged(current, items[i]) && !items[i].tombstone <==> items[i].obj in WrittenObjects(log, s)
    ensures !Unchanged(current, items[i]) && items[i].tombstone <==> items[i].obj in WrittenTombstones(log, s)
  {
    assert items[i] in items;
    if items[i].obj in Latest(log[..s]) {
      UnchangedIsNotMoved(log, current, s, items[i].obj);
    } else {
      HistoryIsNumbered(log, items[i].obj);
    }
  }

  lemma {:induction false} WrittenMeaning(log: seq<Revision>, current: map<ObjectId, Revision>, items: seq<Item>, s: nat)
    requires Linear(log) && s <= |log| && CurrentIs(current, Latest(log)) && Completed(items, log, current, s)
    ensures Written(items, current, false) == WrittenObjects(log, s)
    ensures Written(items, current, true) == WrittenTombstones(log, s)
  {
    LatestKeysGrow(log, s);
    forall i | 0 <= i < |items|
      ensures items[i].obj in Latest(log)
      ensures !Unchanged(current, items[i]) && !items[i].tombstone <==> items[i].obj in WrittenObjects(log, s)
      ensures !Unchanged(current, items[i]) && items[i].tombstone <==> items[i].obj in WrittenTombstones(log, s)
    {
      WrittenObject(log, current, items, s, i);
    }
    assert forall o :: o in WrittenObjects(log, s) ==> Mentions(items, o);
    assert forall o :: o in WrittenTombstones(log, s) ==> Mentions(items, o);
  }

  // ---- Consequences ----

  /** Every logged revision is well formed and has its content in the catalogue. */
  ghost predicate LogClosed(log: seq<Revision>, payloads: Catalogue) {
    forall i :: 0 <= i < |log| ==> RowCheck(log[i]) && (!log[i].tombstone ==> log[i].hash.value in payloads)
  }

  lemma {:induction false} CompletedIsStorable(log: seq<Revision>, payloads: Catalogue, current: map<ObjectId, Revision>,
      items: seq<Item>, s: nat, i: nat)
    requires s <= |log| && LogClosed(log, payloads)
    requires CurrentIs(current, Latest(log)) && Completed(items, log, current, s) && i < |items|
    ensures WellFormed(items[i])
    ensures !items[i].tombstone ==> items[i].hash.value in payloads
  {
    hide Latest;
    LatestIsNewest(log[..s]);
    assert items[i] in items;
    if items[i].obj in Latest(log[..s]) {
      var n := Latest(log[..s])[items[i].obj].sequence;
      assert log[..s][n - 1] == log[n - 1];
    }
  }

  /** While the catalogue covers every stored revision, a restore to a past state never fails. */
  lemma {:induction false} RestoreSucceeds(p: Progress, payloads: Catalogue, current: map<ObjectId, Revision>,
      target: seq<Item>, order: seq<ObjectId>, s: nat, now: Time)
    requires ProgressOk(p, payloads) && CurrentIs(current, Latest(Entries(p.t)))
    requires s <= p.t.changeSeq && TargetAt(target, Entries(p.t), s) && Lists(order, current.Keys)
    ensures RestoreItems(p, payloads, current, WithAbsent(target, current, order), now).Ok?
  {
    hide Latest, RestoreItems, WithAbsent, HeadsAreLatest, Linear, Completed, TargetAt, WellFormed;
    var items := WithAbsent(target, current, order);
    var log := Entries(p.t);
    CompleteTarget(log, current, target, order, s);
    forall i | 0 <= i < |log| ensures RowCheck(log[i]) && (!log[i].tombstone ==> log[i].hash.value in payloads) {
      var id := p.t.changeLog[i + 1];
      assert id in p.t.revisions && log[i] == p.t.revisions[id];
    }
    forall i | 0 <= i < |items|
      ensures WellFormed(items[i])
      ensures !items[i].tombstone && items[i].hash.Some? ==> items[i].hash.value in payloads
    {
      CompletedIsStorable(log, payloads, current, items, s, i);
    }
    forall o | o in current ensures current[o].revision > 0 {
      HistoryIsNumbered(log, o);
      LatestIsNewest(log);
    }
    RestoreFailsOnlyOnMissingPayload(p, payloads, current, items, now);
  }

  /** Restoring a sequence and restoring a snapshot of that sequence show the same state and
    * report the same counts, in whatever order the two targets list their rows. */
  lemma {:induction false} SnapshotAndSequenceAgree(p: Progress, payloads: Catalogue, current: map<ObjectId, Revision>,
      snapshot: seq<Item>, ranked: seq<Item>, order: seq<ObjectId>, other: seq<ObjectId>, s: nat, now: Time, later: Time)
    requires ProgressOk(p, payloads) && p.objects == 0 && p.tombstones == 0
    requires CurrentIs(current, Latest(Entries(p.t)))
    requires s <= p.t.changeSeq && TargetAt(snapshot, Entries(p.t), s) && TargetAt(ranked, Entries(p.t), s)
    requires Lists(order, current.Keys) && Lists(other, current.Keys)
    ensures var a := RestoreItems(p, payloads, current, WithAbsent(snapshot, current, order), now);
      var b := RestoreItems(p, payloads, current, WithAbsent(ranked, current, other), later);
      && a.Ok? && b.Ok?
      && TablesOk(a.value.t) && TablesOk(b.value.t)
      && VisibleAt(Entries(a.value.t)) == VisibleAt(Entries(b.value.t))
      && a.value.objects == b.value.objects && a.value.tombstones == b.value.tombstones
  {
    hide Latest, RestoreItems, WithAbsent, HeadsAreLatest, Closed, IdsBelow, TargetAt, CurrentIs, VisibleAt, RestoredView;
    RestoreSucceeds(p, payloads, current, snapshot, order, s, now);
    RestoreSucceeds(p, payloads, current, ranked, other, s, later);
    RestoreBringsBack(p, payloads, current, snapshot, order, s, now);
    RestoreBringsBack(p, payloads, current, ranked, other, s, later);
  }

  /** Restoring to the sequence just before an earlier restore undoes it, whatever was pushed in
    * between: every object of that time shows what it showed, and every newer one is a tombstone. */
  lemma {:induction false} RestoringBackUndoes(past: seq<Revision>, p: Progress, payloads: Catalogue,
      current: map<ObjectId, Revision>, target: seq<Item>, order: seq<ObjectId>, now: Time)
    requires ProgressOk(p, payloads) && p.objects == 0 && p.tombstones == 0
    requires CurrentIs(current, Latest(Entries(p.t)))
    requires past <= Entries(p.t) && TargetAt(target, Entries(p.t), |past|) && Lists(order, current.Keys)
    ensures var r := RestoreItems(p, payloads, current, WithAbsent(target, current, order), now);
      && r.Ok? && TablesOk(r.value.t)
      && var after := VisibleAt(Entries(r.value.t));
         && (forall o :: o in VisibleAt(past) ==> o in after && after[o] == VisibleAt(past)[o])
         && (forall o :: o in after && o !in VisibleAt(past) ==> after[o] == Visible(true, None, None))
  {
    hide RestoreItems, WithAbsent, HeadsAreLatest, Closed, IdsBelow, TargetAt, CurrentIs, Latest;
    RestoreSucceeds(p, payloads, current, target, order, |past|, now);
    RestoreBringsBack(p, payloads, current, target, order, |past|, now);
    assert Entries(p.t)[..|past|] == past;
    LatestKeysGrow(Entries(p.t), |past|);
  }
}
