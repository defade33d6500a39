/** What a device holds: the pages of a bootstrap manifest followed by the pages of the log.
  *
  * The specification is one equation: a copy at cursor c equals `Latest` of the first c entries.
  */
module Replica {
  import opened Basics
  import opened ChangeLog

  type Copy = map<ObjectId, LogRow>

  datatype Page = Page(records: seq<LogRow>, hasMore: bool)

  // ---- Pull ----

  function RowAt(log: seq<Revision>, i: int): LogRow
    requires 0 <= i < |log|
  {
    LogRow(i + 1, log[i])
  }

  /** The rows of sequence `from + 1` to `to`, in sequence order. */
  function Rows(log: seq<Revision>, from: int, to: int): (rows: seq<LogRow>)
    requires 0 <= from <= to <= |log|
    ensures |rows| == to - from
    ensures forall i :: 0 <= i < |rows| ==> rows[i] == RowAt(log, from + i)
  {
    if from == to then [] else Rows(log, from, to - 1) + [RowAt(log, to - 1)]
  }

  /** The page served after sequence `after`: one row more than the limit decides `hasMore`. */
  function PullRows(log: seq<Revision>, after: int, limit: nat): Page
    requires 0 <= after <= |log|
  {
    var fetched := Rows(log, after, if after + limit + 1 <= |log| then after + limit + 1 else |log|);
    if |fetched| > limit then Page(fetched[..|fetched| - 1], true) else Page(fetched, false)
  }

  function NextSequence(page: Page, after: int): int {
    if page.records == [] then after else Last(page.records).sequence
  }

  function Apply(copy: Copy, records: seq<LogRow>): Copy {
    if records == [] then copy
    else
      var applied := Apply(copy, Init(records));
      applied[Last(records).rev.obj := Last(records)]
  }

  lemma {:induction false} ApplySegment(log: seq<Revision>, from: nat, to: nat)
    requires from <= to <= |log|
    ensures Apply(Latest(log[..from]), Rows(log, from, to)) == Latest(log[..to])
  {
    if from < to {
      ApplySegment(log, from, to - 1);
      var rows := Rows(log, from, to);
      assert Init(rows) == Rows(log, from, to - 1) && Last(rows) == RowAt(log, to - 1);
      assert log[..to - 1] + [log[to - 1]] == log[..to];
      hide Rows;
      LatestOfAppend(log[..to - 1], log[to - 1]);
    }
  }

  /** One pull moves a copy that agrees with the log at its cursor to one that agrees at the
    * returned cursor; the cursor advances while there is more, and reaches the end otherwise. */
  lemma {:induction false} PullKeepsCopy(log: seq<Revision>, after: nat, limit: nat)
    requires after <= |log|
    ensures var page := PullRows(log, after, limit);
      var next := NextSequence(page, after);
      && after <= next <= |log|
      && Apply(Latest(log[..after]), page.records) == Latest(log[..next])
      && (page.hasMore ==> next == after + limit < |log|)
      && (!page.hasMore ==> next == |log| && Apply(Latest(log[..after]), page.records) == Latest(log))
  {
    var page := PullRows(log, after, limit);
    var next := after + |page.records|;
    assert page.records == Rows(log, after, next);
    ApplySegment(log, after, next);
    assert log[..|log|] == log;
  }

  /** Pulling from `after` until no page is left: the final copy and the number of pages. */
  function CatchUp(log: seq<Revision>, copy: Copy, after: nat, limit: nat): (Copy, nat)
    requires after <= |log| && limit > 0
    decreases |log| - after
  {
    PullKeepsCopy(log, after, limit);
    var page := PullRows(log, after, limit);
    var applied := Apply(copy, page.records);
    if page.hasMore then
      var rest := CatchUp(log, applied, NextSequence(page, after), limit);
      (rest.0, rest.1 + 1)
    else (applied, 1)
  }

  /** Catching up with a fixed log ends, after at most one page per missing entry plus one,
    * and leaves the copy equal to the newest rows. */
  lemma {:induction false} CatchUpConverges(log: seq<Revision>, after: nat, limit: nat)
    requires after <= |log| && limit > 0
    ensures CatchUp(log, Latest(log[..after]), after, limit).0 == Latest(log)
    ensures CatchUp(log, Latest(log[..after]), after, limit).1 <= |log| - after + 1
    decreases |log| - after
  {
    PullKeepsCopy(log, after, limit);
    var page := PullRows(log, after, limit);
    if page.hasMore {
      CatchUpConverges(log, NextSequence(page, after), limit);
    }
  }

  /** A device that pulls once from each of a list of logs. */
  function PullEach(logs: seq<seq<Revision>>, limits: seq<nat>, copy: Copy, after: int): (Copy, int)
    requires |limits| == |logs|
  {
    if logs == [] then (copy, after)
    else
      var before := PullEach(Init(logs), Init(limits), copy, after);
      if 0 <= before.1 <= |Last(logs)| then
        var page := PullRows(Last(logs), before.1, Last(limits));
        (Apply(before.0, page.records), NextSequence(page, before.1))
      else before
  }

  /** Pulls interleaved with any growth of the log: at every returned cursor the copy equals
    * the newest rows of the log up to that cursor. */
  lemma {:induction false} InterleavedPullsConverge(logs: seq<seq<Revision>>, limits: seq<nat>,
      start: seq<Revision>, after: nat)
    requires |limits| == |logs| && after <= |start|
    requires forall i :: 0 <= i < |logs| ==> start <= logs[i]
    requires forall i, j :: 0 <= i <= j < |logs| ==> logs[i] <= logs[j]
    ensures var seen := if logs == [] then start else Last(logs);
      var r := PullEach(logs, limits, Latest(start[..after]), after);
      && after <= r.1 <= |seen|
      && r.0 == Latest(seen[..r.1])
  {
    if logs != [] {
      InterleavedPullsConverge(Init(logs), Init(limits), start, after);
      var before := PullEach(Init(logs), Init(limits), Latest(start[..after]), after);
      var seen := if Init(logs) == [] then start else Last(Init(logs));
      assert seen <= Last(logs);
      assert seen[..before.1] == Last(logs)[..before.1];
      PullKeepsCopy(Last(logs), before.1, Last(limits));
    }
  }

  // ---- Bootstrap ----

  /** `items` is a frozen manifest of the first `s` entries: each newest row, exactly once. */
  ghost predicate ManifestOf(items: seq<LogRow>, log: seq<Revision>, s: int) {
    && 0 <= s <= |log|
    && NoDuplicates(items)
    && (forall row :: row in items <==>
      row.rev.obj in Latest(log[..s]) && Latest(log[..s])[row.rev.obj] == row)
  }

  lemma {:induction false} OrderedRowsAreManifest(log: seq<Revision>, order: seq<ObjectId>)
    requires Lists(order, Latest(log).Keys)
    ensures ManifestOf(InOrder(Latest(log), order), log, |log|)
  {
    LatestIsNewest(log);
    var items := InOrder(Latest(log), order);
    forall row: LogRow | row.rev.obj in Latest(log) && Latest(log)[row.rev.obj] == row ensures row in items {
      assert row.rev.obj in order;
    }
    forall i | 0 <= i < |items| ensures order[i] in Latest(log) && items[i].rev.obj == order[i] {
      assert order[i] in order;
    }
    assert log[..|log|] == log;
  }

  lemma {:induction false} ManifestOutlivesGrowth(items: seq<LogRow>, log: seq<Revision>, longer: seq<Revision>, s: int)
    requires ManifestOf(items, log, s) && log <= longer
    ensures ManifestOf(items, longer, s)
  {
    assert longer[..s] == log[..s];
  }

  /** A page of the frozen items: skip to the offset, take one row more than the limit. */
  function ManifestPage(items: seq<LogRow>, offset: nat, limit: nat): Page {
    var rest := if offset <= |items| then items[offset..] else [];
    var taken := if |rest| > limit then rest[..limit + 1] else rest;
    if |taken| > limit then Page(taken[..limit], true) else Page(taken, false)
  }

  /** What a client receives that starts at `offset` and follows each page token. */
  function Follow(items: seq<LogRow>, offset: nat, limits: seq<nat>): seq<LogRow>
    decreases |limits|
  {
    if limits == [] then []
    else
      var page := ManifestPage(items, offset, limits[0]);
      if page.hasMore then page.records + Follow(items, offset + |page.records|, limits[1..])
      else page.records
  }

  /** The client reaches a page that says there is no more. */
  predicate Finishes(items: seq<LogRow>, offset: nat, limits: seq<nat>)
    decreases |limits|
  {
    limits != [] &&
    var page := ManifestPage(items, offset, limits[0]);
    page.hasMore ==> Finishes(items, offset + |page.records|, limits[1..])
  }

  lemma {:induction false} ManifestPageIsSlice(items: seq<LogRow>, offset: nat, limit: nat)
    requires offset <= |items|
    ensures var page := ManifestPage(items, offset, limit);
      && offset + |page.records| <= |items|
      && page.records == items[offset..offset + |page.records|]
      && (page.hasMore <==> |items| - offset > limit)
      && |page.records| == if page.hasMore then limit else |items| - offset
  {
  }

  /** What one page adds to what the rest of the pages deliver. */
  lemma {:induction false} PageThenRest(items: seq<LogRow>, offset: nat, limit: nat)
    requires offset <= |items|
    ensures var page := ManifestPage(items, offset, limit);
      && offset + |page.records| <= |items|
      && page.records + items[offset + |page.records|..] == items[offset..]
      && (page.hasMore && limit > 0 ==> |page.records| > 0)
      && (!page.hasMore ==> page.records == items[offset..])
      && (page.hasMore ==> offset + |page.records| < |items|)
  {
    ManifestPageIsSlice(items, offset, limit);
  }

  /** Whatever page sizes are asked for, following the tokens delivers the items in order, each
    * exactly once. */
  lemma {:induction false} TokensDeliverEachItemOnce(items: seq<LogRow>, offset: nat, limits: seq<nat>)
    requires offset <= |items|
    ensures Follow(items, offset, limits) <= items[offset..]
    ensures Finishes(items, offset, limits) ==> Follow(items, offset, limits) == items[offset..]
    decreases |limits|
  {
    hide ManifestPage;
    if limits != [] {
      PageThenRest(items, offset, limits[0]);
      var page := ManifestPage(items, offset, limits[0]);
      if page.hasMore {
        var next := offset + |page.records|;
        TokensDeliverEachItemOnce(items, next, limits[1..]);
        assert Follow(items, offset, limits) == page.records + Follow(items, next, limits[1..]);
      }
    }
  }

  /** A client that asks for positive pages long enough does finish. */
  lemma {:induction false} PositivePagesFinish(items: seq<LogRow>, offset: nat, limits: seq<nat>)
    requires offset <= |items| && |limits| > |items| - offset
    requires forall i :: 0 <= i < |limits| ==> limits[i] > 0
    ensures Finishes(items, offset, limits)
    decreases |limits|
  {
    hide ManifestPage;
    PageThenRest(items, offset, limits[0]);
    var page := ManifestPage(items, offset, limits[0]);
    if page.hasMore {
      PositivePagesFinish(items, offset + |page.records|, limits[1..]);
    }
  }

  lemma {:induction false} ApplyCollects(rows: seq<LogRow>)
    ensures forall o :: o in Apply(map[], rows) ==> Apply(map[], rows)[o] in rows && Apply(map[], rows)[o].rev.obj == o
    ensures forall row :: row in rows ==> row.rev.obj in Apply(map[], rows)
  {
    if rows != [] {
      ApplyCollects(Init(rows));
    }
  }

  /** Applying all rows of a manifest frozen at `s` gives exactly the newest rows at `s`. */
  lemma {:induction false} ManifestCopyIsLatest(items: seq<LogRow>, log: seq<Revision>, s: int)
    requires ManifestOf(items, log, s)
    ensures Apply(map[], items) == Latest(log[..s])
  {
    ApplyCollects(items);
    LatestIsNewest(log[..s]);
    var copy := Apply(map[], items);
    forall o ensures o in copy <==> o in Latest(log[..s])
      ensures o in copy ==> copy[o] == Latest(log[..s])[o]
    {
      if o in Latest(log[..s]) {
        assert Latest(log[..s])[o] in items;
      }
    }
  }

  /** A finished bootstrap of a manifest frozen at `s` leaves exactly the newest rows at `s`. */
  lemma {:induction false} BootstrapCopyIsLatest(items: seq<LogRow>, log: seq<Revision>, s: int, limits: seq<nat>)
    requires ManifestOf(items, log, s) && Finishes(items, 0, limits)
    ensures Apply(map[], Follow(items, 0, limits)) == Latest(log[..s])
  {
    TokensDeliverEachItemOnce(items, 0, limits);
    assert items[0..] == items;
    ManifestCopyIsLatest(items, log, s);
  }
}
