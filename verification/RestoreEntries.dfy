/** What a restore appends to the log, entry by entry: `RestoreRuns` says what is visible afterwards,
  * this says who wrote it, when, over which base and with which content.
  */
module RestoreEntries {
  import opened Basics
  import opened ChangeLog
  import opened Push
  import opened RestoreLoop
  import opened Transactions
  import opened Invariants
  import opened Service
  import opened Safety
  import opened Runs
  import opened RestoreRuns

  /** Entry `e` brings an object of `log` back to the first `n` entries, at time `now`: it follows the
    * object's newest revision, and carries the content and the device of the object's row then, or
    * is a tombstone by the device of its newest row if there was none. */
  ghost predicate BringsBack(e: Revision, log: seq<Revision>, n: nat, payloads: Catalogue, now: Time)
    requires n <= |log|
  {
    && e.obj in Latest(log)
    && var newest := Latest(log)[e.obj].rev;
       && e.revision == newest.revision + 1 && e.base == Some(newest.revision)
       && e.changedAt == now
       && (if e.obj in Latest(log[..n])
           then var then_ := Latest(log[..n])[e.obj].rev; VisibleOf(e) == VisibleOf(then_) && e.device == then_.device
           else VisibleOf(e) == Visible(true, None, None) && e.device == newest.device)
       && (if e.tombstone then e.payload.None?
           else e.hash.Some? && e.hash.value in payloads && e.payload == Some(payloads[e.hash.value].id))
  }

  /** Entry `e` was written for `item`. */
  ghost predicate WrittenFor(e: Revision, item: Item, current: map<ObjectId, Revision>, payloads: Catalogue, now: Time) {
    && item.hash.Some? != item.tombstone
    && RestorePayload(payloads, item).Ok?
    && e == RestoredRevision(current, item, RestorePayload(payloads, item).value, now)
  }

  ghost predicate WrittenForOne(e: Revision, items: seq<Item>, current: map<ObjectId, Revision>, payloads: Catalogue, now: Time) {
    exists item: Item :: item in items && WrittenFor(e, item, current, payloads, now)
  }

  ghost predicate EntriesWritten(log: seq<Revision>, start: nat, items: seq<Item>, current: map<ObjectId, Revision>,
      payloads: Catalogue, now: Time)
  {
    forall n :: start <= n < |log| ==> WrittenForOne(log[n], items, current, payloads, now)
  }

  lemma {:induction false} OneWrite(p: Progress, payloads: Catalogue, current: map<ObjectId, Revision>, item: Item, now: Time)
    requires ProgressOk(p, payloads) && RestoreOne(p, payloads, current, item, now).Ok?
    ensures var q := RestoreOne(p, payloads, current, item, now).value;
      && Logged(q.t)
      && (Entries(q.t) == Entries(p.t)
          || (RestorePayload(payloads, item).Ok?
              && Entries(q.t) == Entries(p.t) + [RestoredRevision(current, item, RestorePayload(payloads, item).value, now)]
              && WrittenFor(Last(Entries(q.t)), item, current, payloads, now)))
  {
    hide Closed, Linear, HeadsAreLatest, Latest, Append;
    if !Unchanged(current, item) {
      EntriesOfAppend(p.t, p.nextId, RestoredRevision(current, item, RestorePayload(payloads, item).value, now));
    }
  }

  lemma {:induction false} WritesGrow(log: seq<Revision>, longer: seq<Revision>, start: nat, items: seq<Item>, item: Item,
      current: map<ObjectId, Revision>, payloads: Catalogue, now: Time)
    requires EntriesWritten(log, start, items, current, payloads, now)
    requires longer == log || (longer != [] && Init(longer) == log && WrittenFor(Last(longer), item, current, payloads, now))
    ensures EntriesWritten(longer, start, items + [item], current, payloads, now)
  {
    var more := items + [item];
    assert more[|items|] == item;
    forall n | start <= n < |longer| ensures WrittenForOne(longer[n], more, current, payloads, now) {
      if n < |log| {
        assert longer[n] == log[n] && WrittenForOne(log[n], items, current, payloads, now);
        var x: Item :| x in items && WrittenFor(log[n], x, current, payloads, now);
        assert x in more && WrittenFor(longer[n], x, current, payloads, now);
      } else {
        assert item in more && WrittenFor(longer[n], item, current, payloads, now);
      }
    }
  }

  lemma {:induction false} LoopWrites(p: Progress, payloads: Catalogue, current: map<ObjectId, Revision>, items: seq<Item>, now: Time)
    requires ProgressOk(p, payloads) && CurrentIs(current, Latest(Entries(p.t))) && DistinctItems(items)
    requires RestoreItems(p, payloads, current, items, now).Ok?
    ensures var q := RestoreItems(p, payloads, current, items, now).value;
      Logged(q.t) && EntriesWritten(Entries(q.t), p.t.changeSeq, items, current, payloads, now)
  {
    hide ProgressOk, EntriesWritten, RestoreOne, WrittenFor, Brought, Latest, CurrentIs, Written, Linear, Logged;
    ProgressIsLogged(p, payloads);
    if items == [] {
      NothingWritten(Entries(p.t), current, payloads, now);
    } else {
      var first, last := Init(items), Last(items);
      LoopWrites(p, payloads, current, first, now);
      RestoreItemsMeaning(p, payloads, current, first, now);
      var before := RestoreItems(p, payloads, current, first, now).value;
      var q := RestoreItems(p, payloads, current, items, now).value;
      OneWrite(before, payloads, current, last, now);
      if Entries(q.t) != Entries(before.t) {
        assert Init(Entries(q.t)) == Entries(before.t);
      }
      WritesGrow(Entries(before.t), Entries(q.t), p.t.changeSeq, first, last, current, payloads, now);
      assert first + [last] == items;
    }
  }

  lemma {:induction false} ProgressIsLogged(p: Progress, payloads: Catalogue)
    requires ProgressOk(p, payloads)
    ensures Logged(p.t) && |Entries(p.t)| == p.t.changeSeq
  {
  }

  lemma {:induction false} NothingWritten(log: seq<Revision>, current: map<ObjectId, Revision>, payloads: Catalogue, now: Time)
    ensures EntriesWritten(log, |log|, [], current, payloads, now)
  {
  }

  lemma {:induction false} WrittenBringsBack(e: Revision, item: Item, log: seq<Revision>, current: map<ObjectId, Revision>,
      items: seq<Item>, n: nat, payloads: Catalogue, now: Time)
    requires Linear(log) && n <= |log| && CurrentIs(current, Latest(log)) && Completed(items, log, current, n)
    requires item in items && WrittenFor(e, item, current, payloads, now)
    ensures BringsBack(e, log, n, payloads, now)
  {
    hide Latest, Linear;
    LatestIsNewest(log);
    LatestIsNewest(log[..n]);
    HistoryIsNumbered(log, item.obj);
  }

  lemma {:induction false} ExecuteWrites(s: State, job: Uuid, token: Uuid, ranked: seq<ObjectId>, order: seq<ObjectId>)
    requires DbOk(s) && OrdersFit(s, job, ranked, order)
    requires Holds(s, job, token) && !s.jobs[job].cancelRequested && StatusIs(s, Maintenance)
    ensures TargetOk(s.jobs[job].target, s) && 0 <= TargetSequence(s, s.jobs[job].target) <= s.t.changeSeq
    ensures var u := ExecuteTx(s, job, token, ranked, order).0; var n := TargetSequence(s, s.jobs[job].target);
      && Logged(u.t)
      && (forall k :: s.t.changeSeq <= k < u.t.changeSeq ==> BringsBack(Entries(u.t)[k], Entries(s.t), n, s.payloads, s.now))
  {
    hide Linear, HeadsAreLatest, Latest, JobsOk, GenerationOk, BootstrapOk, SnapshotsOk, TargetsOk, TargetAt, ListsRows, HeadRows,
      RestoreItems, WithAbsent, ResolveTarget, CurrentIs, Closed, BringsBack, WrittenFor, Completed;
    TargetResolves(s, job, ranked, order);
    var n := TargetSequence(s, s.jobs[job].target);
    var target := ResolveTarget(s, s.jobs[job].target, ranked).value;
    var p := Progress(s.t, s.nextId, 0, 0);
    var items := WithAbsent(target, HeadRows(s.t), order);
    HeadRowsAreCurrent(s.t);
    assert ProgressOk(p, s.payloads);
    RestoreSucceeds(p, s.payloads, HeadRows(s.t), target, order, n, s.now);
    CompleteTarget(Entries(s.t), HeadRows(s.t), target, order, n);
    CompletedIsDistinct(items, Entries(s.t), HeadRows(s.t), n);
    LoopWrites(p, s.payloads, HeadRows(s.t), items, s.now);
    var u := ExecuteTx(s, job, token, ranked, order).0;
    forall k | s.t.changeSeq <= k < u.t.changeSeq ensures BringsBack(Entries(u.t)[k], Entries(s.t), n, s.payloads, s.now) {
      assert WrittenForOne(Entries(u.t)[k], items, HeadRows(s.t), s.payloads, s.now);
      var item: Item :| item in items && WrittenFor(Entries(u.t)[k], item, HeadRows(s.t), s.payloads, s.now);
      WrittenBringsBack(Entries(u.t)[k], item, Entries(s.t), HeadRows(s.t), items, n, s.payloads, s.now);
    }
  }

  lemma {:induction false} CompletedIsDistinct(items: seq<Item>, log: seq<Revision>, current: map<ObjectId, Revision>, n: nat)
    requires n <= |log| && CurrentIs(current, Latest(log)) && Completed(items, log, current, n)
    ensures DistinctItems(items)
  {
  }

  /** Every entry a successful restore appends, in any run, brings its object back: with the device,
    * content and catalogue row of its target, at the time of the restore, as its next revision. */
  lemma {:induction false} RestoreAppendsOnly(run: seq<System>, events: seq<Event>, i: nat)
    requires IsRun(run, events) && i < |events| && Restores(run[i], events[i])
    ensures var s, u := run[i].db, run[i + 1].db; var job := PcOf(run[i], events[i].worker).job;
      && Logged(s.t) && Logged(u.t) && job in s.jobs && TargetOk(s.jobs[job].target, s)
      && 0 <= TargetSequence(s, s.jobs[job].target) <= s.t.changeSeq
      && (forall k :: s.t.changeSeq <= k < u.t.changeSeq ==>
            BringsBack(Entries(u.t)[k], Entries(s.t), TargetSequence(s, s.jobs[job].target), s.payloads, s.now))
  {
    hide SystemOk, DbOk, CoreOk, Starts, BringsBack, RestoreOutcome, ExecuteTx, Lists, Latest, HeadRows, Linear;
    RunIsSafe(run, events, i);
    SystemIsDb(run[i]);
    RestoreSteps(run[i], events[i], run[i + 1]);
    var pc := PcOf(run[i], events[i].worker);
    assert Moves(run[i], events[i], run[i + 1]);
    ExecuteWrites(run[i].db, pc.job, pc.token, events[i].ranked, events[i].order);
  }
}
