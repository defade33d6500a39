/** Devices over whole runs: what a device holds is always a state the project had, and a device
  * that has pulled everything holds the heads. */
module DeviceRuns {
  import opened Basics
  import opened ChangeLog
  import opened Replica
  import opened RestoreLoop
  import opened Transactions
  import opened Invariants
  import opened Service
  import opened Safety
  import opened Runs
  import opened PushRuns

  /** The copy holds exactly the head revisions, under the sequences that logged them. */
  ghost predicate CopyIsHeads(copy: Copy, t: Tables) {
    && copy.Keys == HeadRows(t).Keys
    && (forall o :: o in copy && o in HeadRows(t) ==> copy[o].rev == HeadRows(t)[o])
    && (forall o :: o in copy && o in t.heads ==>
          copy[o].sequence in t.changeLog && t.changeLog[copy[o].sequence] == t.heads[o].revisionId)
  }

  lemma {:induction false} LatestIsHeads(t: Tables)
    requires TablesOk(t)
    ensures CopyIsHeads(Latest(Entries(t)), t)
  {
    hide Linear, Latest, HeadRows;
    HeadRowsAreLatest(t);
  }

  /** In every run, whatever pushes and restores happened between its requests, a synchronized
    * device holds the newest rows of the log up to its cursor. */
  lemma {:induction false} DeviceHoldsItsCursor(run: seq<System>, events: seq<Event>, i: nat, device: Uuid)
    requires IsRun(run, events) && i < |run| && run[i].db.project.Some? && DeviceOf(run[i], device).Synced?
    ensures var d := DeviceOf(run[i], device); var t := run[i].db.t;
      && Logged(t) && 0 <= d.cursor <= t.changeSeq
      && d.copy == Latest(Entries(t)[..d.cursor])
      && (d.cursor == t.changeSeq ==> CopyIsHeads(d.copy, t))
  {
    hide Moves, Starts, DbOk, Latest, WorkersOk, PreparedOk, CopyIsHeads, Linear, HeadsAreLatest;
    RunIsSafe(run, events, i);
    SystemIsDb(run[i]);
    var d := DeviceOf(run[i], device);
    assert DeviceOk(run[i].db, d, run[i].prepared);
    var t := run[i].db.t;
    LatestIsHeads(t);
    assert Entries(t)[..t.changeSeq] == Entries(t);
  }

  /** A served pull moves the cursor forward, strictly while there is more to come, and leaves the
    * device with the newest rows up to the new cursor: with the heads, when there is no more. */
  lemma {:induction false} PullAdvances(run: seq<System>, events: seq<Event>, i: nat)
    requires IsRun(run, events) && i < |events| && events[i].PullChanges?
    requires DeviceOf(run[i], events[i].device).Synced? && Logged(run[i].db.t)
    requires var d := DeviceOf(run[i], events[i].device);
      PullTx(run[i].db, d.generation, d.cursor, events[i].pageSize).Ok?
    ensures var d := DeviceOf(run[i], events[i].device); var next := DeviceOf(run[i + 1], events[i].device);
      var r := PullTx(run[i].db, d.generation, d.cursor, events[i].pageSize).value;
      && next.Synced? && run[i + 1].db == run[i].db && d.cursor <= next.cursor
      && (r.page.hasMore && events[i].pageSize > 0 ==> d.cursor < next.cursor)
      && (!r.page.hasMore ==> CopyIsHeads(next.copy, run[i + 1].db.t))
  {
    hide Starts, DbOk, Latest, Apply, PullTx, WorkersOk, PreparedOk, CopyIsHeads, Linear, HeadsAreLatest;
    var d := DeviceOf(run[i], events[i].device);
    RunIsSafe(run, events, i);
    SystemIsDb(run[i]);
    assert Moves(run[i], events[i], run[i + 1]);
    hide Moves;
    DevicePulls(run[i].db, run[i].prepared, d, events[i].pageSize);
    LatestIsHeads(run[i].db.t);
  }

  /** The event asks for a page as part of the device's own bootstrap: the first page, or the page
    * its own token names. */
  predicate OwnPage(y: System, e: Event) {
    e.FirstPage? || (e.NextPage? && DeviceOf(y, e.device).Loading?)
  }

  /** What the device keeps from the pages before the one the event asks for. */
  function KeptBefore(y: System, e: Event): seq<LogRow>
    requires OwnPage(y, e)
  {
    if e.FirstPage? then [] else DeviceOf(y, e.device).received
  }

  ghost function PageAnswer(y: System, e: Event): Result<BootstrapReply, Error>
    requires PageAsked(y, e).Some?
  {
    var (device, id, offset, limit) := PageAsked(y, e).value;
    ManifestPageTx(y.db, device, id, offset, limit).1
  }

  /** The items a device received over one bootstrap, page token after page token, are exactly the
    * items of its manifest, each once, and they are the newest rows at the manifest's sequence,
    * whether the bootstrap ended on its first page or a later one. */
  lemma {:induction false} BootstrapDelivers(run: seq<System>, events: seq<Event>, i: nat)
    requires IsRun(run, events) && i < |events| && OwnPage(run[i], events[i])
    requires PageAnswer(run[i], events[i]).Ok? && !PageAnswer(run[i], events[i]).value.page.hasMore
    ensures var id := PageAsked(run[i], events[i]).value.1; var next := DeviceOf(run[i + 1], events[i].device);
      var rows := KeptBefore(run[i], events[i]) + PageAnswer(run[i], events[i]).value.page.records;
      && Logged(run[i].db.t) && id in run[i].prepared
      && rows == run[i].prepared[id].items && NoDuplicates(rows)
      && next.Synced? && 0 <= next.cursor <= run[i].db.t.changeSeq
      && next.copy == Latest(Entries(run[i].db.t)[..next.cursor])
  {
    hide Starts, DbOk, Latest, Apply, ManifestPageTx, WorkersOk, Linear, HeadsAreLatest;
    var (device, id, offset, limit) := PageAsked(run[i], events[i]).value;
    var kept := KeptBefore(run[i], events[i]);
    RunIsSafe(run, events, i);
    SystemIsDb(run[i]);
    assert Moves(run[i], events[i], run[i + 1]);
    hide Moves;
    if events[i].NextPage? {
      assert DeviceOk(run[i].db, DeviceOf(run[i], device), run[i].prepared);
    }
    DeviceReceives(run[i].db, run[i].prepared, device, id, offset, kept, limit);
    LastPageKeepsTables(run[i].db, device, id, offset, limit);
    ServedIsPrepared(run[i], device, id, offset, limit);
    HeldIsPrefix(run[i], device, id);
  }

  lemma {:induction false} LastPageKeepsTables(s: State, device: Uuid, id: Uuid, offset: int, limit: int)
    ensures var u := ManifestPageTx(s, device, id, offset, limit).0; u.t == s.t && u.project == s.project
    ensures ManifestPageTx(s, device, id, offset, limit).1.Ok? ==> s.project.Some?
  {
    hide ManifestPage;
  }

  // ---- When a last page completes a bootstrap ----

  /** What the device keeps of manifest `id`: a prefix of its items. */
  function HeldOf(y: System, device: Uuid, id: Uuid): seq<LogRow> {
    var d := DeviceOf(y, device);
    if d.Loading? && d.manifest == id then d.received else []
  }

  lemma {:induction false} HeldIsPrefix(y: System, device: Uuid, id: Uuid)
    requires SystemOk(y) && id in y.prepared && PreparedOk(y.db, y.prepared) && y.db.project.Some?
    ensures var items := y.prepared[id].items; var held := HeldOf(y, device, id);
      && held <= items && (held == items ==> items == [])
      && NoDuplicates(items)
  {
    hide DbOk, WorkersOk, Logged, Latest;
    var d := DeviceOf(y, device);
    DbIsLogged(y.db);
    assert DeviceOk(y.db, d, y.prepared);
    assert ManifestOk(y.prepared[id], Entries(y.db.t), y.db.project.value.generation);
  }

  /** The rows from `offset` on complete a proper prefix exactly when they leave no gap. */
  lemma {:induction false} RestCompletes(items: seq<LogRow>, held: seq<LogRow>, offset: nat)
    requires held <= items && NoDuplicates(items) && (held == items ==> items == [])
    ensures var rest := if offset <= |items| then items[offset..] else [];
      && ((forall row :: row in items ==> row in held || row in rest) <==> offset <= |held| || items == [])
      && (held + rest == items <==> offset == |held| || items == [])
  {
    var rest := if offset <= |items| then items[offset..] else [];
    if offset <= |held| {
      forall row | row in items ensures row in held || row in rest {
        var k :| 0 <= k < |items| && items[k] == row;
        if k < |held| {
          assert held[k] == row;
        } else {
          assert rest[k - offset] == row;
        }
      }
    } else if items != [] {
      var gap := items[|held|];
      assert gap !in held && gap !in rest;
    }
    if offset == |held| {
      assert items[..|held|] == held;
      assert items == items[..offset] + items[offset..];
    }
  }

  /** A page without more to come always writes the completion of the device that asked for it.  It
    * leaves that device with the whole manifest exactly when its offset is not past what the device
    * already keeps of this manifest, or the manifest is empty; and it continues the device's own
    * pages exactly when the offset is where those ended. */
  lemma {:induction false} LastPageIsWholeExactly(run: seq<System>, events: seq<Event>, i: nat, device: Uuid, id: Uuid,
      offset: int, limit: int)
    requires IsRun(run, events) && i < |run|
    requires var r := ManifestPageTx(run[i].db, device, id, offset, limit).1; r.Ok? && !r.value.page.hasMore
    ensures var r := ManifestPageTx(run[i].db, device, id, offset, limit); var rows := r.1.value.page.records;
      && id in run[i].prepared && Completion(device, r.1.value.generation) in r.0.completions
      && var items := run[i].prepared[id].items; var held := HeldOf(run[i], device, id);
         && ((forall row :: row in items ==> row in held || row in rows) <==> offset <= |held| || items == [])
         && (held + rows == items <==> offset == |held| || items == [])
  {
    hide Moves, Starts, SystemOk, DbOk, CoreOk, HeldOf;
    RunIsSafe(run, events, i);
    SystemIsDb(run[i]);
    ServedIsPrepared(run[i], device, id, offset, limit);
    HeldIsPrefix(run[i], device, id);
    RestCompletes(run[i].prepared[id].items, HeldOf(run[i], device, id), offset);
  }

  /** A served page is a page of the manifest a request prepared. */
  lemma {:induction false} ServedIsPrepared(y: System, device: Uuid, id: Uuid, offset: int, limit: int)
    requires SystemOk(y) && ManifestPageTx(y.db, device, id, offset, limit).1.Ok?
    ensures id in y.prepared && y.db.project.Some? && offset >= 0 && Logged(y.db.t) && PreparedOk(y.db, y.prepared)
    ensures ManifestPageTx(y.db, device, id, offset, limit).1.value.page
      == ManifestPage(y.prepared[id].items, offset, if limit < 0 then 0 else limit)
  {
    hide DbOk, WorkersOk, DevicesOk, ManifestPage, Logged, ManifestOk;
    DbIsLogged(y.db);
  }

  // ---- What a device was served ----

  /** The event serves `device` a page of manifest `id` that holds `row`, whether or not the device
    * follows it. */
  ghost predicate Serves(y: System, e: Event, device: Uuid, id: Uuid, row: LogRow) {
    && PageAsked(y, e).Some? && PageAsked(y, e).value.0 == device && PageAsked(y, e).value.1 == id
    && PageAnswer(y, e).Ok? && row in PageAnswer(y, e).value.page.records
  }

  lemma {:induction false} ReceivedComesFrom(y: System, e: Event, z: System, device: Uuid, row: LogRow)
    requires Moves(y, e, z) && DeviceOf(z, device).Loading? && row in DeviceOf(z, device).received
    ensures var id := DeviceOf(z, device).manifest;
      Serves(y, e, device, id, row) || row in HeldOf(y, device, id)
  {
    hide Called, CallFits, ManifestPageTx, PullTx, ClaimTx, WorkerCall, RecordManifest, PrepareManifest, OrdersFit, Lists, Latest, Apply;
    if e.FirstPage? || e.NextPage? {
      assert PageAsked(y, e).Some?;
    }
  }

  /** Whatever a device keeps of a manifest in the middle of a bootstrap, it was served. */
  lemma {:induction false} ReceivedWasServed(run: seq<System>, events: seq<Event>, i: nat, device: Uuid, id: Uuid, row: LogRow)
    returns (k: nat)
    requires IsRun(run, events) && i < |run| && row in HeldOf(run[i], device, id)
    ensures k < i && Serves(run[k], events[k], device, id, row)
  {
    hide Moves, Serves;
    if i == 0 {
      assert false;
    } else {
      ReceivedComesFrom(run[i - 1], events[i - 1], run[i], device, row);
      if Serves(run[i - 1], events[i - 1], device, id, row) {
        k := i - 1;
      } else {
        k := ReceivedWasServed(run, events, i - 1, device, id, row);
      }
    }
  }

  /** A device that bootstraps by its own tokens and completes was served every item. */
  lemma {:induction false} OwnBootstrapIsWhole(run: seq<System>, events: seq<Event>, i: nat, row: LogRow) returns (k: nat)
    requires IsRun(run, events) && i < |events| && OwnPage(run[i], events[i])
    requires PageAnswer(run[i], events[i]).Ok? && !PageAnswer(run[i], events[i]).value.page.hasMore
    requires PageAsked(run[i], events[i]).value.1 in run[i].prepared
    requires row in run[i].prepared[PageAsked(run[i], events[i]).value.1].items
    ensures k <= i && Serves(run[k], events[k], events[i].device, PageAsked(run[i], events[i]).value.1, row)
  {
    hide Moves, Starts, Latest;
    BootstrapDelivers(run, events, i);
    if row in PageAnswer(run[i], events[i]).value.page.records {
      k := i;
    } else {
      assert row in KeptBefore(run[i], events[i]);
      k := ReceivedWasServed(run, events, i, events[i].device, PageAsked(run[i], events[i]).value.1, row);
    }
  }
}
