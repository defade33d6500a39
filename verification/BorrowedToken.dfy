/** The run that shows why `DeviceRuns.LastPageIsWholeExactly` carries a condition.  One device reads
  * the first of two items of a manifest; another asks for the second item with the first device's
  * page token, is recorded as bootstrapped, and may push without having been served the first.
  */
module BorrowedToken {
  import opened Basics
  import opened ChangeLog
  import opened Push
  import opened Replica
  import opened RestoreLoop
  import opened Transactions
  import opened Service
  import opened PushRuns
  import opened DeviceRuns

  const READER: Uuid := -1
  const BORROWER: Uuid := -2

  const FIRST := ObjectId(Todo, "first")
  const SECOND := ObjectId(Todo, "second")

  function Item(o: ObjectId): NewRevision {
    NewRevision(o, None, None, None, 0, true)
  }

  function Rev(o: ObjectId): Revision {
    Revision(o, 1, None, None, None, None, true, 0, READER)
  }

  function Items(): seq<NewRevision> {
    [Item(FIRST), Item(SECOND)]
  }

  function OneEntry(): Tables {
    Tables(1, map[1 := Rev(FIRST)], map[1 := 1], map[FIRST := Head(1, 1)])
  }

  function TwoEntries(): Tables {
    Tables(2, map[1 := Rev(FIRST), 2 := Rev(SECOND)], map[1 := 1, 2 := 2], map[FIRST := Head(1, 1), SECOND := Head(1, 2)])
  }

  function Log(): seq<Revision> {
    [Rev(FIRST), Rev(SECOND)]
  }

  function ManifestRows(): seq<LogRow> {
    [LogRow(1, Rev(FIRST)), LogRow(2, Rev(SECOND))]
  }

  function Order(): seq<ObjectId> {
    [FIRST, SECOND]
  }

  function Empty(expires: Time): Manifest {
    Manifest(1, 0, [], expires)
  }

  function Full(expires: Time): Manifest {
    Manifest(1, 2, ManifestRows(), expires)
  }

  function PushResults(): seq<ItemResult> {
    [Applied(FIRST, 1, 1, 0), Applied(SECOND, 1, 2, 0)]
  }

  function Records(): map<RequestKey, Record> {
    map[RequestKey(READER, "k") := Record("h", Success(1, PushResults()), RECORD_LIFETIME)]
  }

  /** The database of this run, where only these parts ever differ. */
  function Db(nextId: nat, t: Tables, records: map<RequestKey, Record>, manifests: map<Uuid, Manifest>,
      completions: map<Completion, int>): State
  {
    State(0, nextId, Some(Project(Active, 1)), t, map[], map[], map[], records, manifests, completions)
  }

  function ReaderDone(): map<Completion, int> {
    map[Completion(READER, 1) := 0]
  }

  function BothDone(): map<Completion, int> {
    map[Completion(READER, 1) := 0, Completion(BORROWER, 1) := 2]
  }

  function OneManifest(): map<Uuid, Manifest> {
    map[0 := Empty(DAY)]
  }

  function TwoManifests(): map<Uuid, Manifest> {
    map[0 := Empty(DAY), 3 := Full(DAY)]
  }

  function At(db: State, prepared: map<Uuid, Manifest>, devices: map<Uuid, Device>): System {
    System(db, map[], prepared, devices, map[])
  }

  ghost function Events(): seq<Event> {
    [PrepareBootstrap([]),
     RecordBootstrap(0),
     FirstPage(READER, 0, 10),
     Calls(PushRequest(READER, 1, "k", "h", Items())),
     PrepareBootstrap(Order()),
     RecordBootstrap(3),
     FirstPage(READER, 3, 1),
     OtherPage(BORROWER, 3, 1, 1)]
  }

  function Synchronized(): map<Uuid, Device> {
    map[READER := Synced(1, 0, map[])]
  }

  function Halfway(): map<Uuid, Device> {
    map[READER := Loading(3, 1, [LogRow(1, Rev(FIRST))])]
  }

  function Prepared(): map<Uuid, Manifest> {
    map[0 := Empty(0), 3 := Full(0)]
  }

  ghost function States(): seq<System> {
    [At(Db(0, EmptyTables, map[], map[], map[]), map[], map[]),
     At(Db(1, EmptyTables, map[], map[], map[]), map[0 := Empty(0)], map[]),
     At(Db(1, EmptyTables, map[], OneManifest(), map[]), map[0 := Empty(0)], map[]),
     At(Db(1, EmptyTables, map[], OneManifest(), ReaderDone()), map[0 := Empty(0)], Synchronized()),
     At(Db(3, TwoEntries(), Records(), OneManifest(), ReaderDone()), map[0 := Empty(0)], Synchronized()),
     At(Db(4, TwoEntries(), Records(), OneManifest(), ReaderDone()), Prepared(), Synchronized()),
     At(Db(4, TwoEntries(), Records(), TwoManifests(), ReaderDone()), Prepared(), Synchronized()),
     At(Db(4, TwoEntries(), Records(), TwoManifests(), ReaderDone()), Prepared(), Halfway()),
     At(Db(4, TwoEntries(), Records(), TwoManifests(), BothDone()), Prepared(), Halfway())]
  }

  // ---- The empty bootstrap ----

  lemma {:induction false} PreparesEmpty()
    ensures Moves(States()[0], Events()[0], States()[1])
  {
    var s := States()[0].db;
    assert Entries(s.t) == [];
    assert Latest(Entries(s.t)) == map[];
    assert InOrder(Latest(Entries(s.t)), []) == [];
    assert PrepareHappens(States()[0], [], States()[1]);
  }

  lemma {:induction false} RecordsEmpty()
    ensures Moves(States()[1], Events()[1], States()[2])
  {
    var y, z := States()[1], States()[2];
    assert (map[])[0 := Empty(0).(expiresAt := MANIFEST_LIFETIME)] == OneManifest();
    assert RecordHappens(y, 0, z);
  }

  lemma {:induction false} FinishesEmpty()
    ensures Moves(States()[2], Events()[2], States()[3])
  {
    var y, z := States()[2], States()[3];
    assert ManifestPage([], 0, 10) == Page([], false);
    assert (map[])[Completion(READER, 1) := 0] == ReaderDone();
    assert (map[])[READER := Synced(1, 0, map[])] == Synchronized();
    assert PageHappens(y, READER, 0, 0, [], 10, z);
  }

  // ---- Two objects ----

  lemma {:induction false} PushesFirst()
    ensures PushBatch(Batch(EmptyTables, 1, []), map[], READER, [Item(FIRST)])
      == Ok(Batch(OneEntry(), 2, [Applied(FIRST, 1, 1, 0)]))
  {
    var b := Batch(EmptyTables, 1, []);
    assert NextRevision(Item(FIRST), None, None, READER) == Rev(FIRST) && RowCheck(Rev(FIRST));
    assert Append(EmptyTables, 1, Rev(FIRST)) == OneEntry();
    assert [] + [Applied(FIRST, 1, 1, 0)] == [Applied(FIRST, 1, 1, 0)];
    assert PushOne(b, map[], READER, Item(FIRST)) == Ok(Batch(OneEntry(), 2, [Applied(FIRST, 1, 1, 0)]));
    assert Init([Item(FIRST)]) == [] && Last([Item(FIRST)]) == Item(FIRST);
    assert PushBatch(b, map[], READER, []) == Ok(b);
  }

  lemma {:induction false} PushesBoth()
    ensures PushBatch(Batch(EmptyTables, 1, []), map[], READER, Items()) == Ok(Batch(TwoEntries(), 3, PushResults()))
  {
    PushesFirst();
    assert Init(Items()) == [Item(FIRST)];
    assert FIRST != SECOND;
    assert NextRevision(Item(SECOND), None, None, READER) == Rev(SECOND) && RowCheck(Rev(SECOND));
    assert Append(OneEntry(), 2, Rev(SECOND)) == TwoEntries();
    assert [Applied(FIRST, 1, 1, 0)] + [Applied(SECOND, 1, 2, 0)] == PushResults();
  }

  lemma {:induction false} Pushes()
    ensures Moves(States()[3], Events()[3], States()[4])
  {
    hide PushBatch, Items, TwoEntries, PushResults;
    var s := States()[3].db;
    PushesBoth();
    assert WithoutExpired(s, RequestKey(READER, "k")) == map[];
    assert (map[])[RequestKey(READER, "k") := Record("h", Success(1, PushResults()), RECORD_LIFETIME)] == Records();
    assert CallHappens(States()[3], PushRequest(READER, 1, "k", "h", Items()), States()[4]);
  }

  // ---- The second bootstrap ----

  lemma {:induction false} LatestOfLog()
    ensures Logged(TwoEntries()) && Entries(TwoEntries()) == Log()
    ensures Lists(Order(), Latest(Log()).Keys) && InOrder(Latest(Log()), Order()) == ManifestRows()
  {
    assert Entries(TwoEntries()) == Log();
    assert [] + [Rev(FIRST)] == [Rev(FIRST)] && [Rev(FIRST)] + [Rev(SECOND)] == Log();
    LatestOfAppend([], Rev(FIRST));
    LatestOfAppend([Rev(FIRST)], Rev(SECOND));
    assert Latest(Log()) == map[FIRST := LogRow(1, Rev(FIRST)), SECOND := LogRow(2, Rev(SECOND))];
  }

  lemma {:induction false} PreparesFull()
    ensures Moves(States()[4], Events()[4], States()[5])
  {
    hide Latest, TwoEntries, Logged;
    LatestOfLog();
    var y, z := States()[4], States()[5];
    assert (map[0 := Empty(0)])[3 := Full(0)] == Prepared();
    assert y.db.t.changeSeq == 2 by {
      TwoEntriesLength();
    }
    assert PrepareHappens(y, Order(), z);
  }

  lemma {:induction false} TwoEntriesLength()
    ensures TwoEntries().changeSeq == 2
  {
  }

  lemma {:induction false} RecordsFull()
    ensures Moves(States()[5], Events()[5], States()[6])
  {
    var y, z := States()[5], States()[6];
    assert OneManifest()[3 := Full(0).(expiresAt := MANIFEST_LIFETIME)] == TwoManifests();
    assert RecordHappens(y, 3, z);
  }

  lemma {:induction false} ReadsFirst()
    ensures Moves(States()[6], Events()[6], States()[7])
  {
    var y, z := States()[6], States()[7];
    assert ManifestPage(ManifestRows(), 0, 1) == Page([LogRow(1, Rev(FIRST))], true);
    assert [] + [LogRow(1, Rev(FIRST))] == [LogRow(1, Rev(FIRST))];
    assert Synchronized()[READER := Loading(3, 1, [LogRow(1, Rev(FIRST))])] == Halfway();
    assert PageHappens(y, READER, 3, 0, [], 1, z);
  }

  lemma {:induction false} SecondPage(s: State)
    requires s == States()[7].db
    ensures ManifestPageTx(s, BORROWER, 3, 1, 1)
      == (States()[8].db, Ok(BootstrapReply(1, 2, Page([LogRow(2, Rev(SECOND))], false))))
  {
    assert ManifestPage(ManifestRows(), 1, 1) == Page([LogRow(2, Rev(SECOND))], false);
    assert ReaderDone()[Completion(BORROWER, 1) := 2] == BothDone();
  }

  lemma {:induction false} Borrows()
    ensures Moves(States()[7], Events()[7], States()[8])
  {
    SecondPage(States()[7].db);
    hide ManifestPageTx;
    assert OtherPageHappens(States()[7], BORROWER, 3, 1, 1, States()[8]);
  }

  lemma {:induction false} StatesAreRun()
    ensures IsRun(States(), Events())
  {
    hide Moves;
    PreparesEmpty();
    RecordsEmpty();
    FinishesEmpty();
    Pushes();
    PreparesFull();
    RecordsFull();
    ReadsFirst();
    Borrows();
  }

  // ---- What the borrower was served ----

  lemma {:induction false} FirstIsNeverServed(i: nat)
    requires i < 8
    ensures !Serves(States()[i], Events()[i], BORROWER, 3, LogRow(1, Rev(FIRST)))
  {
    hide ManifestPageTx;
    if i == 7 {
      SecondPage(States()[7].db);
    }
  }

  /** A device can be recorded as bootstrapped, and its push be judged, although it was never served
    * the first item of the manifest. */
  lemma {:induction false} BorrowedTokenCompletes() returns (run: seq<System>, events: seq<Event>)
    ensures IsRun(run, events) && |events| == 8
    ensures Completes(run[7], events[7], Completion(BORROWER, 1)) && Completion(BORROWER, 1) in run[8].db.completions
    ensures Judged(PushTx(run[8].db, BORROWER, 1, "k", "h", []).1)
    ensures 3 in run[8].prepared && |run[8].prepared[3].items| == 2
    ensures forall i :: 0 <= i < 8 ==> !Serves(run[i], events[i], BORROWER, 3, run[8].prepared[3].items[0])
  {
    hide IsRun, Serves;
    run, events := States(), Events();
    StatesAreRun();
    SecondPage(run[7].db);
    forall i | 0 <= i < 8 ensures !Serves(run[i], events[i], BORROWER, 3, run[8].prepared[3].items[0]) {
      FirstIsNeverServed(i);
    }
    BorrowerPushes();
  }

  lemma {:induction false} BorrowerPushes()
    ensures Judged(PushTx(States()[8].db, BORROWER, 1, "k", "h", []).1)
  {
    var s := States()[8].db;
    assert PushBatch(Batch(s.t, s.nextId, []), s.payloads, BORROWER, []).Ok?;
    assert RequestKey(BORROWER, "k") !in s.records;
  }
}
