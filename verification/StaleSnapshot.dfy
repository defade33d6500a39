/** A run that shows why `RestoreRuns.SnapshotIsReadyExactly` carries a condition: the worker is
  * delayed for a day between writing its manifest and marking the snapshot ready, the snapshot
  * expires meanwhile, and the restore still succeeds. */
module StaleSnapshot {
  import opened Basics
  import opened ChangeLog
  import opened RestoreLoop
  import opened Transactions
  import opened Service
  import opened RestoreRuns

  const TARGET := SequenceTarget(0)
  const CLAIMED := Job(TARGET, Running, None, Some(1), None, 0, 0, 0, 0, Some(1), LEASE_SECONDS, false)
  const LINKED := Job(TARGET, Running, Some(2), Some(1), None, 0, 0, 0, 0, Some(1), LEASE_SECONDS, false)
  const RENEWED := Job(TARGET, Running, Some(2), Some(1), None, 0, 0, 0, 0, Some(1), DAY + 1 + LEASE_SECONDS, false)

  /** The database of this run, where only these parts ever differ. */
  function Db(now: Time, nextId: nat, status: Status, jobs: map<Uuid, Job>, snapshots: map<Uuid, Snapshot>): State {
    State(now, nextId, Some(Project(status, 1)), EmptyTables, map[], jobs, snapshots, map[], map[], map[])
  }

  function Picture(status: SnapshotStatus): map<Uuid, Snapshot> {
    map[2 := Snapshot(1, 0, [], status, 0)]
  }

  function At(db: State, pc: Pc): System {
    System(db, map[0 := pc], map[], map[], if pc.HasSnapshot() then map[2 := 1] else map[])
  }

  ghost function Events(): seq<Event> {
    var work := Work(0, Answered, [], []);
    [Calls(Enqueue(TARGET)), Claim(0, 0, Answered), work, work, work, Calls(Wait(DAY + 1)), Calls(ExpireSnapshots(DAY + 1 - DAY)),
     work, work, work]
  }

  ghost function States(end: System): seq<System> {
    [System(EmptyState, map[], map[], map[], map[]),
     System(Db(0, 1, Active, map[0 := NewJob(TARGET, 0)], map[]), map[], map[], map[], map[]),
     At(Db(0, 2, Maintenance, map[0 := CLAIMED], map[]), Claimed(0, 1)),
     At(Db(0, 3, Maintenance, map[0 := LINKED], Picture(Pending)), Snapped(0, 1, 2)),
     At(Db(0, 3, Maintenance, map[0 := LINKED], Picture(Pending)), Renewed(0, 1, 2)),
     At(Db(0, 3, Maintenance, map[0 := LINKED], Picture(Pending)), Stored(0, 1, 2)),
     At(Db(DAY + 1, 3, Maintenance, map[0 := LINKED], Picture(Pending)), Stored(0, 1, 2)),
     At(Db(DAY + 1, 3, Maintenance, map[0 := LINKED], Picture(Stale)), Stored(0, 1, 2)),
     At(Db(DAY + 1, 3, Maintenance, map[0 := LINKED], Picture(Stale)), Marked(0, 1, 2)),
     At(Db(DAY + 1, 3, Maintenance, map[0 := RENEWED], Picture(Stale)), Armed(0, 1, 2)),
     end]
  }

  lemma {:induction false} EmptyOrdersFit(s: State)
    requires s.t == EmptyTables && forall job :: job in s.jobs ==> s.jobs[job].target == TARGET
    ensures Logged(s.t) && Entries(s.t) == [] && HeadRows(s.t) == map[]
    ensures forall job :: OrdersFit(s, job, [], [])
  {
    assert Upto(Entries(s.t), 0) == [];
  }

  lemma {:induction false} WorkMoves(s: State, pc: Pc, u: State, next: Pc)
    requires s.t == EmptyTables && (forall job :: job in s.jobs ==> s.jobs[job].target == TARGET)
    requires pc != Idle && OrdersFit(s, pc.job, [], [])
    requires WorkerCall(s, pc, Answered, [], []) == (u, next)
    requires next.Snapped? ==> next.snapshot == 2 && pc.token == 1
    requires next.HasSnapshot() == (pc.HasSnapshot() || next.Snapped?)
    ensures Moves(At(s, pc), Work(0, Answered, [], []), At(u, next))
  {
    hide WorkerCall, OrdersFit, EmptyTables;
  }

  lemma {:induction false} Enqueued()
    ensures EnqueueTx(EmptyState, TARGET).0 == Db(0, 1, Active, map[0 := NewJob(TARGET, 0)], map[])
  {
  }

  lemma {:induction false} ClaimedFirst()
    ensures ClaimCall(Db(0, 1, Active, map[0 := NewJob(TARGET, 0)], map[]), 0, Answered)
      == (Db(0, 2, Maintenance, map[0 := CLAIMED], map[]), Claimed(0, 1))
  {
    var s := Db(0, 1, Active, map[0 := NewJob(TARGET, 0)], map[]);
    assert s.jobs[0 := CLAIMED] == map[0 := CLAIMED];
  }

  lemma {:induction false} Taken()
    ensures forall o :: o in [] ==> o in HeadRows(EmptyTables)
    ensures CreatePreSnapshotTx(Db(0, 2, Maintenance, map[0 := CLAIMED], map[]), 0, 1, [])
      == (Db(0, 3, Maintenance, map[0 := LINKED], Picture(Pending)), Ok(2))
  {
    var s := Db(0, 2, Maintenance, map[0 := CLAIMED], map[]);
    assert Holds(s, 0, 1);
    assert InOrder(HeadRows(EmptyTables), []) == [];
    assert s.jobs[0 := CLAIMED.(preSnapshot := Some(2))] == map[0 := LINKED];
    assert s.snapshots[2 := Snapshot(1, 0, [], Pending, 0)] == Picture(Pending);
  }

  lemma {:induction false} Renewals()
    ensures RenewLeaseTx(Db(0, 3, Maintenance, map[0 := LINKED], Picture(Pending)), 0, 1)
      == (Db(0, 3, Maintenance, map[0 := LINKED], Picture(Pending)), Ok(()))
    ensures RenewLeaseTx(Db(DAY + 1, 3, Maintenance, map[0 := LINKED], Picture(Stale)), 0, 1)
      == (Db(DAY + 1, 3, Maintenance, map[0 := RENEWED], Picture(Stale)), Ok(()))
  {
    assert map[0 := LINKED][0 := LINKED] == map[0 := LINKED];
    assert map[0 := LINKED][0 := RENEWED] == map[0 := RENEWED];
  }

  lemma {:induction false} Expired()
    ensures ExpireSnapshotsTx(Db(DAY + 1, 3, Maintenance, map[0 := LINKED], Picture(Pending)), 1)
      == Db(DAY + 1, 3, Maintenance, map[0 := LINKED], Picture(Stale))
  {
  }

  lemma {:induction false} Begins()
    ensures var first := System(Db(0, 1, Active, map[0 := NewJob(TARGET, 0)], map[]), map[], map[], map[], map[]);
      && Moves(System(EmptyState, map[], map[], map[], map[]), Calls(Enqueue(TARGET)), first)
      && Moves(first, Claim(0, 0, Answered), At(Db(0, 2, Maintenance, map[0 := CLAIMED], map[]), Claimed(0, 1)))
  {
    hide EnqueueTx, ClaimTx, ClaimCall, EmptyState, EmptyTables;
    Enqueued();
    ClaimedFirst();
  }

  lemma {:induction false} TakesSnapshot()
    ensures Moves(At(Db(0, 2, Maintenance, map[0 := CLAIMED], map[]), Claimed(0, 1)), Work(0, Answered, [], []),
      At(Db(0, 3, Maintenance, map[0 := LINKED], Picture(Pending)), Snapped(0, 1, 2)))
  {
    hide CreatePreSnapshotTx, OrdersFit, Moves, HeadRows;
    var s := Db(0, 2, Maintenance, map[0 := CLAIMED], map[]);
    EmptyOrdersFit(s);
    Taken();
    WorkMoves(s, Claimed(0, 1), Db(0, 3, Maintenance, map[0 := LINKED], Picture(Pending)), Snapped(0, 1, 2));
  }

  lemma {:induction false} Stores()
    ensures var s := Db(0, 3, Maintenance, map[0 := LINKED], Picture(Pending));
      && Moves(At(s, Snapped(0, 1, 2)), Work(0, Answered, [], []), At(s, Renewed(0, 1, 2)))
      && Moves(At(s, Renewed(0, 1, 2)), Work(0, Answered, [], []), At(s, Stored(0, 1, 2)))
  {
    hide RenewLeaseTx, OrdersFit, Moves, HeadRows;
    var s := Db(0, 3, Maintenance, map[0 := LINKED], Picture(Pending));
    EmptyOrdersFit(s);
    Renewals();
    WorkMoves(s, Snapped(0, 1, 2), s, Renewed(0, 1, 2));
    WorkMoves(s, Renewed(0, 1, 2), s, Stored(0, 1, 2));
  }

  lemma {:induction false} Expires()
    ensures var stored := At(Db(0, 3, Maintenance, map[0 := LINKED], Picture(Pending)), Stored(0, 1, 2));
      var waited := At(Db(DAY + 1, 3, Maintenance, map[0 := LINKED], Picture(Pending)), Stored(0, 1, 2));
      var expired := At(Db(DAY + 1, 3, Maintenance, map[0 := LINKED], Picture(Stale)), Stored(0, 1, 2));
      && Moves(stored, Calls(Wait(DAY + 1)), waited)
      && Moves(waited, Calls(ExpireSnapshots(DAY + 1 - DAY)), expired)
  {
    hide ExpireSnapshotsTx;
    Expired();
  }

  lemma {:induction false} Arms()
    ensures var s := Db(DAY + 1, 3, Maintenance, map[0 := LINKED], Picture(Stale));
      && Moves(At(s, Stored(0, 1, 2)), Work(0, Answered, [], []), At(s, Marked(0, 1, 2)))
      && Moves(At(s, Marked(0, 1, 2)), Work(0, Answered, [], []),
           At(Db(DAY + 1, 3, Maintenance, map[0 := RENEWED], Picture(Stale)), Armed(0, 1, 2)))
  {
    hide RenewLeaseTx, OrdersFit, Moves, HeadRows;
    var s := Db(DAY + 1, 3, Maintenance, map[0 := LINKED], Picture(Stale));
    EmptyOrdersFit(s);
    Renewals();
    WorkMoves(s, Stored(0, 1, 2), s, Marked(0, 1, 2));
    WorkMoves(s, Marked(0, 1, 2), Db(DAY + 1, 3, Maintenance, map[0 := RENEWED], Picture(Stale)), Armed(0, 1, 2));
  }

  lemma {:induction false} Succeeds() returns (end: System)
    ensures var last := At(Db(DAY + 1, 3, Maintenance, map[0 := RENEWED], Picture(Stale)), Armed(0, 1, 2));
      Restores(last, Work(0, Answered, [], [])) && Moves(last, Work(0, Answered, [], []), end)
  {
    var last := At(Db(DAY + 1, 3, Maintenance, map[0 := RENEWED], Picture(Stale)), Armed(0, 1, 2));
    EmptyOrdersFit(last.db);
    var r := WorkerCall(last.db, Armed(0, 1, 2), Answered, [], []);
    end := System(r.0, last.workers[0 := r.1], map[], map[], map[2 := 1]);
  }

  /** A restore can succeed although its pre-restore snapshot has expired. */
  lemma {:induction false} RestoreWithStaleSnapshot() returns (run: seq<System>, events: seq<Event>)
    ensures |events| == 10 && IsRun(run, events) && Restores(run[9], events[9])
    ensures PcOf(run[9], events[9].worker) == Armed(0, 1, 2)
    ensures 2 in run[9].db.snapshots && run[9].db.snapshots[2].status == Stale
  {
    hide Moves, Restores;
    var end := Succeeds();
    run, events := States(end), Events();
    Begins();
    TakesSnapshot();
    Stores();
    Expires();
    Arms();
  }
}
