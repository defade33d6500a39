/** What holds over whole runs of the service, from a new project on. */
module Runs {
  import opened Basics
  import opened ChangeLog
  import opened Push
  import opened Replica
  import opened RestoreLoop
  import opened Transactions
  import opened Invariants
  import opened Service
  import opened Safety

  // ---- Any two moments of a run ----

  /** How job rows differ between two moments: compare `JobsEvolve`, which is about one step. */
  ghost predicate JobsLater(s: State, u: State) {
    u.project.Some? ==>
      && (forall id :: id in s.jobs ==> id in u.jobs && JobEvolves(s.jobs[id], u.jobs[id], s.nextId))
      && (forall id :: id in u.jobs && id !in s.jobs && u.jobs[id].lease.Some? ==> u.jobs[id].lease.value >= s.nextId)
  }

  /** Whoever holds an old lease on a project in maintenance finds the tables as they were. */
  ghost predicate Undisturbed(s: State, u: State) {
    forall job: Uuid, token: Uuid :: token < s.nextId && Holds(u, job, token) && StatusIs(u, Maintenance) ==>
      Holds(s, job, token) && StatusIs(s, Maintenance) && u.t == s.t
  }

  ghost predicate Later(s: State, u: State) {
    Grows(s, u) && JobsLater(s, u) && SnapshotsStay(s, u) && RowsStay(s, u) && Undisturbed(s, u)
  }

  lemma {:induction false} StepIsLater(s: State, u: State, mover: Option<Uuid>)
    requires Step(s, u, mover)
    ensures Later(s, u)
  {
    hide Logged, CompletionsAtGeneration, JobEvolves;
  }

  lemma {:induction false} LaterSelf(s: State)
    requires DbOk(s)
    ensures Later(s, s)
  {
    StutterKeeps(s);
    hide DbOk, Step;
    StepIsLater(s, s, None);
  }

  lemma {:induction false} LaterThen(s: State, mid: State, u: State)
    requires Later(s, mid) && Later(mid, u)
    ensures Later(s, u)
  {
    hide Logged;
  }

  lemma {:induction false} RecordIsLater(y: System, id: Uuid, z: System)
    requires SystemOk(y) && RecordHappens(y, id, z)
    ensures Later(y.db, z.db)
  {
    hide DbOk, Step, WorkersOk, DevicesOk, Logged, Later, ManifestOk, RecordManifest;
    DbIsLogged(y.db);
    RecordManifestKeeps(y.db, id, y.prepared[id]);
    StepIsLater(y.db, z.db, None);
  }

  lemma {:induction false} PageIsLater(s: State, device: Uuid, id: Uuid, offset: int, limit: int)
    requires DbOk(s)
    ensures Later(s, ManifestPageTx(s, device, id, offset, limit).0)
  {
    hide DbOk, Step, Later, ManifestPageTx;
    ManifestPageKeeps(s, device, id, offset, limit);
    StepIsLater(s, ManifestPageTx(s, device, id, offset, limit).0, None);
  }

  lemma {:induction false} AnswerIsLater(y: System, device: Uuid, id: Uuid, offset: int, received: seq<LogRow>, limit: int, z: System)
    requires DbOk(y.db) && PageHappens(y, device, id, offset, received, limit, z)
    ensures Later(y.db, z.db)
  {
    hide DbOk, Later, ManifestPageTx, Received;
    PageIsLater(y.db, device, id, offset, limit);
  }

  lemma {:induction false} OtherPageIsLater(y: System, device: Uuid, id: Uuid, offset: int, limit: int, z: System)
    requires DbOk(y.db) && OtherPageHappens(y, device, id, offset, limit, z)
    ensures Later(y.db, z.db)
  {
    hide DbOk, Later, ManifestPageTx;
    PageIsLater(y.db, device, id, offset, limit);
  }

  lemma {:induction false} ClaimIsLater(y: System, w: int, job: Uuid, fate: Fate, z: System)
    requires DbOk(y.db) && ClaimHappens(y, w, job, fate, z)
    ensures Later(y.db, z.db)
  {
    hide DbOk, Step, ClaimTx, Later, Claimable;
    LaterSelf(y.db);
    ClaimKeeps(y.db, job);
    StepIsLater(y.db, ClaimTx(y.db, job).0, None);
  }

  lemma {:induction false} WorkIsLater(y: System, w: int, fate: Fate, ranked: seq<ObjectId>, order: seq<ObjectId>, z: System)
    requires DbOk(y.db) && WorkHappens(y, w, fate, ranked, order, z)
    ensures Later(y.db, z.db)
  {
    hide DbOk, Step, WorkerCall, Later, OrdersFit;
    WorkKeepsDb(y.db, PcOf(y, w), fate, ranked, order);
    StepIsLater(y.db, z.db, MoverOf(PcOf(y, w)));
  }

  lemma {:induction false} PrepareIsLater(y: System, order: seq<ObjectId>, z: System)
    requires DbOk(y.db) && PrepareHappens(y, order, z)
    ensures Later(y.db, z.db)
  {
    hide DbOk, Step, Later, PrepareManifest, Lists, Latest;
    LaterSelf(y.db);
    CounterKeeps(y.db);
    StepIsLater(y.db, y.db.(nextId := y.db.nextId + 1), None);
  }

  lemma {:induction false} EventIsLater(y: System, e: Event, z: System)
    requires SystemOk(y) && Moves(y, e, z)
    ensures Later(y.db, z.db)
  {
    SystemIsDb(y);
    hide SystemOk, DbOk, CoreOk, Step, Called, CallFits, Logged, Later, PrepareHappens, RecordHappens, PageHappens,
      OtherPageHappens, PullTx, ClaimHappens, WorkHappens, Apply;
    LaterSelf(y.db);
    match e
    case Calls(c) => CallKeeps(y.db, c); StepIsLater(y.db, z.db, None);
    case PrepareBootstrap(order) => PrepareIsLater(y, order, z);
    case RecordBootstrap(id) => RecordIsLater(y, id, z);
    case FirstPage(device, id, limit) => AnswerIsLater(y, device, id, 0, [], limit, z);
    case NextPage(device, limit) =>
      var d := DeviceOf(y, device);
      AnswerIsLater(y, device, d.manifest, d.offset, d.received, limit, z);
    case OtherPage(device, id, offset, limit) => OtherPageIsLater(y, device, id, offset, limit, z);
    case PullChanges(_, _) =>
    case Claim(w, job, fate) => ClaimIsLater(y, w, job, fate, z);
    case Work(w, fate, ranked, order) => WorkIsLater(y, w, fate, ranked, order, z);
    case Crash(_) =>
  }

  /** The invariant holds throughout every run. */
  lemma {:induction false} RunIsSafe(run: seq<System>, events: seq<Event>, i: nat)
    requires IsRun(run, events) && i < |run|
    ensures SystemOk(run[i])
  {
    hide SystemOk, Moves;
    if i == 0 {
      StartIsOk(run[0]);
    } else {
      RunIsSafe(run, events, i - 1);
      EventKeeps(run[i - 1], events[i - 1], run[i]);
    }
  }

  lemma {:induction false} SystemIsDb(y: System)
    requires SystemOk(y)
    ensures DbOk(y.db) && Logged(y.db.t) && CoreOk(y.db)
  {
  }

  /** From any moment of a run to any later one, clock, log, generation and counter only grow, job
    * rows evolve, settled snapshots and unexpired push records stay. */
  lemma {:induction false} RunGrows(run: seq<System>, events: seq<Event>, i: nat, j: nat)
    requires IsRun(run, events) && i <= j < |run|
    ensures DbOk(run[i].db) && CoreOk(run[i].db) && DbOk(run[j].db) && CoreOk(run[j].db)
    ensures Later(run[i].db, run[j].db)
    decreases j - i
  {
    hide DbOk, Moves, Later, SystemOk, Logged, Starts, CoreOk;
    RunIsSafe(run, events, i);
    RunIsSafe(run, events, j);
    SystemIsDb(run[i]);
    SystemIsDb(run[j]);
    if i == j {
      LaterSelf(run[i].db);
    } else {
      RunGrows(run, events, i, j - 1);
      RunIsSafe(run, events, j - 1);
      EventIsLater(run[j - 1], events[j - 1], run[j]);
      LaterThen(run[i].db, run[j - 1].db, run[j].db);
    }
  }

  lemma {:induction false} HeldSince(s: State, u: State, job: Uuid, token: Uuid)
    requires Later(s, u) && token < s.nextId && Holds(u, job, token) && StatusIs(u, Maintenance)
    ensures Holds(s, job, token) && StatusIs(s, Maintenance) && u.t == s.t
  {
    hide Grows, JobsLater, SnapshotsStay, RowsStay;
  }

  lemma {:induction false} SettledStays(s: State, u: State, x: Uuid)
    requires Later(s, u) && u.project.Some? && x in s.snapshots && s.snapshots[x].status != Pending
    ensures x in u.snapshots && u.snapshots[x].status == s.snapshots[x].status
  {
    hide Grows, JobsLater, RowsStay, Undisturbed;
  }
}
