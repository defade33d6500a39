/** When the reads of a device are served, and what they are answered, in every reachable state. */
module ReadRuns {
  import opened Basics
  import opened ChangeLog
  import opened Push
  import opened Replica
  import opened RestoreLoop
  import opened Transactions
  import opened Invariants
  import opened Service
  import opened Safety
  import opened Runs
  import opened DeviceRuns

  // ---- Pull ----

  /** A pull is served exactly when the project is active, the generation is the present one and the
    * cursor lies within the log; every other case has its own error. */
  lemma {:induction false} PullIsServedExactly(run: seq<System>, events: seq<Event>, i: nat, generation: int, after: int, limit: nat)
    requires IsRun(run, events) && i < |run|
    ensures var s := run[i].db;
      && Logged(s.t)
      && var r := PullTx(s, generation, after, limit);
         && (r.Ok? <==> s.project == Some(Project(Active, generation)) && 0 <= after <= s.t.changeSeq)
         && (s.project.None? ==> r == Err(NotFound))
         && (s.project.Some? && s.project.value.status != Active ==> r == Err(ProjectMaintenance))
         && (s.project.Some? && s.project.value.status == Active && s.project.value.generation != generation ==>
               r == Err(GenerationMismatch(generation, s.project.value.generation)))
         && (s.project == Some(Project(Active, generation)) && !(0 <= after <= s.t.changeSeq) ==> r == Err(NotFound))
         && (r.Ok? ==>
               && r.value.generation == generation
               && var n := |r.value.page.records|;
                  && n == (if s.t.changeSeq - after > limit then limit else s.t.changeSeq - after)
                  && (forall k :: 0 <= k < n ==> r.value.page.records[k] == LogRow(after + k + 1, Entries(s.t)[after + k]))
                  && (r.value.page.hasMore <==> s.t.changeSeq - after > limit)
                  && r.value.nextSequence == after + n)
  {
    hide Moves, Starts, SystemOk, DbOk, Rows;
    RunIsSafe(run, events, i);
    SystemIsDb(run[i]);
  }

  /** A synchronized device of the present generation of an active project is always served.  At the
    * end of the log it gets an empty page without more, and its cursor stays. */
  lemma {:induction false} SyncedDeviceIsServed(run: seq<System>, events: seq<Event>, i: nat, device: Uuid, limit: nat)
    requires IsRun(run, events) && i < |run| && DeviceOf(run[i], device).Synced?
    requires run[i].db.project == Some(Project(Active, DeviceOf(run[i], device).generation))
    ensures var d := DeviceOf(run[i], device); var s := run[i].db;
      && Logged(s.t)
      && var r := PullTx(s, d.generation, d.cursor, limit);
         && r.Ok?
         && (d.cursor == s.t.changeSeq ==> r.value == PullReply(d.generation, Page([], false), d.cursor))
  {
    hide Moves, Starts, PullTx, CopyIsHeads, Latest;
    DeviceHoldsItsCursor(run, events, i, device);
    var d := DeviceOf(run[i], device);
    PullIsServedExactly(run, events, i, d.generation, d.cursor, limit);
    hide Logged;
    if d.cursor == run[i].db.t.changeSeq {
      var r := PullTx(run[i].db, d.generation, d.cursor, limit).value;
      assert r.page.records == [];
    }
  }

  // ---- Bootstrap ----

  /** A manifest is prepared exactly for an active project, with its generation, its sequence and the
    * newest row of every object. */
  lemma {:induction false} PrepareIsServedExactly(run: seq<System>, events: seq<Event>, i: nat, order: seq<ObjectId>)
    requires IsRun(run, events) && i < |run|
    requires Logged(run[i].db.t) && Lists(order, Latest(Entries(run[i].db.t)).Keys)
    ensures var s := run[i].db; var r := PrepareManifest(s, order);
      && (r.Ok? <==> s.project.Some? && s.project.value.status == Active)
      && (s.project.None? ==> r == Err(NotFound))
      && (s.project.Some? && s.project.value.status != Active ==> r == Err(ProjectMaintenance))
      && (r.Ok? ==>
            && r.value.generation == s.project.value.generation && r.value.sequence == s.t.changeSeq
            && ManifestOf(r.value.items, Entries(s.t), s.t.changeSeq))
  {
    hide Latest, Linear, Moves, Starts, ManifestOf;
    OrderedRowsAreManifest(Entries(run[i].db.t), order);
  }

  /** The items from `offset` on, as far as `limit` goes. */
  function Slice(items: seq<LogRow>, offset: nat, limit: int): seq<LogRow> {
    if offset >= |items| || limit <= 0 then [] else if |items| - offset <= limit then items[offset..] else items[offset..offset + limit]
  }

  lemma {:induction false} PageIsSlice(items: seq<LogRow>, offset: nat, limit: int)
    ensures ManifestPage(items, offset, if limit < 0 then 0 else limit)
      == Page(Slice(items, offset, limit), |items| - offset > (if limit < 0 then 0 else limit))
  {
  }

  /** A bootstrap page is served exactly when the project is active, the manifest is stored, has not
    * expired and is of the present generation, and the offset is not negative; it is then the slice
    * of the manifest's items that was asked for. */
  lemma {:induction false} PageIsServedExactly(run: seq<System>, events: seq<Event>, i: nat, device: Uuid, id: Uuid, offset: int, limit: int)
    requires IsRun(run, events) && i < |run|
    ensures var s := run[i].db; var r := ManifestPageTx(s, device, id, offset, limit).1;
      && (s.project.None? ==> r == Err(NotFound))
      && (s.project.Some? && s.project.value.status != Active ==> r == Err(ProjectMaintenance))
      && (s.project.Some? && s.project.value.status == Active ==>
        if !(id in s.manifests && s.now < s.manifests[id].expiresAt) then r == Err(NotFound)
        else if s.manifests[id].generation != s.project.value.generation then
          r == Err(GenerationMismatch(s.manifests[id].generation, s.project.value.generation))
        else if offset < 0 then r == Err(NotFound)
        else r == Ok(BootstrapReply(s.project.value.generation, s.manifests[id].sequence,
          Page(Slice(s.manifests[id].items, offset, limit), |s.manifests[id].items| - offset > (if limit < 0 then 0 else limit)))))
  {
    hide Moves, Starts, ManifestPage, Slice, WorkersOk, DevicesOk, JobsOk, SnapshotsOk, TargetsOk, GenerationOk, Latest, Linear,
      HeadsAreLatest, Closed, Logged;
    RunIsSafe(run, events, i);
    SystemIsDb(run[i]);
    var s := run[i].db;
    if s.project.Some? && id in s.manifests {
      assert ManifestOk(s.manifests[id], Entries(s.t), s.project.value.generation);
      ManifestBounds(s.manifests[id].items, Entries(s.t), s.manifests[id].sequence);
      if offset >= 0 {
        PageIsSlice(s.manifests[id].items, offset, limit);
      }
    }
  }

  /** A page without more records the completion of its device at the manifest's sequence; no other
    * answer writes anything. */
  lemma {:induction false} LastPageWrites(s: State, device: Uuid, id: Uuid, offset: int, limit: int)
    ensures var r := ManifestPageTx(s, device, id, offset, limit);
      && (r.1.Ok? && !r.1.value.page.hasMore ==>
            && id in s.manifests
            && r.0 == s.(completions :=
                 s.completions[Completion(device, s.manifests[id].generation) := s.manifests[id].sequence]))
      && (r.1.Err? || r.1.value.page.hasMore ==> r.0 == s)
  {
    hide ManifestPage;
  }

  /** A prepared manifest is recorded once, for a day, for a project that exists. */
  lemma {:induction false} RecordingIsAnsweredExactly(s: State, id: Uuid, m: Manifest)
    ensures RecordManifest(s, id, m) ==
      if s.project.Some? && id !in s.manifests
      then (s.(manifests := s.manifests[id := Manifest(m.generation, m.sequence, m.items, s.now + 86_400)]), Ok(()))
      else (s, Err(if s.project.None? then Error.Database else Conflict))
  {
  }

  lemma {:induction false} ManifestStays(s: State, u: State, id: Uuid)
    requires Later(s, u) && u.project.Some? && id in s.manifests && s.manifests[id].expiresAt > u.now
    ensures id in u.manifests && u.manifests[id] == s.manifests[id]
  {
    hide Grows, JobsLater, SnapshotsStay, Undisturbed;
  }

  /** For a day after a manifest was recorded, every page of it is served while the project is active
    * at the manifest's generation. */
  lemma {:induction false} ManifestIsServedForADay(run: seq<System>, events: seq<Event>, i: nat, j: nat, id: Uuid,
      device: Uuid, offset: nat, limit: int)
    requires IsRun(run, events) && i < j < |run| && events[i] == RecordBootstrap(id)
    requires id !in run[i].db.manifests && run[i].db.project.Some?
    requires run[j].db.now < run[i].db.now + 86_400
    requires id in run[i].prepared && run[j].db.project == Some(Project(Active, run[i].prepared[id].generation))
    ensures var r := ManifestPageTx(run[j].db, device, id, offset, limit).1; var m := run[i].prepared[id];
      r == Ok(BootstrapReply(m.generation, m.sequence,
        Page(Slice(m.items, offset, limit), |m.items| - offset > (if limit < 0 then 0 else limit))))
  {
    hide Starts, ManifestPageTx, Later, DbOk, CoreOk, Slice;
    assert Moves(run[i], events[i], run[i + 1]);
    hide Moves;
    RunGrows(run, events, i + 1, j);
    ManifestStays(run[i + 1].db, run[j].db, id);
    PageIsServedExactly(run, events, j, device, id, offset, limit);
  }
}
