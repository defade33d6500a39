/** The tables of one project and its transactions, statement by statement.
  *
  * Every method is one transaction of the persistence layer: it works on local copies until it
  * commits, and an early return is a rollback.  Its contract ties the new contents and the answer
  * to the transaction's function in module `Transactions`, about which everything else is proved.
  */
module Persistence {
  import opened Basics
  import opened ChangeLog
  import opened Push
  import opened Replica
  import opened RestoreLoop
  import opened Transactions
  import opened Invariants
  import opened Safety

  class Database {
    var now: Time
    var nextId: nat
    var project: Option<Project>
    var changeSeq: nat
    var revisions: map<Uuid, Revision>
    var changeLog: map<int, Uuid>
    var heads: map<ObjectId, Head>
    var payloads: Catalogue
    var jobs: map<Uuid, Job>
    var snapshots: map<Uuid, Snapshot>
    var records: map<RequestKey, Record>
    var manifests: map<Uuid, Manifest>
    var completions: map<Completion, int>

    ghost function Contents(): State
      reads this
    {
      State(now, nextId, project, Tables(changeSeq, revisions, changeLog, heads), payloads, jobs, snapshots, records,
            manifests, completions)
    }

    ghost predicate Valid()
      reads this
    {
      DbOk(Contents())
    }

    /** A new project: active, generation 1, nothing logged. */
    constructor ()
      ensures Valid()
      ensures Contents() == State(0, 0, Some(Project(Active, 1)), EmptyTables, map[], map[], map[], map[], map[], map[])
    {
      now, nextId, project := 0, 0, Some(Project(Active, 1));
      changeSeq, revisions, changeLog, heads := 0, map[], map[], map[];
      payloads, jobs, snapshots, records, manifests, completions := map[], map[], map[], map[], map[], map[];
      new;
      assert Entries(EmptyTables) == [];
      assert Successes(jobs) == {};
    }

    // ---- Push ----

    /** `push_with_outcome`. */
    method Push(device: Uuid, generation: int, key: string, hash: Hash, items: seq<NewRevision>) returns (reply: PushReply)
      requires Valid()
      modifies this
      ensures Valid()
      ensures (Contents(), reply) == PushTx(old(Contents()), device, generation, key, hash, items)
    {
      hide DbOk, Step, PushBatch, Replay;
      ghost var before := Contents();
      PushKeeps(before, device, generation, key, hash, items);
      var k := RequestKey(device, key);
      var kept := records;
      if k in records && records[k].expiresAt <= now {
        kept := records - {k};
      }
      assert kept == WithoutExpired(before, k);
      if k in kept {
        if kept[k].hash == hash {
          return Replay(kept[k]);
        }
        return Refused(IdempotencyConflict);
      }
      reply := Judge(kept, device, generation, key, hash, items);
    }

    /** The request-level guards of a push that is not a replay, and the commit of its outcome. */
    method Judge(kept: map<RequestKey, Record>, device: Uuid, generation: int, key: string, hash: Hash, items: seq<NewRevision>)
      returns (reply: PushReply)
      requires kept == WithoutExpired(Contents(), RequestKey(device, key)) && RequestKey(device, key) !in kept
      modifies this
      ensures (Contents(), reply) == PushTx(old(Contents()), device, generation, key, hash, items)
    {
      hide PushBatch, WithoutExpired;
      var k := RequestKey(device, key);
      if project.None? {
        return Refused(NotFound);
      }
      if project.value.status != Active {
        StoreFailure(kept, k, hash, MaintenanceFailure);
        return Refused(ProjectMaintenance);
      }
      var actual := project.value.generation;
      if generation != actual {
        StoreFailure(kept, k, hash, GenerationFailure(generation, actual));
        return Refused(GenerationMismatch(generation, actual));
      }
      if Completion(device, actual) !in completions {
        StoreFailure(kept, k, hash, BootstrapFailure);
        return Refused(BootstrapRequired);
      }
      var applied := ApplyItems(device, items);
      if applied.Err? {
        return Refused(applied.error);
      }
      CommitPush(applied.value, kept[k := Record(hash, Success(actual, applied.value.results), now + RECORD_LIFETIME)]);
      return Pushed(actual, applied.value.results, false);
    }

    method CommitPush(b: Batch, kept: map<RequestKey, Record>)
      modifies this
      ensures Contents() == old(Contents()).(t := b.t, nextId := b.nextId, records := kept)
    {
      records := kept;
      nextId := b.nextId;
      changeSeq, revisions, changeLog, heads := b.t.changeSeq, b.t.revisions, b.t.changeLog, b.t.heads;
      assert Tables(changeSeq, revisions, changeLog, heads) == b.t;
    }

    /** `store_push_failure` and the commit that follows it. */
    method StoreFailure(kept: map<RequestKey, Record>, k: RequestKey, hash: Hash, failure: Failure)
      modifies this`records
      ensures Contents() == old(Contents()).(records := kept[k := Record(hash, Refusal(failure), now + RECORD_LIFETIME)])
    {
      records := kept[k := Record(hash, Refusal(failure), now + RECORD_LIFETIME)];
    }

    /** The item loop of a push, on the transaction's view of the tables. */
    method ApplyItems(device: Uuid, items: seq<NewRevision>) returns (r: Result<Batch, Error>)
      ensures r == PushBatch(Batch(Contents().t, nextId, []), payloads, device, items)
    {
      hide PushBatch, RowCheck, ValidMediaType, MaxPayloadBytes;
      ghost var start := Batch(Contents().t, nextId, []);
      PushNoItems(start, payloads, device);
      assert items[..0] == [];
      var sequence, stored, log, current, id := changeSeq, revisions, changeLog, heads, nextId;
      var results: seq<ItemResult> := [];
      for i := 0 to |items|
        invariant PushBatch(start, payloads, device, items[..i]) == Ok(Batch(Tables(sequence, stored, log, current), id, results))
      {
        var item := items[i];
        ghost var before := Batch(Tables(sequence, stored, log, current), id, results);
        PushNextItem(start, payloads, device, items, i, before);
        if PushOne(before, payloads, device, item).Err? {
          BatchFails(start, payloads, device, items, i + 1);
        }
        var actual := if item.obj in current then Some(current[item.obj].revision) else None;
        if item.base != actual {
          results := results + [Conflicted(item.obj, item.base, actual)];
          continue;
        }
        var payload: Option<Uuid> := None;
        if !item.tombstone {
          if item.hash.None? || item.hash.value !in payloads {
            results := results + [Rejected(item.obj, MissingPayload)];
            continue;
          }
          var found := payloads[item.hash.value];
          if found.size > MaxPayloadBytes(item.obj.kind) {
            results := results + [Rejected(item.obj, TooLarge(MaxPayloadBytes(item.obj.kind), found.size))];
            continue;
          }
          if !ValidMediaType(item.obj.kind, found.essence) {
            results := results + [Rejected(item.obj, WrongMediaType)];
            continue;
          }
          payload := Some(found.id);
        }
        var next := (if actual.Some? then actual.value else 0) + 1;
        sequence := sequence + 1;
        var rev := Revision(item.obj, next, item.base, item.schema, payload, item.hash, item.tombstone, item.changedAt, device);
        if !RowCheck(rev) {
          return Err(Error.Database);
        }
        stored := stored[id := rev];
        current := current[item.obj := Head(next, id)];
        log := log[sequence := id];
        results := results + [Applied(item.obj, next, sequence, item.changedAt)];
        id := id + 1;
      }
      assert items[..|items|] == items;
      return Ok(Batch(Tables(sequence, stored, log, current), id, results));
    }

    // ---- Reads ----

    /** The change log joined with its revisions, in sequence order. */
    method ReadLog() returns (log: seq<Revision>)
      requires Logged(Contents().t)
      ensures log == Entries(Contents().t)
    {
      log := [];
      for n := 0 to changeSeq
        invariant |log| == n
        invariant forall i :: 0 <= i < n ==> log[i] == Entries(Contents().t)[i]
      {
        log := log + [revisions[changeLog[n + 1]]];
      }
    }

    /** `pull_page`. */
    method PullPage(generation: int, after: int, limit: nat) returns (r: Result<PullReply, Error>)
      requires Valid() && Logged(Contents().t)
      ensures r == PullTx(Contents(), generation, after, limit)
    {
      hide DbOk, Logged, RowAt;
      if project.None? {
        return Err(NotFound);
      }
      if project.value.status != Active {
        return Err(ProjectMaintenance);
      }
      var actual := project.value.generation;
      if generation != actual {
        return Err(GenerationMismatch(generation, actual));
      }
      if after < 0 || after > changeSeq {
        return Err(NotFound);
      }
      var log := ReadLog();
      hide Rows;
      var fetched := Rows(log, after, if after + limit + 1 <= |log| then after + limit + 1 else |log|);
      var hasMore := |fetched| > limit;
      if hasMore {
        fetched := fetched[..|fetched| - 1];
      }
      var next := after;
      if fetched != [] {
        next := fetched[|fetched| - 1].sequence;
      }
      return Ok(PullReply(actual, Page(fetched, hasMore), next));
    }

    /** `prepare_bootstrap_manifest`: the rows ranked first, in the order of the query. */
    method PrepareBootstrap(order: seq<ObjectId>) returns (r: Result<Manifest, Error>)
      requires Valid() && Logged(Contents().t) && Lists(order, Latest(Entries(Contents().t)).Keys)
      ensures r == PrepareManifest(Contents(), order)
    {
      hide DbOk, Logged;
      if project.None? {
        return Err(NotFound);
      }
      if project.value.status != Active {
        return Err(ProjectMaintenance);
      }
      var log := ReadLog();
      return Ok(Manifest(project.value.generation, changeSeq, InOrder(Latest(log), order), 0));
    }

    /** `record_bootstrap_manifest`. */
    method RecordBootstrap(id: Uuid, m: Manifest) returns (r: Result<(), Error>)
      modifies this`manifests
      ensures (Contents(), r) == RecordManifest(old(Contents()), id, m)
    {
      if project.None? {
        return Err(Error.Database);
      }
      if id in manifests {
        return Err(Conflict);
      }
      manifests := manifests[id := m.(expiresAt := now + MANIFEST_LIFETIME)];
      return Ok(());
    }

    /** `bootstrap_manifest_page`. */
    method BootstrapPage(device: Uuid, id: Uuid, offset: int, limit: int) returns (r: Result<BootstrapReply, Error>)
      requires Valid()
      modifies this`completions
      ensures Valid()
      ensures (Contents(), r) == ManifestPageTx(old(Contents()), device, id, offset, limit)
    {
      hide DbOk, Step;
      ManifestPageKeeps(Contents(), device, id, offset, limit);
      if project.None? {
        return Err(NotFound);
      }
      if project.value.status != Active {
        return Err(ProjectMaintenance);
      }
      var actual := project.value.generation;
      if id !in manifests || manifests[id].expiresAt <= now {
        return Err(NotFound);
      }
      var m := manifests[id];
      if m.generation != actual {
        return Err(GenerationMismatch(m.generation, actual));
      }
      if m.sequence > changeSeq || offset < 0 {
        return Err(NotFound);
      }
      var pageLimit: nat := if limit < 0 then 0 else limit;
      var rest := if offset <= |m.items| then m.items[offset..] else [];
      var rows := if |rest| > pageLimit then rest[..pageLimit + 1] else rest;
      var hasMore := |rows| > pageLimit;
      if hasMore {
        rows := rows[..pageLimit];
      }
      if !hasMore {
        completions := completions[Completion(device, actual) := m.sequence];
      }
      return Ok(BootstrapReply(actual, m.sequence, Page(rows, hasMore)));
    }

    // ---- Snapshots and restore jobs ----

    /** `snapshot_manifest`. */
    method TakeSnapshot(order: seq<ObjectId>) returns (r: Result<Uuid, Error>)
      requires Valid() && Lists(order, HeadRows(Contents().t).Keys)
      modifies this`snapshots, this`nextId
      ensures Valid()
      ensures (Contents(), r) == SnapshotTx(old(Contents()), order)
    {
      hide DbOk, Step;
      SnapshotKeeps(Contents(), order);
      if project.None? {
        return Err(NotFound);
      }
      if project.value.status != Active {
        return Err(ProjectMaintenance);
      }
      var rows := InOrder(HeadRows(Tables(changeSeq, revisions, changeLog, heads)), order);
      var id := nextId;
      nextId := nextId + 1;
      snapshots := snapshots[id := Snapshot(project.value.generation, changeSeq, rows, Pending, now)];
      return Ok(id);
    }

    /** `record_snapshot`. */
    method RecordSnapshot(id: Uuid) returns (r: Result<(), Error>)
      requires Valid()
      modifies this`snapshots
      ensures Valid()
      ensures (Contents(), r) == RecordSnapshotTx(old(Contents()), id)
    {
      hide DbOk, Step;
      RecordSnapshotKeeps(Contents(), id);
      if project.None? || project.value.status == Disabled || project.value.status == Deleting
        || id !in snapshots || snapshots[id].status != Pending
      {
        return Err(NotFound);
      }
      snapshots := snapshots[id := snapshots[id].(status := Ready)];
      return Ok(());
    }

    /** `expire_pending_snapshots`. */
    method ExpirePendingSnapshots(olderThan: Time)
      requires Valid()
      modifies this`snapshots
      ensures Valid()
      ensures Contents() == ExpireSnapshotsTx(old(Contents()), olderThan)
    {
      hide DbOk, Step;
      ExpireSnapshotsKeeps(Contents(), olderThan);
      snapshots := map id | id in snapshots ::
        if snapshots[id].status == Pending && snapshots[id].createdAt < olderThan
        then snapshots[id].(status := Stale) else snapshots[id];
    }

    /** `enqueue_restore`. */
    method EnqueueRestore(target: Target) returns (r: Result<Uuid, Error>)
      requires Valid()
      modifies this`jobs, this`nextId
      ensures Valid()
      ensures (Contents(), r) == EnqueueTx(old(Contents()), target)
    {
      hide DbOk, Step;
      EnqueueKeeps(Contents(), target);
      if target.SequenceTarget? && target.sequence < 0 {
        return Err(InvalidRestoreTarget);
      }
      if project.None? {
        return Err(NotFound);
      }
      if project.value.status != Active {
        return Err(ProjectMaintenance);
      }
      if exists id :: id in jobs && ActiveJob(jobs[id]) {
        return Err(Conflict);
      }
      if target.SequenceTarget? && target.sequence > changeSeq {
        return Err(InvalidRestoreTarget);
      }
      r := Insert(target);
    }

    /** `admin_enqueue_restore`. */
    method AdminEnqueueRestore(target: Target) returns (r: Result<Uuid, Error>)
      requires Valid()
      modifies this`jobs, this`nextId
      ensures Valid()
      ensures (Contents(), r) == AdminEnqueueTx(old(Contents()), target)
    {
      hide DbOk, Step;
      EnqueueKeeps(Contents(), target);
      if target.SequenceTarget? && target.sequence < 0 {
        return Err(InvalidRestoreTarget);
      }
      if project.None? {
        return Err(NotFound);
      }
      if project.value.status != Active || (target.SequenceTarget? && target.sequence > changeSeq) {
        return Err(InvalidRestoreTarget);
      }
      if exists id :: id in jobs && ActiveJob(jobs[id]) {
        return Err(Conflict);
      }
      r := Insert(target);
    }

    /** The common end of both: check the snapshot and insert the job. */
    method Insert(target: Target) returns (r: Result<Uuid, Error>)
      modifies this`jobs, this`nextId
      ensures (Contents(), r) == InsertJob(old(Contents()), target)
    {
      if target.SnapshotTarget? && !(target.snapshot in snapshots && snapshots[target.snapshot].status == Ready) {
        return Err(NotFound);
      }
      var id := nextId;
      nextId := nextId + 1;
      jobs := jobs[id := NewJob(target, now)];
      return Ok(id);
    }

    /** `cancel_restore`. */
    method CancelRestore(job: Uuid) returns (r: Result<(), Error>)
      requires Valid()
      modifies this`jobs
      ensures Valid()
      ensures (Contents(), r) == CancelTx(old(Contents()), job)
    {
      hide DbOk, Step;
      CancelKeeps(Contents(), job);
      if job !in jobs {
        return Err(NotFound);
      }
      match jobs[job].status
      case Queued => jobs := jobs[job := jobs[job].(status := Cancelled)]; return Ok(());
      case Running => jobs := jobs[job := jobs[job].(cancelRequested := true)]; return Ok(());
      case _ => return Err(Conflict);
    }

    /** The condition of the claim query. */
    predicate Due(j: Job)
      reads this`now
    {
      (j.status == Queued && j.runAfter <= now) || (j.status == Running && j.leaseExpires < now)
    }

    /** `claim_restore_job`, among the rows of this project: nothing, or the one row it can select. */
    method ClaimRestoreJob() returns (selected: Option<Uuid>, r: Result<Uuid, Error>)
      requires Valid()
      modifies this`project, this`jobs, this`nextId
      ensures Valid()
      ensures selected.None? ==> Contents() == old(Contents()) && forall job :: !Claimable(old(Contents()), job)
      ensures selected.Some? ==>
        && Claimable(old(Contents()), selected.value)
        && (forall job :: Claimable(old(Contents()), job) ==> job == selected.value)
        && (Contents(), r) == ClaimTx(old(Contents()), selected.value)
    {
      hide DbOk, Step;
      ghost var before := Contents();
      if !exists id :: id in jobs && Due(jobs[id]) {
        return None, Err(NotFound);
      }
      var job :| job in jobs && Due(jobs[job]);
      forall other | Claimable(before, other) ensures other == job {
        OneClaimable(before, job, other);
      }
      r := Claim(job);
      selected := Some(job);
    }

    /** The statements of a claim that follow the selection of its row. */
    method Claim(job: Uuid) returns (r: Result<Uuid, Error>)
      requires Valid() && Claimable(Contents(), job)
      modifies this`project, this`jobs, this`nextId
      ensures Valid()
      ensures (Contents(), r) == ClaimTx(old(Contents()), job)
    {
      hide DbOk, Step;
      ClaimKeeps(Contents(), job);
      var j := jobs[job];
      var generation := EnterMaintenance(j);
      if generation.None? {
        jobs := jobs[job := j.(status := Failed)];
        return Err(ProjectMaintenance);
      }
      var token := nextId;
      nextId := nextId + 1;
      var first := if j.generationBefore.Some? then j.generationBefore else generation;
      var claimed := j.(status := Running, generationBefore := first, lease := Some(token), leaseExpires := now + LEASE_SECONDS);
      jobs := jobs[job := claimed];
      return Ok(token);
    }

    /** A queued job moves an active project into maintenance; an expired lease needs it there. */
    method EnterMaintenance(j: Job) returns (generation: Option<int>)
      modifies this`project
      ensures generation.Some? <==> ClaimAllowed(old(Contents()), j)
      ensures generation.Some? ==>
        old(project).Some? && generation == Some(old(project).value.generation) && project == Some(Project(Maintenance, generation.value))
      ensures generation.None? ==> project == old(project)
    {
      generation := None;
      if j.status == Queued {
        if project.Some? && (project.value.status == Active || project.value.status == Maintenance) {
          project := Some(project.value.(status := Maintenance));
          generation := Some(project.value.generation);
        }
      } else if project.Some? && project.value.status == Maintenance {
        generation := Some(project.value.generation);
      }
    }

    /** `create_pre_restore_snapshot`. */
    method CreatePreRestoreSnapshot(job: Uuid, token: Uuid, order: seq<ObjectId>) returns (r: Result<Uuid, Error>)
      requires Valid() && Lists(order, HeadRows(Contents().t).Keys)
      modifies this`snapshots, this`jobs, this`nextId
      ensures Valid()
      ensures (Contents(), r) == CreatePreSnapshotTx(old(Contents()), job, token, order)
    {
      hide DbOk, Step;
      CreatePreSnapshotKeeps(Contents(), job, token, order);
      if job !in jobs || jobs[job].status != Running || jobs[job].lease != Some(token) || project.None? {
        return Err(NotFound);
      }
      if jobs[job].cancelRequested {
        return Err(RestoreCancelled);
      }
      var rows := InOrder(HeadRows(Tables(changeSeq, revisions, changeLog, heads)), order);
      var id := nextId;
      nextId := nextId + 1;
      snapshots := snapshots[id := Snapshot(project.value.generation, changeSeq, rows, Pending, now)];
      jobs := jobs[job := jobs[job].(preSnapshot := Some(id))];
      return Ok(id);
    }

    /** `mark_snapshot_ready_for_job`; it does not report whether a row was updated. */
    method MarkSnapshotReady(job: Uuid, token: Uuid, id: Uuid)
      requires Valid()
      modifies this`snapshots
      ensures Valid()
      ensures Contents() == MarkSnapshotReadyTx(old(Contents()), job, token, id)
    {
      hide DbOk, Step;
      MarkReadyKeeps(Contents(), job, token, id);
      if id in snapshots && snapshots[id].status == Pending
        && job in jobs && jobs[job].lease == Some(token) && jobs[job].status == Running
      {
        snapshots := snapshots[id := snapshots[id].(status := Ready)];
      }
    }

    /** `renew_restore_lease`. */
    method RenewLease(job: Uuid, token: Uuid) returns (r: Result<(), Error>)
      requires Valid()
      modifies this`jobs
      ensures Valid()
      ensures (Contents(), r) == RenewLeaseTx(old(Contents()), job, token)
    {
      hide DbOk, Step;
      RenewKeeps(Contents(), job, token);
      var updated := 0;
      if job in jobs && jobs[job].status == Running && jobs[job].lease == Some(token) {
        jobs := jobs[job := jobs[job].(leaseExpires := now + LEASE_SECONDS)];
        updated := 1;
      }
      if updated != 1 {
        return Err(Conflict);
      }
      return Ok(());
    }

    /** `cancel_restore_with_lease`. */
    method CancelRestoreWithLease(job: Uuid, token: Uuid) returns (r: Result<(), Error>)
      requires Valid()
      modifies this`jobs, this`project
      ensures Valid()
      ensures (Contents(), r) == CancelWithLeaseTx(old(Contents()), job, token)
    {
      hide DbOk, Step;
      CancelWithLeaseKeeps(Contents(), job, token);
      if job !in jobs || jobs[job].status != Running || jobs[job].lease != Some(token) {
        return Err(NotFound);
      }
      if !jobs[job].cancelRequested {
        return Err(Conflict);
      }
      jobs := jobs[job := jobs[job].(status := Cancelled, lease := None)];
      if project.Some? && project.value.status == Maintenance {
        project := Some(project.value.(status := Active));
      }
      return Ok(());
    }

    /** `retry_restore_job_with_lease`. */
    method RetryRestoreJob(job: Uuid, token: Uuid) returns (requeued: bool)
      requires Valid()
      modifies this`jobs
      ensures Valid()
      ensures (Contents(), requeued) == RetryTx(old(Contents()), job, token)
    {
      hide DbOk, Step;
      RetryKeeps(Contents(), job, token);
      requeued := false;
      if job in jobs && jobs[job].status == Running && jobs[job].lease == Some(token) {
        var attempts := jobs[job].attempts + 1;
        requeued := attempts < MAX_ATTEMPTS;
        jobs := jobs[job := jobs[job].(
          attempts := attempts,
          status := if requeued then Queued else Failed,
          runAfter := now + RETRY_SECONDS,
          lease := None)];
      }
    }

    /** `reopen_failed_restore`. */
    method ReopenFailedRestore() returns (r: Result<(), Error>)
      requires Valid()
      modifies this`project
      ensures Valid()
      ensures (Contents(), r) == ReopenTx(old(Contents()))
    {
      hide DbOk, Step;
      StatusCallsKeep(Contents());
      if project.None? {
        return Err(NotFound);
      }
      if project.value.status != Maintenance {
        return Err(RestoreNotReopenable);
      }
      if !exists id :: id in jobs && jobs[id].status == Failed {
        return Err(RestoreNotReopenable);
      }
      project := Some(project.value.(status := Active));
      return Ok(());
    }

    /** `disable_project`; it has no guard on the status it leaves. */
    method DisableProject() returns (r: Result<(), Error>)
      requires Valid()
      modifies this`project
      ensures Valid()
      ensures (Contents(), r) == DisableTx(old(Contents()))
    {
      hide DbOk, Step;
      StatusCallsKeep(Contents());
      if project.None? {
        return Err(NotFound);
      }
      project := Some(project.value.(status := Disabled));
      return Ok(());
    }

    // ---- Executing a restore ----

    /** `execute_restore_with_lease`. */
    method ExecuteRestore(job: Uuid, token: Uuid, ranked: seq<ObjectId>, order: seq<ObjectId>) returns (r: Result<(), Error>)
      requires Valid() && OrdersFit(Contents(), job, ranked, order)
      modifies this
      ensures Valid()
      ensures (Contents(), r) == ExecuteTx(old(Contents()), job, token, ranked, order)
    {
      hide DbOk, Step, RestoreItems, WithAbsent, ResolveTarget, FinishRestore, Latest, HeadRows, Logged, Upto;
      ghost var before := Contents();
      ExecuteKeeps(before, job, token, ranked, order);
      if job !in jobs || jobs[job].status != Running || jobs[job].lease != Some(token) {
        return Err(NotFound);
      }
      if jobs[job].cancelRequested {
        return Err(RestoreCancelled);
      }
      if project.None? || project.value.status != Maintenance {
        return Err(ProjectMaintenance);
      }
      var resolved := TargetItems(jobs[job].target, ranked);
      if resolved.Err? {
        return Err(resolved.error);
      }
      var target := resolved.value;
      var current := HeadRows(Tables(changeSeq, revisions, changeLog, heads));
      var items := AddAbsent(target, current, order);
      var written := WriteItems(current, items);
      if written.Err? {
        return Err(written.error);
      }
      CommitRestore(job, written.value);
      return Ok(());
    }

    /** The last statements of a restore. */
    method CommitRestore(job: Uuid, q: Progress)
      requires job in jobs && project.Some?
      modifies this
      ensures Contents() == FinishRestore(old(Contents()), job, q)
    {
      ghost var before := Contents();
      ghost var after := FinishRestore(before, job, q);
      var generation := project.value.generation + 1;
      jobs := jobs[job := jobs[job].(
        status := Succeeded,
        generationAfter := Some(generation),
        objects := q.objects,
        tombstones := q.tombstones,
        lease := None)];
      assert jobs == after.jobs;
      project := Some(Project(Active, generation));
      nextId := q.nextId;
      changeSeq, revisions, changeLog, heads := q.t.changeSeq, q.t.revisions, q.t.changeLog, q.t.heads;
      assert Tables(changeSeq, revisions, changeLog, heads) == q.t;
      hide FinishRestore;
    }

    /** The target of a restore: a ready snapshot's manifest, or the newest rows at a sequence. */
    method TargetItems(target: Target, ranked: seq<ObjectId>) returns (r: Result<seq<Item>, Error>)
      requires Logged(Contents().t)
      requires target.SequenceTarget? ==> Lists(ranked, Latest(Upto(Entries(Contents().t), target.sequence)).Keys)
      ensures r == ResolveTarget(Contents(), target, ranked)
    {
      match target
      case SnapshotTarget(id) =>
        if id !in snapshots || snapshots[id].status != Ready {
          return Err(NotFound);
        }
        return Ok(ItemsOf(snapshots[id].items));
      case SequenceTarget(n) =>
        var log := ReadLog();
        return Ok(ItemsOfLog(InOrder(Latest(Upto(log, n)), ranked)));
    }

    /** The first loop: a tombstone item for every current object the target does not mention. */
    static method AddAbsent(target: seq<Item>, current: map<ObjectId, Revision>, order: seq<ObjectId>) returns (items: seq<Item>)
      requires forall o :: o in order ==> o in current
      ensures items == WithAbsent(target, current, order)
    {
      items := target;
      for i := 0 to |order|
        invariant items == WithAbsent(target, current, order[..i])
      {
        assert Init(order[..i + 1]) == order[..i] && Last(order[..i + 1]) == order[i];
        if !Mentions(items, order[i]) {
          items := items + [AbsentItem(current[order[i]])];
        }
      }
      assert order[..|order|] == order;
    }

    /** The second loop: the writes, on the transaction's view of the tables. */
    method WriteItems(current: map<ObjectId, Revision>, items: seq<Item>) returns (r: Result<Progress, Error>)
      ensures r == RestoreItems(Progress(Contents().t, nextId, 0, 0), payloads, current, items, now)
    {
      hide RestoreItems, RowCheck, SameManifestState;
      ghost var start := Progress(Contents().t, nextId, 0, 0);
      RestoreNoItems(start, payloads, current, now);
      assert items[..0] == [];
      var sequence, stored, log, newest, id := changeSeq, revisions, changeLog, heads, nextId;
      var objects: nat, tombstones: nat := 0, 0;
      for i := 0 to |items|
        invariant RestoreItems(start, payloads, current, items[..i], now)
          == Ok(Progress(Tables(sequence, stored, log, newest), id, objects, tombstones))
      {
        var item := items[i];
        ghost var before := Progress(Tables(sequence, stored, log, newest), id, objects, tombstones);
        RestoreNextItem(start, payloads, current, items, now, i, before);
        if RestoreOne(before, payloads, current, item, now).Err? {
          RestoreFails(start, payloads, current, items, now, i + 1);
        }
        if item.obj in current && SameManifestState(current[item.obj], item) {
          continue;
        }
        var actual := if item.obj in current then current[item.obj].revision else 0;
        var payload: Option<Uuid> := None;
        if !item.tombstone {
          if item.hash.None? {
            return Err(InvalidPayload);
          }
          if item.hash.value !in payloads {
            return Err(PayloadNotFound);
          }
          payload := Some(payloads[item.hash.value].id);
        }
        sequence := sequence + 1;
        var rev := Revision(item.obj, actual + 1, if actual > 0 then Some(actual) else None, item.schema, payload, item.hash,
                            item.tombstone, now, item.device);
        if !RowCheck(rev) {
          return Err(Error.Database);
        }
        stored := stored[id := rev];
        newest := newest[item.obj := Head(actual + 1, id)];
        log := log[sequence := id];
        assert Tables(sequence, stored, log, newest) == Append(before.t, id, rev);
        id := id + 1;
        if item.tombstone {
          tombstones := tombstones + 1;
        } else {
          objects := objects + 1;
        }
      }
      assert items[..|items|] == items;
      return Ok(Progress(Tables(sequence, stored, log, newest), id, objects, tombstones));
    }

    // ---- Payload catalogue and purge ----

    /** `PayloadLock::register_payload`, as far as the catalogue is concerned. */
    method RegisterPayload(hash: Hash, size: int, essence: string) returns (r: Result<(), Error>)
      requires Valid()
      modifies this`payloads, this`nextId
      ensures Valid()
      ensures (Contents(), r) == RegisterPayloadTx(old(Contents()), hash, size, essence)
    {
      hide DbOk, Step;
      RegisterPayloadKeeps(Contents(), hash, size, essence);
      if project.None? {
        return Err(NotFound);
      }
      if project.value.status != Active {
        return Err(ProjectMaintenance);
      }
      if hash !in payloads {
        var id := nextId;
        nextId := nextId + 1;
        payloads := payloads[hash := Payload(id, size, essence, now)];
      }
      return Ok(());
    }

    /** `PayloadLock::unreferenced_payload_key` and `delete_payload_row`: the catalogue half of
      * garbage collection. */
    method CollectPayload(hash: Hash, olderThan: Time)
      requires Valid()
      modifies this`payloads
      ensures Valid()
      ensures Contents() == CollectPayloadTx(old(Contents()), hash, olderThan)
    {
      hide DbOk, Step;
      CollectPayloadKeeps(Contents(), hash, olderThan);
      if hash in payloads && payloads[hash].createdAt < olderThan
        && !exists id :: id in revisions && revisions[id].payload == Some(payloads[hash].id)
      {
        payloads := payloads - {hash};
      }
    }

    /** `enqueue_project_purge`, as far as the project is concerned. */
    method EnqueuePurge() returns (r: Result<(), Error>)
      requires Valid()
      modifies this`project
      ensures Valid()
      ensures (Contents(), r) == EnqueuePurgeTx(old(Contents()))
    {
      hide DbOk, Step;
      StatusCallsKeep(Contents());
      if project.None? {
        return Err(NotFound);
      }
      if project.value.status != Active && project.value.status != Disabled {
        return Err(Conflict);
      }
      if exists id :: id in jobs && ActiveJob(jobs[id]) {
        return Err(Conflict);
      }
      project := Some(project.value.(status := Deleting));
      return Ok(());
    }
  }

  lemma {:induction false} PushNoItems(b: Batch, payloads: Catalogue, device: Uuid)
    ensures PushBatch(b, payloads, device, []) == Ok(b)
  {
  }

  lemma {:induction false} PushNextItem(b: Batch, payloads: Catalogue, device: Uuid, items: seq<NewRevision>, i: nat, before: Batch)
    requires i < |items| && PushBatch(b, payloads, device, items[..i]) == Ok(before)
    ensures PushBatch(b, payloads, device, items[..i + 1]) == PushOne(before, payloads, device, items[i])
  {
    assert Init(items[..i + 1]) == items[..i] && Last(items[..i + 1]) == items[i];
  }

  /** An error in an earlier item is the error of the whole batch. */
  lemma {:induction false} BatchFails(b: Batch, payloads: Catalogue, device: Uuid, items: seq<NewRevision>, i: nat)
    requires i <= |items| && PushBatch(b, payloads, device, items[..i]).Err?
    ensures PushBatch(b, payloads, device, items) == PushBatch(b, payloads, device, items[..i])
  {
    if i == |items| {
      assert items[..i] == items;
    } else {
      assert Init(items)[..i] == items[..i];
      BatchFails(b, payloads, device, Init(items), i);
    }
  }

  lemma {:induction false} RestoreNoItems(p: Progress, payloads: Catalogue, current: map<ObjectId, Revision>, now: Time)
    ensures RestoreItems(p, payloads, current, [], now) == Ok(p)
  {
  }

  lemma {:induction false} RestoreNextItem(p: Progress, payloads: Catalogue, current: map<ObjectId, Revision>, items: seq<Item>,
      now: Time, i: nat, before: Progress)
    requires i < |items| && RestoreItems(p, payloads, current, items[..i], now) == Ok(before)
    ensures RestoreItems(p, payloads, current, items[..i + 1], now) == RestoreOne(before, payloads, current, items[i], now)
  {
    assert Init(items[..i + 1]) == items[..i] && Last(items[..i + 1]) == items[i];
  }

  lemma {:induction false} RestoreFails(p: Progress, payloads: Catalogue, current: map<ObjectId, Revision>, items: seq<Item>,
      now: Time, i: nat)
    requires i <= |items| && RestoreItems(p, payloads, current, items[..i], now).Err?
    ensures RestoreItems(p, payloads, current, items, now) == RestoreItems(p, payloads, current, items[..i], now)
  {
    if i == |items| {
      assert items[..i] == items;
    } else {
      assert Init(items)[..i] == items[..i];
      RestoreFails(p, payloads, current, Init(items), now, i);
    }
  }
}
