/** When the requests about restores, snapshots, payloads and the project itself are accepted, what
  * each refusal is, and which rows an accepted one writes.  The conditions are on rows alone.
  */
module JobAnswers {
  import opened Basics
  import opened ChangeLog
  import opened Push
  import opened Replica
  import opened RestoreLoop
  import opened Transactions
  import opened Invariants

  predicate IsActive(s: State) {
    s.project.Some? && s.project.value.status == Active
  }

  predicate InMaintenance(s: State) {
    s.project.Some? && s.project.value.status == Maintenance
  }

  /** No restore is queued or running. */
  predicate NoRestore(s: State) {
    forall id :: id in s.jobs ==> s.jobs[id].status != Queued && s.jobs[id].status != Running
  }

  predicate TargetExists(s: State, target: Target) {
    match target
    case SnapshotTarget(x) => x in s.snapshots && s.snapshots[x].status == Ready
    case SequenceTarget(n) => 0 <= n <= s.t.changeSeq
  }

  // ---- Requesting a restore ----

  /** The state after a restore was requested: one new queued job, due at once, and nothing else. */
  function Requested(s: State, target: Target): State {
    s.(nextId := s.nextId + 1,
       jobs := s.jobs[s.nextId := Job(target, Queued, None, None, None, 0, 0, 0, s.now, None, 0, false)])
  }

  /** A user's and an administrator's request are accepted in exactly the same states, those of an
    * active project without another restore and with an existing target, and with the same effect. */
  lemma {:induction false} RestoreIsAcceptedExactly(s: State, target: Target)
    ensures var a, b := EnqueueTx(s, target), AdminEnqueueTx(s, target);
      && (a.1.Ok? <==> IsActive(s) && NoRestore(s) && TargetExists(s, target))
      && (b.1.Ok? <==> a.1.Ok?)
      && (a.1.Ok? ==> a == b == (Requested(s, target), Ok(s.nextId)))
      && (a.1.Err? ==> a.0 == s && b.0 == s)
  {
  }

  /** The refusals, which the two forms order differently. */
  lemma {:induction false} RestoreRefusals(s: State, target: Target)
    ensures var a, b := EnqueueTx(s, target).1, AdminEnqueueTx(s, target).1;
      && (target.SequenceTarget? && target.sequence < 0 ==> a == b == Err(InvalidRestoreTarget))
      && (!(target.SequenceTarget? && target.sequence < 0) ==>
        && (s.project.None? ==> a == b == Err(NotFound))
        && (s.project.Some? && !IsActive(s) ==> a == Err(ProjectMaintenance) && b == Err(InvalidRestoreTarget))
        && (IsActive(s) && target.SequenceTarget? && target.sequence > s.t.changeSeq ==>
              a == Err(if NoRestore(s) then InvalidRestoreTarget else Conflict) && b == Err(InvalidRestoreTarget))
        && (IsActive(s) && !NoRestore(s) && TargetExists(s, target) ==> a == b == Err(Conflict))
        && (IsActive(s) && target.SnapshotTarget? && !TargetExists(s, target) ==>
              a == b == Err(if NoRestore(s) then NotFound else Conflict)))
  {
  }

  /** A cancellation ends a queued job, marks a running one, and is refused for every other. */
  lemma {:induction false} CancelIsAcceptedExactly(s: State, job: Uuid)
    ensures var r := CancelTx(s, job);
      && (job !in s.jobs ==> r == (s, Err(NotFound)))
      && (job in s.jobs && s.jobs[job].status == Queued ==>
            r == (s.(jobs := s.jobs[job := s.jobs[job].(status := Cancelled)]), Ok(())))
      && (job in s.jobs && s.jobs[job].status == Running ==>
            r == (s.(jobs := s.jobs[job := s.jobs[job].(cancelRequested := true)]), Ok(())))
      && (job in s.jobs && s.jobs[job].status in {Succeeded, Failed, Cancelled} ==> r == (s, Err(Conflict)))
  {
  }

  // ---- Claiming ----

  /** A due job is claimed exactly when its project is in maintenance, or the job is queued and the
    * project active; the claim enters maintenance, and any other due job fails. */
  lemma {:induction false} ClaimIsAcceptedExactly(s: State, job: Uuid)
    requires Claimable(s, job)
    ensures var r := ClaimTx(s, job);
      && job in s.jobs && job in r.0.jobs
      && (r.1.Ok? <==> InMaintenance(s) || (IsActive(s) && s.jobs[job].status == Queued))
      && (r.1.Ok? ==>
            && r.0.project == Some(Project(Maintenance, s.project.value.generation))
            && r.1.value == s.nextId
            && r.0.jobs[job] == s.jobs[job].(
                 status := Running, lease := Some(s.nextId), leaseExpires := s.now + 300,
                 generationBefore :=
                   if s.jobs[job].generationBefore.Some? then s.jobs[job].generationBefore else Some(s.project.value.generation)))
      && (r.1.Err? ==>
            r.1 == Err(ProjectMaintenance) && r.0 == s.(jobs := s.jobs[job := s.jobs[job].(status := Failed)]))
      && r.0.t == s.t && r.0.payloads == s.payloads && r.0.snapshots == s.snapshots
      && (forall other :: other in s.jobs && other != job ==> other in r.0.jobs && r.0.jobs[other] == s.jobs[other])
  {
  }

  /** A queued job is due from the time it waits for on, a running one once its lease has run out. */
  lemma {:induction false} DueExactly(s: State, job: Uuid)
    ensures Claimable(s, job) <==>
      job in s.jobs && match s.jobs[job].status
        case Queued => s.jobs[job].runAfter <= s.now
        case Running => s.jobs[job].leaseExpires < s.now
        case _ => false
  {
  }

  // ---- Under a lease ----

  /** A worker whose token is not the job's lease is refused by every call, or not answered at all by
    * the marking, and no call of it writes anything. */
  lemma {:induction false} StrangersAreRefused(s: State, job: Uuid, token: Uuid, x: Uuid, ranked: seq<ObjectId>, order: seq<ObjectId>)
    requires OrdersFit(s, job, ranked, order)
    requires !(job in s.jobs && s.jobs[job].status == Running && s.jobs[job].lease == Some(token))
    ensures CreatePreSnapshotTx(s, job, token, order) == (s, Err(NotFound))
    ensures RenewLeaseTx(s, job, token) == (s, Err(Conflict))
    ensures MarkSnapshotReadyTx(s, job, token, x) == s
    ensures CancelWithLeaseTx(s, job, token) == (s, Err(NotFound))
    ensures RetryTx(s, job, token) == (s, false)
    ensures ExecuteTx(s, job, token, ranked, order) == (s, Err(NotFound))
  {
    hide Lists, HeadRows, Latest, Upto;
  }

  /** What the holder of the lease is answered. */
  lemma {:induction false} HolderIsAnswered(s: State, job: Uuid, token: Uuid, x: Uuid, ranked: seq<ObjectId>, order: seq<ObjectId>)
    requires OrdersFit(s, job, ranked, order) && s.project.Some?
    requires job in s.jobs && s.jobs[job].status == Running && s.jobs[job].lease == Some(token)
    ensures RenewLeaseTx(s, job, token) == (s.(jobs := s.jobs[job := s.jobs[job].(leaseExpires := s.now + 300)]), Ok(()))
    ensures RetryTx(s, job, token).1 <==> s.jobs[job].attempts < 2
    ensures s.jobs[job].cancelRequested ==>
      && CreatePreSnapshotTx(s, job, token, order) == (s, Err(RestoreCancelled))
      && ExecuteTx(s, job, token, ranked, order) == (s, Err(RestoreCancelled))
      && CancelWithLeaseTx(s, job, token).1.Ok?
    ensures !s.jobs[job].cancelRequested ==>
      && CancelWithLeaseTx(s, job, token) == (s, Err(Conflict))
      && (s.project.value.status != Maintenance ==> ExecuteTx(s, job, token, ranked, order) == (s, Err(ProjectMaintenance)))
      && var u := CreatePreSnapshotTx(s, job, token, order);
         && u.1 == Ok(s.nextId)
         && u.0 == s.(nextId := s.nextId + 1, snapshots := u.0.snapshots,
                      jobs := s.jobs[job := s.jobs[job].(preSnapshot := Some(s.nextId))])
         && u.0.snapshots == s.snapshots[s.nextId := u.0.snapshots[s.nextId]]
         && var y := u.0.snapshots[s.nextId];
            y.status == Pending && y.createdAt == s.now && y.sequence == s.t.changeSeq && y.generation == s.project.value.generation
    ensures MarkSnapshotReadyTx(s, job, token, x) ==
      if x in s.snapshots && s.snapshots[x].status == Pending
      then s.(snapshots := s.snapshots[x := s.snapshots[x].(status := Ready)]) else s
  {
    hide Lists, HeadRows, Latest, Upto, InOrder, RestoreItems, ResolveTarget, WithAbsent;
  }

  // ---- The project ----

  /** Reopening needs maintenance and some failed restore; disabling needs nothing; a purge needs an
    * active or disabled project without a restore. */
  lemma {:induction false} ProjectRequestsExactly(s: State)
    ensures (ReopenTx(s).1.Ok? <==> InMaintenance(s) && exists id :: id in s.jobs && s.jobs[id].status == Failed)
      && (ReopenTx(s).1.Ok? ==> ReopenTx(s).0 == s.(project := Some(Project(Active, s.project.value.generation))))
      && (ReopenTx(s).1.Err? ==> ReopenTx(s) == (s, Err(if s.project.None? then NotFound else RestoreNotReopenable)))
    ensures s.project.None? ==> DisableTx(s) == (s, Err(NotFound))
    ensures s.project.Some? ==> DisableTx(s) == (s.(project := Some(Project(Disabled, s.project.value.generation))), Ok(()))
    ensures var r := EnqueuePurgeTx(s);
      && (r.1.Ok? <==> s.project.Some? && s.project.value.status in {Active, Disabled} && NoRestore(s))
      && (r.1.Ok? ==> r.0 == s.(project := Some(Project(Deleting, s.project.value.generation))))
      && (r.1.Err? ==> r == (s, Err(if s.project.None? then NotFound else Conflict)))
    ensures var r := EnqueueAccountPurgeTx(s);
      && (r.1.Ok? <==> NoRestore(s))
      && (r.1.Ok? && s.project.Some? ==> r.0 == s.(project := Some(Project(Deleting, s.project.value.generation))))
      && (r.1.Err? || s.project.None? ==> r.0 == s)
  {
  }

  // ---- Snapshots ----

  /** A snapshot is taken exactly of an active project: pending, of the present generation, sequence
    * and heads. */
  lemma {:induction false} SnapshotIsTakenExactly(s: State, order: seq<ObjectId>)
    requires DbOk(s) && Lists(order, HeadRows(s.t).Keys)
    ensures Logged(s.t) && forall o :: o in order ==> o in HeadRows(s.t)
    ensures var r := SnapshotTx(s, order);
      && (r.1.Ok? <==> IsActive(s))
      && (r.1.Err? ==> r == (s, Err(if s.project.None? then NotFound else ProjectMaintenance)))
      && (r.1.Ok? ==>
            && r.1.value == s.nextId && r.0 == s.(nextId := s.nextId + 1, snapshots := r.0.snapshots)
            && r.0.snapshots == s.snapshots[s.nextId := r.0.snapshots[s.nextId]]
            && var x := r.0.snapshots[s.nextId];
               && x.status == Pending && x.createdAt == s.now && x.sequence == s.t.changeSeq
               && x.generation == s.project.value.generation && ListsRows(x.items, Latest(Entries(s.t))))
  {
    hide ListsRows, Latest, Linear, HeadsAreLatest, Closed, JobsOk, SnapshotsOk, TargetsOk, BootstrapOk, GenerationOk, IdsBelow;
    HeadRowsListed(s.t, order);
  }

  /** Recording settles a pending snapshot of a project that is active or in maintenance; expiry ends
    * the pending snapshots taken before a time, and no others. */
  lemma {:induction false} SnapshotsSettleExactly(s: State, x: Uuid, olderThan: Time)
    ensures var r := RecordSnapshotTx(s, x);
      && (r.1.Ok? <==>
            (s.project.Some? && s.project.value.status in {Active, Maintenance} && x in s.snapshots && s.snapshots[x].status == Pending))
      && (r.1.Ok? ==> r.0 == s.(snapshots := s.snapshots[x := s.snapshots[x].(status := Ready)]))
      && (r.1.Err? ==> r == (s, Err(NotFound)))
    ensures var u := ExpireSnapshotsTx(s, olderThan);
      && u == s.(snapshots := u.snapshots) && u.snapshots.Keys == s.snapshots.Keys
      && (forall id :: id in s.snapshots ==>
            u.snapshots[id] ==
              if s.snapshots[id].status == Pending && s.snapshots[id].createdAt < olderThan
              then s.snapshots[id].(status := Stale) else s.snapshots[id])
  {
  }

  // ---- Payloads and expiry ----

  /** Registering adds one row of an active project unless the content is there; collection removes
    * exactly a row that is old and that no revision uses. */
  lemma {:induction false} CatalogueChangesExactly(s: State, hash: Hash, size: int, essence: string, olderThan: Time)
    ensures var r := RegisterPayloadTx(s, hash, size, essence);
      && (r.1.Ok? <==> IsActive(s))
      && (r.1.Err? ==> r == (s, Err(if s.project.None? then NotFound else ProjectMaintenance)))
      && (r.1.Ok? && hash in s.payloads ==> r.0 == s)
      && (r.1.Ok? && hash !in s.payloads ==>
            r.0 == s.(nextId := s.nextId + 1, payloads := s.payloads[hash := Payload(s.nextId, size, essence, s.now)]))
    ensures var u := CollectPayloadTx(s, hash, olderThan);
      && u == s.(payloads := u.payloads) && u.payloads == (if hash in u.payloads then s.payloads else s.payloads - {hash})
      && (hash in s.payloads && hash !in u.payloads <==>
            hash in s.payloads && s.payloads[hash].createdAt < olderThan
            && forall id :: id in s.t.revisions ==> s.t.revisions[id].payload != Some(s.payloads[hash].id))
  {
  }

  /** Expiry removes exactly the reached rows whose time has come. */
  lemma {:induction false} ExpiryRemovesExactly(s: State, keys: set<RequestKey>, manifests: set<Uuid>)
    ensures var u := ExpireRecordsTx(s, keys);
      && u == s.(records := u.records)
      && (forall k :: k in u.records <==> k in s.records && (k !in keys || s.records[k].expiresAt > s.now))
      && (forall k :: k in u.records ==> u.records[k] == s.records[k])
    ensures var u := ExpireManifestsTx(s, manifests);
      && u == s.(manifests := u.manifests)
      && (forall k :: k in u.manifests <==> k in s.manifests && (k !in manifests || s.manifests[k].expiresAt > s.now))
      && (forall k :: k in u.manifests ==> u.manifests[k] == s.manifests[k])
  {
  }
}
