/** What the transitions leave of a row, said in its fields. */
module Outcomes {
  import opened Types
  import opened JobTables
  import opened TieBreak
  import Recovery

  /** The job ends here, with its attempts, model and identity as they were. */
  predicate EndsAs(a: Job, b: Job, state: JobState, now: int) {
    && b.state == state && b.finishedAt == Some(now) && b.leaseOwner.None? && b.leaseExpiresAt.None?
    && b.attemptCount == a.attemptCount && b.resolvedModel == a.resolvedModel && SameIdentity(a, b)
  }

  predicate FailsWith(a: Job, b: Job, state: JobState, error: string, now: int) {
    EndsAs(a, b, state, now) && b.error == Some(error)
  }

  /** The job is queued, under no lease. */
  predicate QueuedAgain(a: Job, b: Job) {
    && b.state == Queued && b.leaseOwner.None? && b.leaseExpiresAt.None? && b.cancelRequested == a.cancelRequested
    && b.attemptCount == a.attemptCount && b.resolvedModel == a.resolvedModel && b.notBefore == a.notBefore
    && SameIdentity(a, b)
  }

  // Recovery

  /** One pass of the in-memory store leaves a lease that still runs alone. One that ran
      out ends as a cancellation, a dead letter or a queued job, by the request to
      cancel and the attempts left. */
  predicate AfterPass(a: Job, b: Job, now: int) {
    match a.state
    case Leased | Running =>
      if a.leaseExpiresAt.None? || now < a.leaseExpiresAt.value then b == a
      else if a.cancelRequested then EndsAs(a, b, Cancelled, now)
      else if a.maxAttempts <= a.attemptCount then FailsWith(a, b, DeadLetter, "lease_expired", now)
      else QueuedAgain(a, b)
    case RetryWait =>
      if a.notBefore.None? || a.notBefore.value <= now then QueuedAgain(a, b)
      else if a.cancelRequested then EndsAs(a, b, Cancelled, now) else b == a
    case Queued =>
      if a.deadlineAt.Some? && a.deadlineAt.value <= now then FailsWith(a, b, Failed, "deadline", now)
      else if a.cancelRequested then EndsAs(a, b, Cancelled, now) else b == a
    case Staged => if a.cancelRequested then EndsAs(a, b, Cancelled, now) else b == a
    case _ => b == a
  }

  /** The sweeps of SQLite leave nothing queued that is late or to be cancelled. */
  predicate AfterSweep(a: Job, b: Job, now: int) {
    var late := a.deadlineAt.Some? && a.deadlineAt.value <= now;
    match a.state
    case Leased | Running =>
      if a.leaseExpiresAt.None? || now < a.leaseExpiresAt.value then b == a
      else if a.cancelRequested then EndsAs(a, b, Cancelled, now)
      else if a.maxAttempts <= a.attemptCount then FailsWith(a, b, DeadLetter, "lease_expired", now)
      else if late then FailsWith(a, b, Failed, "deadline", now) else QueuedAgain(a, b)
    case RetryWait =>
      if a.notBefore.Some? && now < a.notBefore.value then
        if a.cancelRequested then EndsAs(a, b, Cancelled, now) else b == a
      else if late then FailsWith(a, b, Failed, "deadline", now)
      else if a.cancelRequested then EndsAs(a, b, Cancelled, now) else QueuedAgain(a, b)
    case Queued =>
      if late then FailsWith(a, b, Failed, "deadline", now)
      else if a.cancelRequested then EndsAs(a, b, Cancelled, now) else b == a
    case Staged => if a.cancelRequested then EndsAs(a, b, Cancelled, now) else b == a
    case _ => b == a
  }

  ghost predicate EachAfterPass(before: map<Id, Job>, after: map<Id, Job>, now: int) {
    after.Keys == before.Keys && forall id :: id in before ==> AfterPass(before[id], after[id], now)
  }

  ghost predicate EachAfterSweep(before: map<Id, Job>, after: map<Id, Job>, now: int) {
    after.Keys == before.Keys && forall id :: id in before ==> AfterSweep(before[id], after[id], now)
  }

  lemma PassInFields(t: Table, now: int)
    requires JobsOk(t)
    ensures EachAfterPass(t.jobs, Maintain(t, now).jobs, now)
  {
    hide AfterPass, Maintained;
    forall id | id in t.jobs ensures AfterPass(t.jobs[id], Maintain(t, now).jobs[id], now) {
      JobAfterPass(t.jobs[id], now);
    }
  }

  lemma JobAfterPass(job: Job, now: int)
    requires JobOk(job)
    ensures AfterPass(job, Maintained(job, now), now)
  {
  }

  lemma SweepInFields(t: Table, now: int)
    requires JobsOk(t)
    ensures EachAfterSweep(t.jobs, Recovery.SweepTable(t, now).jobs, now)
  {
    hide AfterSweep, Recovery.Swept;
    forall id | id in t.jobs ensures AfterSweep(t.jobs[id], Recovery.SweepTable(t, now).jobs[id], now) {
      JobAfterSweep(t.jobs[id], now);
    }
  }

  lemma JobAfterSweep(job: Job, now: int)
    requires JobOk(job)
    ensures AfterSweep(job, Recovery.Swept(job, now), now)
  {
    hide AfterSweep, Recovery.Swept;
    if Held(job.state) {
      HeldAfterSweep(job, now);
    } else {
      IdleAfterSweep(job, now);
    }
  }

  lemma HeldAfterSweep(job: Job, now: int)
    requires JobOk(job) && Held(job.state)
    ensures AfterSweep(job, Recovery.Swept(job, now), now)
  {
  }

  lemma IdleAfterSweep(job: Job, now: int)
    requires JobOk(job) && !Held(job.state)
    ensures AfterSweep(job, Recovery.Swept(job, now), now)
  {
    if job.state == RetryWait {
      WaitingAfterSweep(job, now);
    }
  }

  lemma WaitingAfterSweep(job: Job, now: int)
    requires JobOk(job) && job.state == RetryWait
    ensures AfterSweep(job, Recovery.Swept(job, now), now)
  {
  }

  // Reports of recovery

  predicate Turned(a: Job, b: Job, state: JobState) {
    a.state != state && b.state == state
  }

  /** What a pass reports of a job is what became of it. */
  ghost predicate PassTells(a: Job, b: Job, id: Id, report: Recovery.Report) {
    && ((Recovery.Recovered, id) in report <==> Held(a.state) && b.state == Queued)
    && ((Recovery.Promoted, id) in report <==> a.state == RetryWait && b.state == Queued)
    && ((Recovery.DeadLettered, id) in report <==> Turned(a, b, DeadLetter))
    && ((Recovery.DeadlineHit, id) in report <==> Turned(a, b, Failed))
    && ((Recovery.ExpiredCancelled, id) in report <==> Turned(a, b, Cancelled))
  }

  /** The sweeps report each thing that happened to it on the way. */
  ghost predicate SweepTells(a: Job, b: Job, id: Id, now: int, report: Recovery.Report) {
    && ((Recovery.Recovered, id) in report
        <==> Held(a.state) && b.leaseOwner.None? && (b.state == Queued || b.state == Failed))
    && ((Recovery.Promoted, id) in report <==> a.state == RetryWait && (a.notBefore.Some? ==> a.notBefore.value <= now))
    && ((Recovery.DeadLettered, id) in report <==> Turned(a, b, DeadLetter))
    && ((Recovery.DeadlineHit, id) in report <==> Turned(a, b, Failed))
    && ((Recovery.ExpiredCancelled, id) in report <==> Turned(a, b, Cancelled))
  }

  ghost predicate EachToldByPass(before: map<Id, Job>, after: map<Id, Job>, report: Recovery.Report) {
    && (forall e, id :: (e, id) in report ==> id in before)
    && forall id :: id in before && id in after ==> PassTells(before[id], after[id], id, report)
  }

  ghost predicate EachToldBySweep(before: map<Id, Job>, after: map<Id, Job>, now: int, report: Recovery.Report) {
    && (forall e, id :: (e, id) in report ==> id in before)
    && forall id :: id in before && id in after ==> SweepTells(before[id], after[id], id, now, report)
  }

  lemma PassIsTold(t: Table, now: int)
    requires JobsOk(t)
    ensures EachToldByPass(t.jobs, Maintain(t, now).jobs, Recovery.PassReport(t.jobs, now))
  {
    hide Maintained, Recovery.PassEvents;
    var report := Recovery.PassReport(t.jobs, now);
    forall id | id in t.jobs ensures PassTells(t.jobs[id], Maintain(t, now).jobs[id], id, report) {
      assert forall e :: (e, id) in report <==> e in Recovery.PassEvents(t.jobs[id], now);
      JobIsTold(t.jobs[id], now);
    }
  }

  lemma JobIsTold(job: Job, now: int)
    requires JobOk(job)
    ensures PassTells(job, Maintained(job, now), job.jobId, Recovery.Tagged(Recovery.PassEvents(job, now), job.jobId))
  {
  }

  lemma SweepIsTold(t: Table, now: int)
    requires JobsOk(t)
    ensures EachToldBySweep(t.jobs, Recovery.SweepTable(t, now).jobs, now, Recovery.SweptReport(t.jobs, now))
  {
    hide Recovery.Swept, Recovery.SweptEvents;
    var report := Recovery.SweptReport(t.jobs, now);
    forall id | id in t.jobs ensures SweepTells(t.jobs[id], Recovery.SweepTable(t, now).jobs[id], id, now, report) {
      assert forall e :: (e, id) in report <==> e in Recovery.SweptEvents(t.jobs[id], now);
      JobIsToldBySweep(t.jobs[id], now);
    }
  }

  lemma JobIsToldBySweep(job: Job, now: int)
    requires JobOk(job)
    ensures SweepTells(job, Recovery.Swept(job, now), job.jobId, now,
                       Recovery.Tagged(Recovery.SweptEvents(job, now), job.jobId))
  {
    hide SweepTells, Recovery.Swept, Recovery.SweptEvents;
    if Held(job.state) {
      HeldIsTold(job, now);
    } else {
      IdleIsTold(job, now);
    }
  }

  lemma HeldIsTold(job: Job, now: int)
    requires JobOk(job) && Held(job.state)
    ensures SweepTells(job, Recovery.Swept(job, now), job.jobId, now,
                       Recovery.Tagged(Recovery.SweptEvents(job, now), job.jobId))
  {
    ExpiredEvents(job, now);
    HeldAfterSweep(job, now);
    hide Recovery.Swept, Recovery.SweptEvents;
  }

  /** A lease that ran out is reported as it ended, and once more when it ended late. */
  lemma ExpiredEvents(job: Job, now: int)
    requires JobOk(job) && Held(job.state)
    ensures var late := job.deadlineAt.Some? && job.deadlineAt.value <= now;
      Recovery.SweptEvents(job, now)
      == if now < job.leaseExpiresAt.value then {}
         else if job.cancelRequested then {Recovery.ExpiredCancelled}
         else if job.maxAttempts <= job.attemptCount then {Recovery.DeadLettered}
         else if late then {Recovery.Recovered, Recovery.DeadlineHit} else {Recovery.Recovered}
  {
  }

  lemma IdleIsTold(job: Job, now: int)
    requires JobOk(job) && !Held(job.state)
    ensures SweepTells(job, Recovery.Swept(job, now), job.jobId, now,
                       Recovery.Tagged(Recovery.SweptEvents(job, now), job.jobId))
  {
  }

  // Cancellation

  /** A job nobody is running ends at once, leased or not; one that runs is told to. */
  predicate AfterCancel(a: Job, b: Job, now: int) {
    match a.state
    case Staged | Queued | RetryWait | Leased => EndsAs(a, b, Cancelled, now) && b.cancelRequested
    case Running => b == a.(cancelRequested := true, updatedAt := b.updatedAt)
    case _ => b == a
  }

  lemma CancelInFields(job: Job, now: int)
    ensures AfterCancel(job, CancelRequest(job, now), now)
  {
  }

  // Claims

  /** Queued, not to be cancelled, of no batch or an active one, due and not late. */
  predicate MayClaim(job: Job, batches: map<Id, Batch>, now: int) {
    && job.state == Queued && !job.cancelRequested
    && (job.batchId.Some? ==> job.batchId.value in batches && batches[job.batchId.value].status == Active)
    && (job.notBefore.Some? ==> job.notBefore.value <= now)
    && (job.deadlineAt.Some? ==> now < job.deadlineAt.value)
  }

  /** Leased to the owner until then, one attempt charged, and nothing else. */
  predicate AfterClaim(a: Job, b: Job, owner: string, leaseUntil: int) {
    && b.state == Leased && b.leaseOwner == Some(owner) && b.leaseExpiresAt == Some(leaseUntil)
    && b.attemptCount == a.attemptCount + 1
    && a == b.(state := a.state, leaseOwner := a.leaseOwner, leaseExpiresAt := a.leaseExpiresAt,
               attemptCount := a.attemptCount, updatedAt := a.updatedAt)
  }

  ghost predicate ClaimedOnly(t: Table, u: Table, id: Id, owner: string, leaseUntil: int, now: int) {
    && id in t.jobs && id in u.jobs && MayClaim(t.jobs[id], t.batches, now)
    && AfterClaim(t.jobs[id], u.jobs[id], owner, leaseUntil)
    && u == t.(jobs := t.jobs[id := u.jobs[id]])
  }

  lemma ClaimInFields(t: Table, id: Id, owner: string, leaseUntil: int, now: int)
    ensures id in ClaimableIds(t, now) <==> id in t.jobs && MayClaim(t.jobs[id], t.batches, now)
    ensures var (u, ok) := Claim(t, id, owner, leaseUntil, now);
      (ok <==> id in t.jobs && MayClaim(t.jobs[id], t.batches, now))
      && (if ok then ClaimedOnly(t, u, id, owner, leaseUntil, now) else u == t)
  {
  }

  // Lease calls

  /** Which calls the holder of a lease may make: to settle or to retry, the job must be
      running. */
  predicate MayCall(job: Job, owner: string, op: LeaseOp) {
    job.leaseOwner == Some(owner)
    && match op
       case MarkRunning(_) => job.state == Leased
       case Complete(_) | Fail(_, _) | Retry(_, _, _, _) => job.state == Running
       case _ => job.state == Leased || job.state == Running
  }

  /** Still under the lease, until then. */
  predicate StillHeld(a: Job, b: Job, state: JobState, leaseUntil: int) {
    && b.state == state && b.leaseOwner == a.leaseOwner && b.leaseExpiresAt == Some(leaseUntil)
    && b.attemptCount == a.attemptCount && b.resolvedModel == a.resolvedModel && b.cancelRequested == a.cancelRequested
    && b.finishedAt == a.finishedAt && b.result == a.result && SameIdentity(a, b)
  }

  predicate AfterCall(a: Job, b: Job, op: LeaseOp, now: int) {
    match op
    case Extend(leaseUntil) => StillHeld(a, b, a.state, leaseUntil) && b.startedAt == a.startedAt
    case MarkRunning(leaseUntil) =>
      StillHeld(a, b, Running, leaseUntil) && b.startedAt == Some(if a.startedAt.Some? then a.startedAt.value else now)
    case Complete(result) => EndsAs(a, b, Succeeded, now) && b.result == Some(result) && b.error.None?
    case Fail(error, deadLetter) => FailsWith(a, b, if deadLetter then DeadLetter else Failed, error, now)
    case Retry(error, notBefore, resolved, fallback) =>
      && b.state == RetryWait && b.error == Some(error) && b.notBefore == Some(notBefore) && b.resolvedModel == resolved
      && b.fallback == fallback && b.leaseOwner.None? && b.leaseExpiresAt.None? && b.attemptCount == a.attemptCount
      && b.cancelRequested == a.cancelRequested && SameIdentity(a, b)
    case FinishCancel => EndsAs(a, b, Cancelled, now) && b.cancelRequested
    case Release(resolved, decrement) =>
      && b.state == Queued && b.leaseOwner.None? && b.leaseExpiresAt.None? && b.cancelRequested == a.cancelRequested
      && b.attemptCount == (if decrement && a.attemptCount >= 1 then a.attemptCount - 1 else if decrement then 0
                            else a.attemptCount)
      && b.resolvedModel == (if resolved.None? || resolved.value == "" then a.resolvedModel else resolved.value)
      && SameIdentity(a, b)
  }

  lemma CallInFields(t: Table, id: Id, owner: string, op: LeaseOp, now: int)
    ensures var (u, ok) := ApplyLease(t, id, owner, op, now);
      && (ok <==> id in t.jobs && MayCall(t.jobs[id], owner, op))
      && (if ok then id in u.jobs && u == t.(jobs := t.jobs[id := u.jobs[id]])
          && AfterCall(t.jobs[id], u.jobs[id], op, now)
          else u == t)
  {
  }

  // Giving back, starting over, forgetting

  predicate StartsOver(a: Job, b: Job) {
    && b.state == Queued && b.attemptCount == 0 && !b.cancelRequested && b.resolvedModel == a.resolvedModel
    && b.leaseOwner.None? && b.leaseExpiresAt.None? && b.notBefore.None? && b.startedAt.None? && b.finishedAt.None?
    && b.error.None? && b.result.None? && SameIdentity(a, b)
  }

  lemma RequeueInFields(t: Table, id: Id, now: int)
    ensures var (u, r) := Requeue(t, id, now);
      && (r.Ok? <==> id in t.jobs && (t.jobs[id].state == Failed || t.jobs[id].state == DeadLetter))
      && (r.Err? ==> u == t && r.error == if id in t.jobs then Invalid else NotFound)
      && (r.Ok? ==> StartsOver(t.jobs[id], r.value) && u == t.(jobs := t.jobs[id := r.value]))
  {
  }

  lemma ReleaseInFields(t: Table, prefix: string, now: int, id: Id)
    requires id in t.jobs && (t.jobs[id].leaseOwner == Some("") ==> prefix != "")
    ensures var a, b := t.jobs[id], ReleaseLeases(t, prefix, now).jobs[id];
      if a.leaseOwner.Some? && prefix <= a.leaseOwner.value && (a.state == Leased || a.state == Running)
      then AfterCall(a, b, LeaseOp.Release(None, true), now)
      else b == a
  {
  }

  /** A success is kept until the one bound, any other finished job until the other. */
  lemma CleanupInFields(t: Table, successBefore: int, failureBefore: int, id: Id)
    requires JobsOk(t) && id in t.jobs
    ensures var u, job := Cleanup(t, successBefore, failureBefore), t.jobs[id];
      && (id !in u.jobs <==>
            match job.state
            case Succeeded => job.finishedAt.value < successBefore
            case Failed | DeadLetter | Cancelled => job.finishedAt.value < failureBefore
            case _ => false)
      && (id in u.jobs ==> u.jobs[id] == job)
  {
  }

  // Submission

  /** Submitted under one key: by the same client, and not empty. */
  predicate SameKey(a: Job, b: Job) {
    a.clientId == b.clientId && a.idempotencyKey == b.idempotencyKey && a.idempotencyKey.Some?
    && a.idempotencyKey.value != ""
  }

  /** The jobs that have not ended, of one client or of all. */
  function Unended(jobs: map<Id, Job>, client: Option<string>): set<Id> {
    set id | id in jobs && jobs[id].state !in {Succeeded, Failed, DeadLetter, Cancelled}
      && (client.Some? ==> jobs[id].clientId == client.value)
  }

  predicate HasRoom(jobs: map<Id, Job>, limits: Limits, client: string, more: nat) {
    |Unended(jobs, None)| + more <= limits.maxQueuedJobs
      && |Unended(jobs, Some(client))| + more <= limits.maxActiveJobsPerClient
  }

  function NoRoomFor(jobs: map<Id, Job>, limits: Limits, more: nat): Failure {
    if |Unended(jobs, None)| + more > limits.maxQueuedJobs then QueueFull else ClientFull
  }

  /** A key in use is answered by its job, or refused for another payload; otherwise the
      job is stored exactly when there is room. */
  ghost predicate AfterEnqueue(t: Table, u: Table, limits: Limits, job: Job, r: Result<Receipt>) {
    && (forall id :: id in t.jobs && SameKey(t.jobs[id], job) ==>
          u == t && r == if t.jobs[id].idempotencyHash == job.idempotencyHash then Ok(Receipt(t.jobs[id], true))
                         else Err(Conflict(id)))
    && ((forall id :: id in t.jobs ==> !SameKey(t.jobs[id], job)) ==>
          if HasRoom(t.jobs, limits, job.clientId, 1)
          then u.jobs == t.jobs[job.jobId := job] && u.batches == t.batches && r == Ok(Receipt(job, false))
          else u == t && r == Err(NoRoomFor(t.jobs, limits, 1)))
  }

  lemma RoomInFields(t: Table, limits: Limits, client: string, more: nat)
    ensures Capacity(t, limits, client, more)
      == if HasRoom(t.jobs, limits, client, more) then None
         else Some(NoRoomFor(t.jobs, limits, more))
  {
    assert Unended(t.jobs, None) == set id | id in t.jobs && Incomplete(t.jobs[id].state);
    assert Unended(t.jobs, Some(client))
      == set id | id in t.jobs && t.jobs[id].clientId == client && Incomplete(t.jobs[id].state);
  }

  lemma EnqueueInFields(t: Table, limits: Limits, job: Job)
    requires TableOk(t)
    ensures var (u, r) := Enqueue(t, limits, job); AfterEnqueue(t, u, limits, job, r)
  {
    hide Capacity, HasRoom, Unended;
    ExistingIsTheHolder(t, job);
    RoomInFields(t, limits, job.clientId, 1);
    forall id | id in t.jobs
      ensures SameKey(t.jobs[id], job) <==> JobKey(job).Some? && JobKey(t.jobs[id]) == JobKey(job) {
    }
  }

  // Batches

  ghost predicate EachAfterCancel(before: map<Id, Job>, after: map<Id, Job>, batchId: Id, now: int) {
    after.Keys == before.Keys && forall id :: id in before ==>
      if before[id].batchId == Some(batchId) then AfterCancel(before[id], after[id], now) else after[id] == before[id]
  }

  lemma CancelBatchInFields(t: Table, batchId: Id, now: int)
    ensures EachAfterCancel(t.jobs, CancelBatch(t, batchId, now).jobs, batchId, now)
  {
    hide AfterCancel, CancelRequest;
    forall id | id in t.jobs ensures AfterCancel(t.jobs[id], CancelRequest(t.jobs[id], now), now) {
      CancelInFields(t.jobs[id], now);
    }
    FlaggedAlready(now);
  }

  lemma FlaggedAlready(now: int)
    ensures forall job: Job :: job.state == Running && job.cancelRequested ==> AfterCancel(job, job, now)
  {
  }
}
