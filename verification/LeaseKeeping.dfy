/** A lease kept alive is kept: whatever everybody else does in between, its holder
    can commit. */
module LeaseKeeping {
  import opened Types
  import opened JobTables
  import opened QueueRuns
  import opened SqlTables
  import opened LeaseRuns
  import opened BatchRuns
  import opened Outcomes
  import Recovery

  predicate InHand(t: Table, id: Id, owner: string) {
    id in t.jobs && t.jobs[id].leaseOwner == Some(owner) && (t.jobs[id].state == Leased || t.jobs[id].state == Running)
  }

  /** What takes a lease away: its holder settling the job, recovery after it has run
      out, a cancellation before the job runs, a release of the worker's leases, and the
      SQLite store activating the job's batch again under another batch's key. */
  predicate Takes(t: Table, job: Job, step: Step, owner: string) {
    match step
    case Lease(id, caller, op, _) =>
      id == job.jobId && caller == owner && !op.Extend? && !op.MarkRunning? && MayCall(job, owner, op)
    case Pass(now) => job.leaseExpiresAt.Some? && job.leaseExpiresAt.value <= now
    case SweepAll(now) => job.leaseExpiresAt.Some? && job.leaseExpiresAt.value <= now
    case CancelJob(id, _) => id == job.jobId && job.state == Leased
    case SqlCancel(id, _) => id == job.jobId && job.state == Leased
    case CancelAll(batchId, _) => job.batchId == Some(batchId) && job.state == Leased
    case ReleaseAll(prefix, _) => owner != "" && prefix <= owner
    case SqlActivate(batchId, key, hash, _) => job.batchId == Some(batchId) && ReplaysAnother(t, batchId, key, hash)
    case _ => false
  }

  /** The batch's client has used the key for another batch, with this payload. */
  predicate ReplaysAnother(t: Table, batchId: Id, key: Option<string>, hash: Option<string>) {
    batchId in t.batches
    && var k := KeyOf(t.batches[batchId].clientId, key);
       k.Some? && k.value in t.batchIdemp && t.batchIdemp[k.value] != batchId && t.batchIdemp[k.value] in t.batches
       && t.batches[t.batchIdemp[k.value]].idempotencyHash == hash
  }

  /** What a step may change of a row whose lease it does not take. */
  predicate KeptBy(a: Job, b: Job, step: Step, owner: string) {
    && b.leaseOwner == Some(owner) && b.attemptCount == a.attemptCount && b.resolvedModel == a.resolvedModel
    && SameIdentity(a, b)
    && b.state == (if step.Lease? && step.id == a.jobId && step.owner == owner && step.op.MarkRunning? then Running
                   else a.state)
    && (a.leaseExpiresAt != b.leaseExpiresAt ==>
          step.Lease? && step.id == a.jobId && step.owner == owner && (step.op.Extend? || step.op.MarkRunning?)
          && b.leaseExpiresAt == Some(step.op.leaseUntil))
  }

  lemma OthersKeepLease(t: Table, job: Job, step: Step, owner: string)
    requires JobOk(job) && job.leaseOwner == Some(owner) && !Takes(t, job, step, owner)
    ensures KeptBy(job, Moved(t, job, step), step, owner)
  {
    hide Recovery.Swept, Maintained, Activates, SqlActivates, ReplaysAnother;
    match step
    case Pass(now) => JobAfterPass(job, now);
    case SweepAll(now) => JobAfterSweep(job, now);
    case _ =>
  }

  lemma TakenIsLost(t: Table, job: Job, step: Step, owner: string)
    requires JobOk(job) && job.leaseOwner == Some(owner) && Takes(t, job, step, owner) && !step.SqlActivate?
    ensures Moved(t, job, step).leaseOwner.None?
  {
    hide Recovery.Swept, Maintained, Activates, SqlActivates, ReplaysAnother;
    match step
    case Pass(now) => JobAfterPass(job, now);
    case SweepAll(now) => JobAfterSweep(job, now);
    case _ =>
  }

  lemma ReplayDropsRows(t: Table, batchId: Id, key: Option<string>, hash: Option<string>, now: int, id: Id)
    requires TableOk(t) && ReplaysAnother(t, batchId, key, hash) && id in t.jobs && t.jobs[id].batchId == Some(batchId)
    ensures id !in ActivateSql(t, batchId, key, hash, now).0.jobs
  {
  }

  /** For any step of anybody: the holder of a lease has it afterwards if and only if the
      step is not one that takes it. */
  lemma LeaseEndsExactlyWhen(w: World, limits: Limits, step: Step, id: Id, owner: string)
    requires WorldOk(w) && Enabled(w, step) && InHand(w.table, id, owner)
    ensures InHand(Do(w, limits, step).table, id, owner) <==> !Takes(w.table, w.table.jobs[id], step, owner)
    ensures InHand(Do(w, limits, step).table, id, owner) ==>
      KeptBy(w.table.jobs[id], Do(w, limits, step).table.jobs[id], step, owner)
  {
    hide Do, Enabled, TableOk, Moved, Takes, ActivateSql, ReplaysAnother, KeptBy;
    var job := w.table.jobs[id];
    IdsMatch(w.table, id);
    if Takes(w.table, job, step, owner) {
      if step.SqlActivate? {
        SqlActivationTakes(w, limits, step, id, owner);
      } else if id in Do(w, limits, step).table.jobs {
        StepMovesJob(w, limits, step, id);
        TakenIsLost(w.table, job, step, owner);
      }
    } else {
      TakesActivation(w.table, job, step, owner);
      LeasedStaysThere(w, limits, step, id);
      StepMovesJob(w, limits, step, id);
      OthersKeepLease(w.table, job, step, owner);
      KeptIsInHand(job, Do(w, limits, step).table.jobs[id], step, owner);
    }
  }

  lemma SqlActivationTakes(w: World, limits: Limits, step: Step, id: Id, owner: string)
    requires WorldOk(w) && Enabled(w, step) && step.SqlActivate? && id in w.table.jobs
    requires Takes(w.table, w.table.jobs[id], step, owner)
    ensures id !in Do(w, limits, step).table.jobs
  {
    hide TableOk, ActivateSql, ReplaysAnother;
    ReplayDropsRows(w.table, step.batchId, step.key, step.hash, step.now, id);
  }

  lemma KeptIsInHand(a: Job, b: Job, step: Step, owner: string)
    requires KeptBy(a, b, step, owner) && Held(a.state)
    ensures Held(b.state) && b.leaseOwner == Some(owner)
  {
  }

  lemma LeasedStaysThere(w: World, limits: Limits, step: Step, id: Id)
    requires WorldOk(w) && Enabled(w, step) && id in w.table.jobs && Held(w.table.jobs[id].state)
    requires step.SqlActivate? ==>
      w.table.jobs[id].batchId != Some(step.batchId) || !ReplaysAnother(w.table, step.batchId, step.key, step.hash)
    ensures id in Do(w, limits, step).table.jobs
  {
    RowOk(w.table, id);
    if step.Stage? || step.SqlStage? {
      StagingKeepsRows(w, limits, step, id);
    } else if step.Activate? || step.SqlActivate? {
      LeasedOutlastsActivation(w, limits, step, id);
    } else {
      LeasedOutlastsOthers(w, limits, step, id);
    }
  }

  lemma LeasedOutlastsActivation(w: World, limits: Limits, step: Step, id: Id)
    requires WorldOk(w) && Enabled(w, step) && id in w.table.jobs && Held(w.table.jobs[id].state)
    requires FitsBatch(w.table.batches, w.table.jobs[id]) && (step.Activate? || step.SqlActivate?)
    requires step.SqlActivate? ==>
      w.table.jobs[id].batchId != Some(step.batchId) || !ReplaysAnother(w.table, step.batchId, step.key, step.hash)
    ensures id in Do(w, limits, step).table.jobs
  {
    hide JobsOk, IdempExact, BlankTaken, ActivatedJob;
  }

  lemma LeasedOutlastsOthers(w: World, limits: Limits, step: Step, id: Id)
    requires WorldOk(w) && Enabled(w, step) && id in w.table.jobs && Held(w.table.jobs[id].state)
    requires FitsBatch(w.table.batches, w.table.jobs[id])
    requires !(step.Stage? || step.SqlStage? || step.Activate? || step.SqlActivate?)
    ensures id in Do(w, limits, step).table.jobs
  {
    hide JobsOk, IdempExact, Maintained, Recovery.Swept, CancelInBatch, ReleasedByPrefix, CancelRow, Capacity, NewJob;
  }

  /** However long the run, as long as nothing takes the lease its holder can start the
      job or, once it runs, commit a result. */
  lemma {:induction false} KeptLeaseCommits(ws: seq<World>, steps: seq<Step>, limits: Limits, i: nat, k: nat, id: Id,
                                            owner: string, result: string, leaseUntil: int, now: int)
    requires IsRun(ws, steps, limits) && i <= k <= |steps| && InHand(ws[i].table, id, owner)
    requires forall m :: i <= m < k && InHand(ws[m].table, id, owner) ==>
      !Takes(ws[m].table, ws[m].table.jobs[id], steps[m], owner)
    ensures InHand(ws[k].table, id, owner)
    ensures var a, b := ws[i].table.jobs[id], ws[k].table.jobs[id];
      SameIdentity(a, b) && b.attemptCount == a.attemptCount && b.resolvedModel == a.resolvedModel
      && (a.state == Running ==> b.state == Running)
    ensures ws[k].table.jobs[id].state == Leased ==>
      ApplyLease(ws[k].table, id, owner, LeaseOp.MarkRunning(leaseUntil), now).1
    ensures ws[k].table.jobs[id].state == Running ==>
      var (u, ok) := ApplyLease(ws[k].table, id, owner, LeaseOp.Complete(result), now);
      ok && u.jobs[id].state == Succeeded && u.jobs[id].result == Some(result)
    decreases k
  {
    hide Do, Enabled, TableOk, Takes;
    if i < k {
      KeptLeaseCommits(ws, steps, limits, i, k - 1, id, owner, result, leaseUntil, now);
      LeaseEndsExactlyWhen(ws[k - 1], limits, steps[k - 1], id, owner);
    } else {
      SameJob(ws[i].table.jobs[id]);
    }
    CallInFields(ws[k].table, id, owner, LeaseOp.Complete(result), now);
    CallInFields(ws[k].table, id, owner, LeaseOp.MarkRunning(leaseUntil), now);
  }

  lemma TakesActivation(t: Table, job: Job, step: Step, owner: string)
    requires !Takes(t, job, step, owner)
    ensures step.SqlActivate? ==>
      job.batchId != Some(step.batchId) || !ReplaysAnother(t, step.batchId, step.key, step.hash)
  {
  }
}
