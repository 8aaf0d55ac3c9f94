/** What leases, final states and the attempt budget guarantee over whole runs. */
module LeaseRuns {
  import opened Types
  import opened JobTables
  import opened QueueRuns
  import Recovery

  // Lease tokens

  predicate Lost(t: Table, id: Id, owner: string) {
    id !in t.jobs || t.jobs[id].leaseOwner != Some(owner)
  }

  predicate Claims(step: Step, id: Id, owner: string) {
    step.ClaimJob? && step.id == id && step.owner == owner
  }

  /** An operation that ends the owner's attempt. */
  predicate Settles(op: LeaseOp) {
    op.Complete? || op.Fail? || op.Retry? || op.FinishCancel? || op.Release?
  }

  /** Every claim uses an owner the job has not had before. */
  predicate FreshOwners(steps: seq<Step>) {
    forall i, k :: 0 <= i < k < |steps| && steps[i].ClaimJob? && steps[k].ClaimJob? ==>
      steps[i].id != steps[k].id || steps[i].owner != steps[k].owner
  }

  lemma OnlyClaimsGrant(t: Table, job: Job, step: Step, owner: string)
    requires job.leaseOwner != Some(owner) && !Claims(step, job.jobId, owner)
    ensures Moved(t, job, step).leaseOwner != Some(owner)
  {
    hide Recovery.Swept, Maintained, Activates, SqlActivates;
    match step
    case Pass(now) => MaintenanceGrantsNothing(job, now);
    case SweepAll(now) => SweepGrantsNothing(job, now);
    case _ =>
  }

  lemma MaintenanceGrantsNothing(job: Job, now: int)
    ensures Maintained(job, now).leaseOwner.None? || Maintained(job, now).leaseOwner == job.leaseOwner
  {
  }

  lemma SweepGrantsNothing(job: Job, now: int)
    ensures Recovery.Swept(job, now).leaseOwner.None? || Recovery.Swept(job, now).leaseOwner == job.leaseOwner
  {
  }

  lemma LostUnlessClaimed(w: World, limits: Limits, step: Step, id: Id, owner: string)
    requires WorldOk(w) && Enabled(w, step)
    requires Lost(w.table, id, owner) && !Claims(step, id, owner)
    ensures Lost(Do(w, limits, step).table, id, owner)
  {
    hide Do, Moved, JobsOk, IdempExact, BatchesOk, Enabled;
    if id in Do(w, limits, step).table.jobs {
      if id in w.table.jobs {
        StepMovesJob(w, limits, step, id);
        IdsMatch(w.table, id);
        OnlyClaimsGrant(w.table, w.table.jobs[id], step, owner);
      } else {
        JobsAppearNew(w, limits, step, id);
      }
    }
  }

  lemma IdsMatch(t: Table, id: Id)
    requires TableOk(t) && id in t.jobs
    ensures t.jobs[id].jobId == id && JobOk(t.jobs[id])
  {
  }

  lemma {:induction false} LostStays(ws: seq<World>, steps: seq<Step>, limits: Limits, i: nat, k: nat, id: Id,
                                     owner: string)
    requires IsRun(ws, steps, limits) && i <= k <= |steps|
    requires Lost(ws[i].table, id, owner) && forall m :: i <= m < k ==> !Claims(steps[m], id, owner)
    ensures Lost(ws[k].table, id, owner)
    decreases k
  {
    hide Do, Enabled, WorldOk;
    if i < k {
      LostStays(ws, steps, limits, i, k - 1, id, owner);
      LostUnlessClaimed(ws[k - 1], limits, steps[k - 1], id, owner);
    }
  }

  lemma HeldWasClaimed(ws: seq<World>, steps: seq<Step>, limits: Limits, i: nat, id: Id, owner: string)
    requires IsRun(ws, steps, limits) && i <= |steps| && !Lost(ws[i].table, id, owner)
    ensures exists m :: 0 <= m < i && Claims(steps[m], id, owner)
  {
    if forall m :: 0 <= m < i ==> !Claims(steps[m], id, owner) {
      LostStays(ws, steps, limits, 0, i, id, owner);
    }
  }

  /** A lease once lost, by settling, expiry, cancellation or release, is never
      held again by that owner. */
  lemma LostForGood(ws: seq<World>, steps: seq<Step>, limits: Limits, i: nat, j: nat, k: nat, id: Id, owner: string)
    requires IsRun(ws, steps, limits) && FreshOwners(steps) && i < j <= k <= |steps|
    requires !Lost(ws[i].table, id, owner) && Lost(ws[j].table, id, owner)
    ensures Lost(ws[k].table, id, owner)
  {
    HeldWasClaimed(ws, steps, limits, i, id, owner);
    var m :| 0 <= m < i && Claims(steps[m], id, owner);
    LostStays(ws, steps, limits, j, k, id, owner);
  }

  /** Without the lease no operation of the owner succeeds or changes anything. */
  lemma LostIsPowerless(w: World, limits: Limits, id: Id, owner: string, op: LeaseOp, now: int)
    requires WorldOk(w) && Lost(w.table, id, owner)
    ensures !ApplyLease(w.table, id, owner, op, now).1 && Do(w, limits, Lease(id, owner, op, now)) == w
  {
  }

  lemma SettlingLoses(t: Table, id: Id, owner: string, op: LeaseOp, now: int)
    requires Settles(op) && ApplyLease(t, id, owner, op, now).1
    ensures !Lost(t, id, owner) && Lost(ApplyLease(t, id, owner, op, now).0, id, owner)
  {
  }

  /** For each job and fresh owner at most one settling call succeeds, and nothing
      that owner does afterwards succeeds or changes the queue. */
  lemma AtMostOneSettles(ws: seq<World>, steps: seq<Step>, limits: Limits, i: nat, k: nat, id: Id, owner: string,
                         first: LeaseOp, second: LeaseOp, now1: int, now2: int)
    requires IsRun(ws, steps, limits) && FreshOwners(steps) && i < k < |steps|
    requires steps[i] == Lease(id, owner, first, now1) && Settles(first)
    requires ApplyLease(ws[i].table, id, owner, first, now1).1
    requires steps[k] == Lease(id, owner, second, now2)
    ensures !ApplyLease(ws[k].table, id, owner, second, now2).1 && ws[k + 1] == ws[k]
  {
    SettlingLoses(ws[i].table, id, owner, first, now1);
    assert ws[i + 1].table == ApplyLease(ws[i].table, id, owner, first, now1).0;
    LostForGood(ws, steps, limits, i, i + 1, k, id, owner);
    LostIsPowerless(ws[k], limits, id, owner, second, now2);
  }

  lemma ExpiryLoses(t: Table, id: Id, owner: string, now: int)
    requires id in t.jobs && JobOk(t.jobs[id]) && t.jobs[id].leaseOwner == Some(owner)
    requires t.jobs[id].leaseExpiresAt.value <= now
    ensures Lost(Maintain(t, now), id, owner) && Lost(Recovery.SweepTable(t, now), id, owner)
  {
  }

  /** Once recovery, in either store, finds the lease over, the old owner's calls
      all fail and change nothing. */
  lemma ExpiredOwnerIsPowerless(ws: seq<World>, steps: seq<Step>, limits: Limits, i: nat, k: nat, id: Id, owner: string,
                                op: LeaseOp, now: int)
    requires IsRun(ws, steps, limits) && FreshOwners(steps) && i < k < |steps|
    requires !Lost(ws[i].table, id, owner)
    requires steps[i].Pass? || steps[i].SweepAll?
    requires ws[i].table.jobs[id].leaseExpiresAt.Some? && ws[i].table.jobs[id].leaseExpiresAt.value <= steps[i].now
    requires steps[k] == Lease(id, owner, op, now)
    ensures !ApplyLease(ws[k].table, id, owner, op, now).1 && ws[k + 1] == ws[k]
  {
    hide JobsOk, IdempExact, BatchesOk, Maintain, Recovery.SweepTable, ApplyLease;
    assert ws[i + 1] == Do(ws[i], limits, steps[i]);
    IdsMatch(ws[i].table, id);
    ExpiryLoses(ws[i].table, id, owner, steps[i].now);
    LostForGood(ws, steps, limits, i, i + 1, k, id, owner);
    LostIsPowerless(ws[k], limits, id, owner, op, now);
  }

  /** A voluntary return undoes the claim: the job is as it was before, but for its
      update time and, once it had started, its first start time. */
  lemma ReleaseUndoesClaim(job: Job, owner: string, leaseUntil: int, claimedAt: int, startedAt: int, releasedAt: int)
    requires JobOk(job) && job.state == Queued && job.attemptCount >= 0
    ensures Released(Claimed(job, owner, leaseUntil, claimedAt), None, true, releasedAt)
      == job.(updatedAt := releasedAt)
    ensures Released(Started(Claimed(job, owner, leaseUntil, claimedAt), leaseUntil, startedAt), None, true, releasedAt)
      == job.(updatedAt := releasedAt, startedAt := if job.startedAt.Some? then job.startedAt else Some(startedAt))
  {
  }

  // Final records

  predicate Final(s: JobState) {
    s == Succeeded || s == Cancelled
  }

  lemma FinalStays(t: Table, job: Job, step: Step)
    requires Final(job.state)
    ensures Moved(t, job, step) == job
  {
  }

  lemma IssuedGrows(w: World, limits: Limits, step: Step)
    requires WorldOk(w) && Enabled(w, step)
    ensures w.issued <= Do(w, limits, step).issued
  {
  }

  /** A result, once stored, is never overwritten: until retention removes it, the
      record of a succeeded or cancelled job never changes, and its id never
      comes back. No assumption about owners is needed. */
  lemma {:induction false} FinalRecordStays(ws: seq<World>, steps: seq<Step>, limits: Limits, i: nat, k: nat, id: Id)
    requires IsRun(ws, steps, limits) && i <= k <= |steps|
    requires id in ws[i].table.jobs && Final(ws[i].table.jobs[id].state)
    ensures id in ws[k].table.jobs ==> ws[k].table.jobs[id] == ws[i].table.jobs[id]
    ensures id in ws[k].issued
    decreases k
  {
    hide Do, Enabled, TableOk, Moved;
    if i < k {
      var w, step := ws[k - 1], steps[k - 1];
      FinalRecordStays(ws, steps, limits, i, k - 1, id);
      IssuedGrows(w, limits, step);
      if id in ws[k].table.jobs {
        if id in w.table.jobs {
          StepMovesJob(w, limits, step, id);
          FinalStays(w.table, w.table.jobs[id], step);
        } else {
          JobsAppearNew(w, limits, step, id);
        }
      }
    }
  }

  // The attempt budget

  predicate BudgetOk(job: Job) {
    && job.maxAttempts >= 1 && job.attemptCount >= 0
    && (job.state == Queued || job.state == RetryWait || job.state == Staged ==> job.attemptCount < job.maxAttempts)
    && (Held(job.state) ==> 1 <= job.attemptCount <= job.maxAttempts)
    && job.attemptCount <= job.maxAttempts
  }

  /** The service retries only within the budget and always restores the attempt
      of a job it releases. */
  predicate Budgeted(job: Job, step: Step) {
    step.Lease? && step.id == job.jobId ==>
      && (step.op.Retry? ==> job.attemptCount < job.maxAttempts)
      && (step.op.Release? ==> step.op.decrement)
  }

  lemma BudgetKept(t: Table, job: Job, step: Step)
    requires BudgetOk(job) && Budgeted(job, step)
    ensures BudgetOk(Moved(t, job, step))
  {
    hide Recovery.Swept, Maintained, Activates, SqlActivates;
    match step
    case Pass(now) => PassKeepsBudget(job, now);
    case SweepAll(now) => SweepKeepsBudget(job, now);
    case _ =>
  }

  lemma PassKeepsBudget(job: Job, now: int)
    requires BudgetOk(job)
    ensures BudgetOk(Maintained(job, now))
  {
  }

  lemma SweepKeepsBudget(job: Job, now: int)
    requires BudgetOk(job)
    ensures BudgetOk(Recovery.Swept(job, now))
  {
  }

  function Phase(s: JobState): nat {
    match s
    case Staged => 2
    case Queued => 1
    case Leased => 4
    case Running => 3
    case RetryWait => 2
    case _ => 0
  }

  function Fuel(job: Job): int {
    4 * (job.maxAttempts - job.attemptCount) + Phase(job.state)
  }

  /** Steps that hand a job its attempts back. */
  predicate GivesBack(step: Step) {
    step.ReleaseAll? || step.RequeueJob? || (step.Lease? && step.op.Release?)
  }

  /** Every change of state burns fuel, and nothing else adds any. */
  lemma ChangesBurnFuel(t: Table, job: Job, step: Step)
    requires BudgetOk(job) && Budgeted(job, step) && !GivesBack(step)
    ensures 0 <= Fuel(Moved(t, job, step)) <= Fuel(job) <= 4 * job.maxAttempts + 2
    ensures Moved(t, job, step).state != job.state ==> Fuel(Moved(t, job, step)) < Fuel(job)
    ensures Moved(t, job, step).maxAttempts == job.maxAttempts
  {
    hide Recovery.Swept, Maintained, Activates, SqlActivates;
    match step
    case Pass(now) => PassBurnsFuel(job, now);
    case SweepAll(now) => SweepBurnsFuel(job, now);
    case _ =>
  }

  predicate Burns(a: Job, b: Job) {
    0 <= Fuel(b) <= Fuel(a) && (b.state != a.state ==> Fuel(b) < Fuel(a)) && b.maxAttempts == a.maxAttempts
  }

  lemma PassBurnsFuel(job: Job, now: int)
    requires BudgetOk(job)
    ensures Burns(job, Maintained(job, now))
  {
  }

  lemma SweepBurnsFuel(job: Job, now: int)
    requires BudgetOk(job)
    ensures Burns(job, Recovery.Swept(job, now))
  {
  }

  function Changes(ws: seq<World>, id: Id, i: nat, k: nat): nat
    requires i <= k < |ws| && forall m :: i <= m <= k ==> id in ws[m].table.jobs
    decreases k
  {
    if i == k then 0
    else Changes(ws, id, i, k - 1) + if ws[k].table.jobs[id].state != ws[k - 1].table.jobs[id].state then 1 else 0
  }

  /** Without a release or a requeue a job changes state at most 4 max + 2 times,
      however long the run. */
  lemma {:induction false} ChangesAreBounded(ws: seq<World>, steps: seq<Step>, limits: Limits, id: Id, i: nat, k: nat)
    requires IsRun(ws, steps, limits) && i <= k <= |steps|
    requires forall m :: i <= m <= k ==> id in ws[m].table.jobs
    requires forall m :: i <= m < k ==> !GivesBack(steps[m]) && Budgeted(ws[m].table.jobs[id], steps[m])
    requires BudgetOk(ws[i].table.jobs[id])
    ensures BudgetOk(ws[k].table.jobs[id])
    ensures Changes(ws, id, i, k) + Fuel(ws[k].table.jobs[id]) <= Fuel(ws[i].table.jobs[id])
    ensures Changes(ws, id, i, k) <= 4 * ws[i].table.jobs[id].maxAttempts + 2
    decreases k
  {
    hide Do, Enabled, TableOk, Moved;
    if i < k {
      var w, step := ws[k - 1], steps[k - 1];
      ChangesAreBounded(ws, steps, limits, id, i, k - 1);
      assert id in ws[k].table.jobs && ws[k] == Do(w, limits, step);
      StepMovesJob(w, limits, step, id);
      BudgetKept(w.table, w.table.jobs[id], step);
      ChangesBurnFuel(w.table, w.table.jobs[id], step);
    }
    FuelLimit(ws[i].table.jobs[id]);
    FuelLimit(ws[k].table.jobs[id]);
  }

  lemma FuelLimit(job: Job)
    requires BudgetOk(job)
    ensures 0 <= Fuel(job) <= 4 * job.maxAttempts + 2
  {
  }
}
