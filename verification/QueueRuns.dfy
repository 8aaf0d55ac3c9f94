/** Whole runs of the queue: any interleaving of submissions, claims, lease
    operations by any owner, cancellation, recovery, release and retention. The
    steps of both stores are there, so what holds of every run holds in each. */
module QueueRuns {
  import opened Types
  import opened JobTables
  import opened SqlTables
  import Recovery

  datatype Step =
    | Submit(job: Job)
    | Begin(batch: Batch)
    | Stage(batchId: Id, jobs: seq<Job>)
    | Activate(batchId: Id, key: Option<string>, hash: Option<string>, now: int)
    | Abort(batchId: Id)
    | ClaimJob(id: Id, owner: string, leaseUntil: int, now: int)
    | Lease(id: Id, owner: string, op: LeaseOp, now: int)
    | CancelJob(id: Id, now: int)
    | CancelAll(batchId: Id, now: int)
    | Pass(now: int)
    | SweepAll(now: int)
    | Retain(successBefore: int, failureBefore: int)
    | RequeueJob(id: Id, now: int)
    | ReleaseAll(prefix: string, now: int)
    | SqlBegin(batch: Batch)
    | SqlStage(batchId: Id, jobs: seq<Job>)
    | SqlActivate(batchId: Id, key: Option<string>, hash: Option<string>, now: int)
    | SqlAbort(batchId: Id)
    | SqlCancel(id: Id, now: int)
    | Restart

  /** The table, and the job ids ever handed out: they are never used twice. */
  datatype World = World(table: Table, issued: set<Id>)

  const START := World(EMPTY, {})

  ghost predicate WorldOk(w: World) {
    TableOk(w.table) && w.table.jobs.Keys <= w.issued
  }

  ghost predicate NewChunk(w: World, jobs: seq<Job>) {
    && (forall i :: 0 <= i < |jobs| ==> NewJob(jobs[i]) && jobs[i].jobId !in w.issued)
    && (forall i, j :: 0 <= i < j < |jobs| ==> jobs[i].jobId != jobs[j].jobId)
  }

  /** Ids are new and jobs are as the service builds them. */
  ghost predicate Enabled(w: World, step: Step) {
    match step
    case Submit(job) => NewJob(job) && job.batchId.None? && job.jobId !in w.issued
    case Begin(batch) => batch.status == Staging && batch.batchId !in w.table.batches
    case SqlBegin(batch) => batch.status == Staging && batch.batchId !in w.table.batches
    case Stage(_, jobs) => NewChunk(w, jobs)
    case SqlStage(_, jobs) => NewChunk(w, jobs)
    case _ => true
  }

  ghost function Do(w: World, limits: Limits, step: Step): World
    requires WorldOk(w) && Enabled(w, step)
  {
    var t := w.table;
    match step
    case Submit(job) => World(Enqueue(t, limits, job).0, w.issued + {job.jobId})
    case Begin(batch) => w.(table := BeginBatch(t, limits, batch).0)
    case Stage(batchId, jobs) =>
      World(StageJobs(t, limits, batchId, jobs).0, w.issued + set job | job in jobs :: job.jobId)
    case Activate(batchId, key, hash, now) => w.(table := ActivateBatch(t, batchId, key, hash, now).0)
    case Abort(batchId) => w.(table := AbortBatch(t, batchId))
    case ClaimJob(id, owner, leaseUntil, now) => w.(table := Claim(t, id, owner, leaseUntil, now).0)
    case Lease(id, owner, op, now) => w.(table := ApplyLease(t, id, owner, op, now).0)
    case CancelJob(id, now) => w.(table := Cancel(t, id, now).0)
    case CancelAll(batchId, now) => w.(table := CancelBatch(t, batchId, now))
    case Pass(now) => w.(table := Maintain(t, now))
    case SweepAll(now) => w.(table := Recovery.SweepTable(t, now))
    case Retain(successBefore, failureBefore) => w.(table := Cleanup(t, successBefore, failureBefore))
    case RequeueJob(id, now) => w.(table := Requeue(t, id, now).0)
    case ReleaseAll(prefix, now) => w.(table := ReleaseLeases(t, prefix, now))
    case SqlBegin(batch) => w.(table := BeginEmpty(t, batch).0)
    case SqlStage(batchId, jobs) =>
      World(StageWhole(t, limits, batchId, jobs).0, w.issued + set job | job in jobs :: job.jobId)
    case SqlActivate(batchId, key, hash, now) => w.(table := ActivateSql(t, batchId, key, hash, now).0)
    case SqlAbort(batchId) => w.(table := SqlAborted(t, batchId))
    case SqlCancel(id, now) => w.(table := CancelSql(t, id, now).0)
    case Restart => w.(table := AbortOrphans(t))
  }

  function SqlAborted(t: Table, batchId: Id): Table {
    if batchId in t.batches && t.batches[batchId].status == Staging then AbortRows(t, batchId) else t
  }

  lemma DoKeepsOk(w: World, limits: Limits, step: Step)
    requires WorldOk(w) && Enabled(w, step)
    ensures WorldOk(Do(w, limits, step))
  {
    DoKeepsTableOk(w, limits, step);
    DoKeepsIssued(w, limits, step);
  }

  lemma DoKeepsTableOk(w: World, limits: Limits, step: Step)
    requires WorldOk(w) && Enabled(w, step)
    ensures TableOk(Do(w, limits, step).table)
  {
    hide JobsOk, IdempExact, BatchesOk, NewJob, Enqueue, StageJobs, ActivateBatch, AbortBatch, Claim, ApplyLease;
    hide Cancel, CancelBatch;
    hide Maintain, Recovery.SweepTable, Cleanup, Requeue, ReleaseLeases;
    hide BeginEmpty, StageWhole, ActivateSql, AbortRows, CancelSql, AbortOrphans;
    var t := w.table;
    match step
    case Submit(job) => EnqueueKeepsOk(t, limits, job);
    case Begin(batch) => BeginKeepsOk(t, limits, batch);
    case Stage(batchId, jobs) =>
      StageableIn(w, jobs);
      StageKeepsOk(t, limits, batchId, jobs);
    case Activate(batchId, key, hash, now) => ActivateKeepsOk(t, batchId, key, hash, now);
    case Abort(batchId) => AbortKeepsOk(t, batchId);
    case ClaimJob(id, owner, leaseUntil, now) => ClaimKeepsOk(t, id, owner, leaseUntil, now);
    case Lease(id, owner, op, now) => LeaseOpKeepsOk(t, id, owner, op, now);
    case CancelJob(id, now) => CancelKeepsOk(t, id, now);
    case CancelAll(batchId, now) => CancelBatchKeepsOk(t, batchId, now);
    case Pass(now) => MaintainKeepsOk(t, now);
    case SweepAll(now) =>
      Recovery.RecoveryAgrees(t, now);
      MaintainKeepsOk(t, now);
      MaintainKeepsOk(Maintain(t, now), now);
    case Retain(successBefore, failureBefore) => CleanupKeepsOk(t, successBefore, failureBefore);
    case RequeueJob(id, now) => RequeueKeepsOk(t, id, now);
    case ReleaseAll(prefix, now) => ReleaseLeasesKeepsOk(t, prefix, now);
    case SqlBegin(batch) => BeginEmptyKeepsOk(t, batch);
    case SqlStage(batchId, jobs) =>
      StageableIn(w, jobs);
      StageWholeKeepsOk(t, limits, batchId, jobs);
    case SqlActivate(batchId, key, hash, now) => ActivateSqlKeepsOk(t, batchId, key, hash, now);
    case SqlAbort(batchId) => if batchId in t.batches { AbortRowsKeepsOk(t, batchId); }
    case SqlCancel(id, now) => CancelSqlKeepsOk(t, id, now);
    case Restart => OrphansKeepOk(t);
  }

  lemma StageableIn(w: World, jobs: seq<Job>)
    requires WorldOk(w) && NewChunk(w, jobs)
    ensures Stageable(w.table, jobs)
  {
  }

  lemma DoKeepsIssued(w: World, limits: Limits, step: Step)
    requires WorldOk(w) && Enabled(w, step)
    ensures Do(w, limits, step).table.jobs.Keys <= Do(w, limits, step).issued
  {
    hide Maintained, Recovery.Swept, CancelInBatch, ReleasedByPrefix, ActivatedJob, StageJobs, CancelRow, JobsOk;
    hide BatchesOk;
    if step.Stage? || step.SqlStage? {
      StageableIn(w, step.jobs);
      StagingOnlyAddsTo(w.table, limits, step.batchId, step.jobs);
    }
  }

  lemma {:induction false} StagingOnlyAdds(t: Table, batchId: Id, jobs: seq<Job>)
    requires TableOk(t) && batchId in t.batches && t.batches[batchId].status == Staging && Stageable(t, jobs)
    ensures var u := StageEach(t, batchId, jobs).0;
      && (forall id :: id in t.jobs ==> id in u.jobs && u.jobs[id] == t.jobs[id])
      && (forall id :: id in u.jobs && id !in t.jobs ==>
          exists i :: 0 <= i < |jobs| && jobs[i] == u.jobs[id] && jobs[i].jobId == id)
    decreases |jobs|
  {
    hide StageFailure, NewJob, IdempExact, JobsOk, BatchesOk;
    if jobs != [] {
      var job := jobs[0];
      if StageFailure(t, batchId, job).None? {
        StageStepOk(t, batchId, jobs);
        StagingOnlyAdds(Remember(t, job), batchId, jobs[1..]);
        var u := StageEach(t, batchId, jobs).0;
        forall id | id in u.jobs && id !in t.jobs
          ensures exists i :: 0 <= i < |jobs| && jobs[i] == u.jobs[id] && jobs[i].jobId == id
        {
          if id == job.jobId {
            assert jobs[0] == u.jobs[id];
          } else {
            var i :| 0 <= i < |jobs[1..]| && jobs[1..][i] == u.jobs[id] && jobs[1..][i].jobId == id;
            assert jobs[i + 1] == u.jobs[id];
          }
        }
      }
    }
  }

  lemma StagingOnlyAddsTo(t: Table, limits: Limits, batchId: Id, jobs: seq<Job>)
    requires TableOk(t) && Stageable(t, jobs)
    ensures var u := StageJobs(t, limits, batchId, jobs).0;
      && (forall id :: id in t.jobs ==> id in u.jobs && u.jobs[id] == t.jobs[id])
      && (forall id :: id in u.jobs && id !in t.jobs ==>
          exists i :: 0 <= i < |jobs| && jobs[i] == u.jobs[id] && jobs[i].jobId == id)
  {
    hide Capacity, StageEach, NewJob, JobsOk, IdempExact, BatchesOk;
    if batchId in t.batches && t.batches[batchId].status == Staging {
      StagingOnlyAdds(t, batchId, jobs);
    }
  }

  /** The worlds of a run: one more than it has steps. */
  ghost predicate IsRun(ws: seq<World>, steps: seq<Step>, limits: Limits) {
    && |ws| == |steps| + 1 && ws[0] == START
    && (forall i :: 0 <= i < |ws| ==> WorldOk(ws[i]))
    && (forall i :: 0 <= i < |steps| ==> Enabled(ws[i], steps[i]) && ws[i + 1] == Do(ws[i], limits, steps[i]))
  }

  /** The same without assuming anything of the worlds on the way. */
  ghost predicate IsPlainRun(ws: seq<World>, steps: seq<Step>, limits: Limits) {
    && |ws| == |steps| + 1 && ws[0] == START
    && (forall i :: 0 <= i < |steps| && WorldOk(ws[i]) ==>
        Enabled(ws[i], steps[i]) && ws[i + 1] == Do(ws[i], limits, steps[i]))
  }

  /** Well-formedness is not an assumption about runs: every step keeps it. */
  lemma RunsStayOk(ws: seq<World>, steps: seq<Step>, limits: Limits)
    requires IsPlainRun(ws, steps, limits)
    ensures IsRun(ws, steps, limits)
  {
    hide Enabled, Do, WorldOk;
    forall i | 0 <= i < |ws| ensures WorldOk(ws[i]) {
      WorldStaysOk(ws, steps, limits, i);
    }
  }

  lemma {:induction false} WorldStaysOk(ws: seq<World>, steps: seq<Step>, limits: Limits, i: nat)
    requires IsPlainRun(ws, steps, limits) && i <= |steps|
    ensures WorldOk(ws[i])
  {
    if i > 0 {
      WorldStaysOk(ws, steps, limits, i - 1);
      DoKeepsOk(ws[i - 1], limits, steps[i - 1]);
    }
  }

  // What one step does to one job

  predicate Activates(t: Table, batchId: Id, key: Option<string>) {
    batchId in t.batches && t.batches[batchId].status == Staging
    && var k := KeyOf(t.batches[batchId].clientId, key);
       k.None? || k.value !in t.batchIdemp || t.batchIdemp[k.value] == batchId
  }

  predicate SqlActivates(t: Table, batchId: Id, key: Option<string>) {
    Activates(t, batchId, key) && !BlankTaken(t.batches, t.batches[batchId].clientId, key)
  }

  /** How a step moves a job that is there before and after it. */
  function Moved(t: Table, job: Job, step: Step): Job {
    match step
    case Activate(batchId, key, _, now) => if Activates(t, batchId, key) then ActivatedJob(job, batchId, now) else job
    case ClaimJob(id, owner, leaseUntil, now) =>
      if job.jobId == id && Claimable(job, now, BatchActive(t.batches, job.batchId))
        then Claimed(job, owner, leaseUntil, now) else job
    case Lease(id, owner, op, now) => if job.jobId == id && Allowed(job, owner, op) then Effect(job, op, now) else job
    case CancelJob(id, now) => if job.jobId == id then CancelRequest(job, now) else job
    case CancelAll(batchId, now) => CancelInBatch(job, batchId, now)
    case Pass(now) => Maintained(job, now)
    case SweepAll(now) => Recovery.Swept(job, now)
    case RequeueJob(id, now) =>
      if job.jobId == id && (job.state == Failed || job.state == DeadLetter) then StartedOver(job, now) else job
    case ReleaseAll(prefix, now) => ReleasedByPrefix(job, prefix, now)
    case SqlActivate(batchId, key, _, now) =>
      if SqlActivates(t, batchId, key) then ActivatedJob(job, batchId, now) else job
    case SqlCancel(id, now) => if job.jobId == id then CancelRow(job, now) else job
    case _ => job
  }

  lemma StepMovesJob(w: World, limits: Limits, step: Step, id: Id)
    requires WorldOk(w) && Enabled(w, step)
    requires id in w.table.jobs && id in Do(w, limits, step).table.jobs
    ensures Do(w, limits, step).table.jobs[id] == Moved(w.table, w.table.jobs[id], step)
  {
    assert w.table.jobs[id].jobId == id;
    if step.Submit? || step.Begin? || step.Stage? || step.Activate? || step.Abort? || step.Retain? {
      SubmissionMovesJob(w, limits, step, id);
    } else if InSql(step) {
      SqlMovesJob(w, limits, step, id);
    } else {
      TransitionMovesJob(w, limits, step, id);
    }
  }

  predicate InSql(step: Step) {
    step.SqlBegin? || step.SqlStage? || step.SqlActivate? || step.SqlAbort? || step.SqlCancel? || step.Restart?
  }

  lemma SqlMovesJob(w: World, limits: Limits, step: Step, id: Id)
    requires WorldOk(w) && Enabled(w, step) && InSql(step)
    requires id in w.table.jobs && id in Do(w, limits, step).table.jobs && w.table.jobs[id].jobId == id
    ensures Do(w, limits, step).table.jobs[id] == Moved(w.table, w.table.jobs[id], step)
  {
    hide Do, Moved, WorldOk, Enabled;
    if step.SqlActivate? { SqlActivateStep(w, limits, step, id); }
    if step.SqlCancel? { SqlCancelStep(w, limits, step, id); }
    if step.SqlBegin? || step.SqlStage? { SqlSubmitStep(w, limits, step, id); }
    if step.SqlAbort? || step.Restart? { SqlDropStep(w, limits, step, id); }
  }

  lemma SqlActivateStep(w: World, limits: Limits, step: Step, id: Id)
    requires WorldOk(w) && Enabled(w, step) && step.SqlActivate?
    requires id in w.table.jobs && id in Do(w, limits, step).table.jobs && w.table.jobs[id].jobId == id
    ensures Do(w, limits, step).table.jobs[id] == Moved(w.table, w.table.jobs[id], step)
  {
    hide JobsOk, IdempExact, ActivateSql, ActivatedJob, SqlActivates;
    SqlActivateMoves(w.table, step.batchId, step.key, step.hash, step.now, id);
  }

  lemma SqlCancelStep(w: World, limits: Limits, step: Step, id: Id)
    requires WorldOk(w) && Enabled(w, step) && step.SqlCancel?
    requires id in w.table.jobs && id in Do(w, limits, step).table.jobs && w.table.jobs[id].jobId == id
    ensures Do(w, limits, step).table.jobs[id] == Moved(w.table, w.table.jobs[id], step)
  {
    hide TableOk, CancelSql, CancelRow;
    SqlCancelMoves(w.table, step.id, step.now, id);
  }

  lemma SqlSubmitStep(w: World, limits: Limits, step: Step, id: Id)
    requires WorldOk(w) && Enabled(w, step) && (step.SqlBegin? || step.SqlStage?)
    requires id in w.table.jobs && id in Do(w, limits, step).table.jobs && w.table.jobs[id].jobId == id
    ensures Do(w, limits, step).table.jobs[id] == Moved(w.table, w.table.jobs[id], step)
  {
    hide JobsOk, IdempExact, BatchesOk, BeginEmpty, StageWhole, NewJob;
    if step.SqlBegin? {
      SqlBeginMovesNothing(w.table, step.batch);
    } else {
      StageableIn(w, step.jobs);
      SqlStageMovesNothing(w.table, limits, step.batchId, step.jobs, id);
    }
  }

  lemma SqlDropStep(w: World, limits: Limits, step: Step, id: Id)
    requires WorldOk(w) && Enabled(w, step) && (step.SqlAbort? || step.Restart?)
    requires id in w.table.jobs && id in Do(w, limits, step).table.jobs && w.table.jobs[id].jobId == id
    ensures Do(w, limits, step).table.jobs[id] == Moved(w.table, w.table.jobs[id], step)
  {
  }

  lemma SqlBeginMovesNothing(t: Table, batch: Batch)
    requires BatchesOk(t)
    ensures BeginEmpty(t, batch).0.jobs == t.jobs
  {
  }

  lemma SqlStageMovesNothing(t: Table, limits: Limits, batchId: Id, jobs: seq<Job>, id: Id)
    requires TableOk(t) && Stageable(t, jobs) && id in t.jobs
    ensures id in StageWhole(t, limits, batchId, jobs).0.jobs
      && StageWhole(t, limits, batchId, jobs).0.jobs[id] == t.jobs[id]
  {
    hide TableOk, Stageable, StageJobs;
    StagingOnlyAddsTo(t, limits, batchId, jobs);
  }

  lemma SqlCancelMoves(t: Table, other: Id, now: int, id: Id)
    requires id in t.jobs
    ensures id in CancelSql(t, other, now).0.jobs
    ensures CancelSql(t, other, now).0.jobs[id] == if id == other then CancelRow(t.jobs[id], now) else t.jobs[id]
  {
  }

  lemma SqlActivateMoves(t: Table, batchId: Id, key: Option<string>, hash: Option<string>, now: int, id: Id)
    requires BatchesOk(t) && id in ActivateSql(t, batchId, key, hash, now).0.jobs
    ensures id in t.jobs
    ensures ActivateSql(t, batchId, key, hash, now).0.jobs[id]
      == if SqlActivates(t, batchId, key) then ActivatedJob(t.jobs[id], batchId, now) else t.jobs[id]
  {
  }

  lemma TransitionMovesJob(w: World, limits: Limits, step: Step, id: Id)
    requires WorldOk(w) && Enabled(w, step)
    requires id in w.table.jobs && id in Do(w, limits, step).table.jobs && w.table.jobs[id].jobId == id
    requires !(step.Submit? || step.Begin? || step.Stage? || step.Activate? || step.Abort? || step.Retain?)
      && !InSql(step)
    ensures Do(w, limits, step).table.jobs[id] == Moved(w.table, w.table.jobs[id], step)
  {
    hide Effect, Allowed, Claimable, CancelRequest, CancelInBatch, Maintained, Recovery.Swept, ReleasedByPrefix;
    hide JobsOk, IdempExact, BatchesOk;
  }

  lemma SubmissionMovesJob(w: World, limits: Limits, step: Step, id: Id)
    requires WorldOk(w) && Enabled(w, step)
    requires id in w.table.jobs && id in Do(w, limits, step).table.jobs
    requires step.Submit? || step.Begin? || step.Stage? || step.Activate? || step.Abort? || step.Retain?
    ensures Do(w, limits, step).table.jobs[id] == Moved(w.table, w.table.jobs[id], step)
  {
    hide JobsOk, IdempExact, BatchesOk, StageJobs, ActivateBatch, AbortBatch, ActivatedJob, Enqueue, BeginBatch;
    hide Cleanup, Activates;
    var t := w.table;
    match step
    case Submit(job) => EnqueueMovesNothing(t, limits, job);
    case Begin(batch) => BeginMovesNothing(t, limits, batch);
    case Stage(batchId, jobs) => StagingOnlyAddsTo(t, limits, batchId, jobs);
    case Activate(batchId, key, hash, now) => ActivateMoves(t, batchId, key, hash, now, id);
    case Abort(batchId) => AbortMovesNothing(t, batchId, id);
    case Retain(successBefore, failureBefore) => CleanupMovesNothing(t, successBefore, failureBefore, id);
  }

  lemma EnqueueMovesNothing(t: Table, limits: Limits, job: Job)
    requires IdempExact(t) && job.jobId !in t.jobs
    ensures forall id :: id in t.jobs ==>
      id in Enqueue(t, limits, job).0.jobs && Enqueue(t, limits, job).0.jobs[id] == t.jobs[id]
  {
  }

  lemma BeginMovesNothing(t: Table, limits: Limits, batch: Batch)
    requires BatchesOk(t)
    ensures BeginBatch(t, limits, batch).0.jobs == t.jobs
  {
  }

  lemma AbortMovesNothing(t: Table, batchId: Id, id: Id)
    requires id in AbortBatch(t, batchId).jobs
    ensures id in t.jobs && AbortBatch(t, batchId).jobs[id] == t.jobs[id]
  {
  }

  lemma CleanupMovesNothing(t: Table, successBefore: int, failureBefore: int, id: Id)
    requires id in Cleanup(t, successBefore, failureBefore).jobs
    ensures id in t.jobs && Cleanup(t, successBefore, failureBefore).jobs[id] == t.jobs[id]
  {
  }

  lemma ActivateMoves(t: Table, batchId: Id, key: Option<string>, hash: Option<string>, now: int, id: Id)
    requires BatchesOk(t) && id in ActivateBatch(t, batchId, key, hash, now).0.jobs
    ensures id in t.jobs
    ensures ActivateBatch(t, batchId, key, hash, now).0.jobs[id]
      == if Activates(t, batchId, key) then ActivatedJob(t.jobs[id], batchId, now) else t.jobs[id]
  {
  }

  /** Jobs appear only as new jobs with new ids. */
  lemma JobsAppearNew(w: World, limits: Limits, step: Step, id: Id)
    requires WorldOk(w) && Enabled(w, step)
    requires id !in w.table.jobs && id in Do(w, limits, step).table.jobs
    ensures NewJob(Do(w, limits, step).table.jobs[id]) && id !in w.issued
    ensures step.Submit? || step.Stage? || step.SqlStage?
  {
    hide Maintained, Recovery.Swept, CancelInBatch, ReleasedByPrefix, ActivatedJob, StageJobs, CancelRow, JobsOk;
    hide BatchesOk, BlankTaken;
    if step.Stage? || step.SqlStage? {
      StageableIn(w, step.jobs);
      StagingOnlyAddsTo(w.table, limits, step.batchId, step.jobs);
    }
  }

  /** A job that appears is one the step brought. */
  lemma AppearsFromStep(w: World, limits: Limits, step: Step, id: Id)
    requires WorldOk(w) && Enabled(w, step)
    requires id !in w.table.jobs && id in Do(w, limits, step).table.jobs
    ensures var job := Do(w, limits, step).table.jobs[id];
      NewJob(job) && ((step.Submit? && job == step.job) || ((step.Stage? || step.SqlStage?) && job in step.jobs))
  {
    JobsAppearNew(w, limits, step, id);
    hide JobsOk, IdempExact, BatchesOk, StageJobs, Enqueue, NewJob;
    if step.Submit? {
      SubmitBrings(w.table, limits, step.job, id);
    } else {
      StageableIn(w, step.jobs);
      StagingOnlyAddsTo(w.table, limits, step.batchId, step.jobs);
    }
  }

  lemma SubmitBrings(t: Table, limits: Limits, job: Job, id: Id)
    requires IdempExact(t) && id !in t.jobs && id in Enqueue(t, limits, job).0.jobs
    ensures Enqueue(t, limits, job).0.jobs[id] == job
  {
  }

  /** No step changes who a job is. */
  lemma MovedKeepsIdentity(t: Table, job: Job, step: Step)
    ensures SameIdentity(job, Moved(t, job, step))
  {
    hide Maintained, Recovery.Swept, Activates, SqlActivates, Allowed, Claimable, Effect;
    hide SameIdentity, CancelRequest, CancelInBatch, ReleasedByPrefix, StartedOver, ActivatedJob, CancelRow, Claimed;
    CallerKeepsIdentity(job, step);
    SameJob(job);
    match step
    case Pass(now) => MaintainedStaysGood(job, t.batches, now);
    case SweepAll(now) => Recovery.SweptKeepsIdentity(job, now);
    case Lease(_, _, op, now) => EffectKeepsIdentity(job, op, now);
    case _ =>
  }

  lemma SameJob(job: Job)
    ensures SameIdentity(job, job)
  {
  }

  lemma IdentityChains(a: Job, b: Job, c: Job)
    requires SameIdentity(a, b) && SameIdentity(b, c)
    ensures SameIdentity(a, c)
  {
  }

  lemma EffectKeepsIdentity(job: Job, op: LeaseOp, now: int)
    ensures SameIdentity(job, Effect(job, op, now))
  {
  }

  lemma CallerKeepsIdentity(job: Job, step: Step)
    ensures step.ClaimJob? ==> SameIdentity(job, Claimed(job, step.owner, step.leaseUntil, step.now))
    ensures step.CancelJob? ==> SameIdentity(job, CancelRequest(job, step.now))
    ensures step.CancelAll? ==> SameIdentity(job, CancelInBatch(job, step.batchId, step.now))
    ensures step.SqlCancel? ==> SameIdentity(job, CancelRow(job, step.now))
    ensures step.RequeueJob? ==> SameIdentity(job, StartedOver(job, step.now))
    ensures step.ReleaseAll? ==> SameIdentity(job, ReleasedByPrefix(job, step.prefix, step.now))
    ensures step.Activate? || step.SqlActivate? ==> SameIdentity(job, ActivatedJob(job, step.batchId, step.now))
  {
  }

  /** A row that is still there after a step is the row of the same job. */
  lemma StepKeepsIdentity(w: World, limits: Limits, step: Step, id: Id)
    requires WorldOk(w) && Enabled(w, step)
    requires id in w.table.jobs && id in Do(w, limits, step).table.jobs
    ensures SameIdentity(w.table.jobs[id], Do(w, limits, step).table.jobs[id])
  {
    hide WorldOk, Enabled, Do, Moved, SameIdentity;
    StepMovesJob(w, limits, step, id);
    MovedKeepsIdentity(w.table, w.table.jobs[id], step);
  }

  // What one step does to one batch

  /** Steps that name the batch, which only its own submission does. */
  predicate Names(step: Step, batchId: Id) {
    match step
    case Begin(batch) => batch.batchId == batchId
    case SqlBegin(batch) => batch.batchId == batchId
    case Stage(b, _) => b == batchId
    case SqlStage(b, _) => b == batchId
    case Activate(b, _, _, _) => b == batchId
    case SqlActivate(b, _, _, _) => b == batchId
    case Abort(b) => b == batchId
    case SqlAbort(b) => b == batchId
    case _ => false
  }

  /** A batch record is never removed. Steps that do not name it change it only when
      a restart aborts it while staging; no step revives an aborted batch, and an
      active one stays as it is or is aborted. */
  predicate BatchMoves(a: Batch, b: Batch, step: Step, batchId: Id) {
    && (!Names(step, batchId) ==> b == a || (step.Restart? && a.status == Staging && b.status == Aborted))
    && (step.Restart? ==> b.status != Staging)
    && (a.status == Aborted ==> b.status == Aborted)
    && (a.status == Active ==> b == a || b.status == Aborted)
  }

  lemma StepMovesBatch(w: World, limits: Limits, step: Step, batchId: Id)
    requires WorldOk(w) && Enabled(w, step) && batchId in w.table.batches
    ensures batchId in Do(w, limits, step).table.batches
    ensures BatchMoves(w.table.batches[batchId], Do(w, limits, step).table.batches[batchId], step, batchId)
  {
    hide JobsOk, IdempExact, BatchMoves, StageJobs, ActivateBatch, ActivateSql, Capacity, Enqueue;
    if step.Stage? || step.SqlStage? {
      StageableIn(w, step.jobs);
      StagingMovesBatch(w.table, limits, step.batchId, step.jobs, step, batchId);
    } else if step.Activate? {
      ActivationMovesBatch(w.table, step, batchId);
    } else if step.SqlActivate? {
      SqlActivationMovesBatch(w.table, step, batchId);
    } else {
      OthersMoveBatch(w, limits, step, batchId);
    }
  }

  lemma StagingMovesBatch(t: Table, limits: Limits, b: Id, jobs: seq<Job>, step: Step, batchId: Id)
    requires TableOk(t) && Stageable(t, jobs) && batchId in t.batches
    requires (step.Stage? || step.SqlStage?) && step.batchId == b && step.jobs == jobs
    ensures batchId in StageJobs(t, limits, b, jobs).0.batches
    ensures BatchMoves(t.batches[batchId], StageJobs(t, limits, b, jobs).0.batches[batchId], step, batchId)
    ensures BatchMoves(t.batches[batchId], t.batches[batchId], step, batchId)
  {
  }

  lemma ActivationMovesBatch(t: Table, step: Step, batchId: Id)
    requires BatchesOk(t) && batchId in t.batches && step.Activate?
    ensures var u := ActivateBatch(t, step.batchId, step.key, step.hash, step.now).0;
      batchId in u.batches && BatchMoves(t.batches[batchId], u.batches[batchId], step, batchId)
  {
  }

  lemma SqlActivationMovesBatch(t: Table, step: Step, batchId: Id)
    requires BatchesOk(t) && batchId in t.batches && step.SqlActivate?
    ensures var u := ActivateSql(t, step.batchId, step.key, step.hash, step.now).0;
      batchId in u.batches && BatchMoves(t.batches[batchId], u.batches[batchId], step, batchId)
  {
  }

  lemma OthersMoveBatch(w: World, limits: Limits, step: Step, batchId: Id)
    requires WorldOk(w) && Enabled(w, step) && batchId in w.table.batches
    requires !step.Stage? && !step.SqlStage? && !step.Activate? && !step.SqlActivate?
    ensures batchId in Do(w, limits, step).table.batches
    ensures BatchMoves(w.table.batches[batchId], Do(w, limits, step).table.batches[batchId], step, batchId)
  {
    hide JobsOk;
  }
}
