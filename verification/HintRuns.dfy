/** How the hybrid store's index keeps up with its rows: after which operations an
    index that lists exactly the ready rows still does, over whole runs. */
module HintRuns {
  import opened Types
  import opened ReadyIndexes
  import opened JobTables
  import opened SqlTables
  import opened IndexAgreement
  import opened QueueRuns
  import opened BatchRuns
  import opened HybridBackends
  import opened BackendsAgree
  import Recovery

  /** The operations of the hybrid store. */
  predicate InHybrid(step: Step) {
    !(step.Begin? || step.Stage? || step.Activate? || step.Abort? || step.CancelJob? || step.Pass?)
  }

  /** What an operation does to the index. What the store passes through to SQLite
      does nothing; cancelling a batch and reopening rebuild it. */
  ghost function Hinted(view: View, w: World, limits: Limits, step: Step): View
    requires WorldOk(w) && Enabled(w, step)
  {
    var t, u := w.table, Do(w, limits, step).table;
    match step
    case Submit(job) =>
      var r := Enqueue(t, limits, job).1;
      if r.Ok? && r.value.job.state == Queued then view[r.value.job.jobId := CandidateOf(r.value.job)] else view
    case SqlActivate(batchId, key, hash, now) =>
      if ActivateSql(t, batchId, key, hash, now).1.Ok? then ReadyView(u) else view
    case ClaimJob(id, _, _, _) => view - {id}
    case SqlCancel(id, now) => if id in t.jobs then view - {id} else view
    case CancelAll(_, _) => ReadyView(u)
    case SweepAll(now) => Refreshed(view, ReportedIds(Recovery.SweptReport(t.jobs, now)), u.jobs)
    case RequeueJob(id, now) =>
      if Requeue(t, id, now).1.Ok? then view[id := CandidateOf(Requeue(t, id, now).1.value)] else view
    case Restart => ReadyView(u)
    case _ => view
  }

  /** Operations after which the index has lost track of a ready row: a release that
      succeeds, one job or many, and a claim refused to a row that is ready. */
  predicate LosesTrack(t: Table, step: Step) {
    match step
    case Lease(id, owner, op, _) => op.Release? && id in t.jobs && Allowed(t.jobs[id], owner, op)
    case ReleaseAll(prefix, _) => LeasedTo(t.jobs, t.jobs.Keys, prefix) != {}
    case ClaimJob(id, _, _, now) => id in ReadyIds(t) && id !in ClaimableIds(t, now)
    case _ => false
  }

  /** In well-formed tables every queued row is ready. */
  lemma ReadyIsQueued(t: Table)
    requires TableOk(t)
    ensures forall id :: id in ReadyIds(t) <==> id in t.jobs && t.jobs[id].state == Queued
  {
  }

  /** The row of id is ready, or not, as before. */
  ghost predicate Steady(t: Table, u: Table, id: Id) {
    && (id in t.jobs && t.jobs[id].state == Queued <==> id in u.jobs && u.jobs[id].state == Queued)
    && (id in t.jobs && t.jobs[id].state == Queued && id in u.jobs
        ==> CandidateOf(u.jobs[id]) == CandidateOf(t.jobs[id]))
  }

  lemma SteadyViews(t: Table, u: Table)
    requires TableOk(t) && TableOk(u) && forall id :: Steady(t, u, id)
    ensures ReadyView(u) == ReadyView(t)
  {
    hide TableOk, CandidateOf;
    ReadyIsQueued(t);
    ReadyIsQueued(u);
    forall id ensures id in ReadyView(u) <==> id in ReadyView(t) { assert Steady(t, u, id); }
    forall id | id in ReadyView(u) ensures ReadyView(u)[id] == ReadyView(t)[id] { assert Steady(t, u, id); }
  }

  /** Moves that leave a row as ready as it was. */
  predicate MovesQuietly(job: Job, next: Job) {
    (job.state == Queued <==> next.state == Queued) && (job.state == Queued ==> CandidateOf(next) == CandidateOf(job))
  }

  predicate Quiet(t: Table, step: Step) {
    || step.SqlBegin? || step.SqlStage? || step.SqlAbort? || step.Retain?
    || (step.Lease? && !LosesTrack(t, step)) || (step.ReleaseAll? && !LosesTrack(t, step))
  }

  lemma QuietMoves(t: Table, job: Job, step: Step)
    requires Quiet(t, step) && job.jobId in t.jobs && t.jobs[job.jobId] == job
    requires step.Lease? ==> JobOk(job)
    ensures MovesQuietly(job, Moved(t, job, step))
  {
    if step.ReleaseAll? {
      assert job.jobId !in LeasedTo(t.jobs, t.jobs.Keys, step.prefix);
    }
  }

  lemma QuietStep(w: World, limits: Limits, step: Step, id: Id)
    requires WorldOk(w) && Enabled(w, step) && Quiet(w.table, step)
    ensures Steady(w.table, Do(w, limits, step).table, id)
  {
    hide Do, Enabled, TableOk, Quiet, Moved, CandidateOf;
    var t, u := w.table, Do(w, limits, step).table;
    if id in t.jobs && id in u.jobs {
      StepMovesJob(w, limits, step, id);
      RowFacts(w, id);
      QuietMoves(t, t.jobs[id], step);
    } else if id in u.jobs {
      QuietAppear(w, limits, step, id);
    } else if id in t.jobs {
      QuietVanish(w, limits, step, id);
    }
  }

  lemma RowFacts(w: World, id: Id)
    requires WorldOk(w) && id in w.table.jobs
    ensures w.table.jobs[id].jobId == id && JobOk(w.table.jobs[id]) && FitsBatch(w.table.batches, w.table.jobs[id])
  {
  }

  lemma QuietAppear(w: World, limits: Limits, step: Step, id: Id)
    requires WorldOk(w) && Enabled(w, step) && Quiet(w.table, step) && id !in w.table.jobs
      && id in Do(w, limits, step).table.jobs
    ensures Do(w, limits, step).table.jobs[id].state != Queued
  {
    hide Do, Enabled, TableOk;
    AppearsFromStep(w, limits, step, id);
    StagedIntoItsBatch(w, limits, step, id);
  }

  lemma QuietVanish(w: World, limits: Limits, step: Step, id: Id)
    requires WorldOk(w) && Enabled(w, step) && Quiet(w.table, step) && id in w.table.jobs
      && id !in Do(w, limits, step).table.jobs
    ensures w.table.jobs[id].state != Queued
  {
    RowFacts(w, id);
    hide TableOk, NewJob, Allowed, Effect, ReleasedByPrefix, StageJobs;
    if step.SqlStage? {
      StagingKeepsRows(w, limits, step, id);
    } else {
      OnlyDropped(w, limits, step, id);
    }
  }

  lemma OnlyDropped(w: World, limits: Limits, step: Step, id: Id)
    requires WorldOk(w) && Enabled(w, step)
      && (step.SqlBegin? || step.SqlAbort? || step.Retain? || step.Lease? || step.ReleaseAll?)
    requires id in w.table.jobs && id !in Do(w, limits, step).table.jobs && FitsBatch(w.table.batches, w.table.jobs[id])
    ensures w.table.jobs[id].state != Queued
  {
    hide JobsOk, IdempExact, Effect, Allowed, ReleasedByPrefix;
  }

  lemma QuietKeepsHint(w: World, limits: Limits, step: Step)
    requires WorldOk(w) && Enabled(w, step) && Quiet(w.table, step)
    ensures ReadyView(Do(w, limits, step).table) == ReadyView(w.table)
  {
    hide Do, Enabled, TableOk, Quiet, Steady, ReadyView;
    DoKeepsOk(w, limits, step);
    forall id { QuietStep(w, limits, step, id); }
    SteadyViews(w.table, Do(w, limits, step).table);
  }

  lemma SubmitHint(t: Table, limits: Limits, job: Job)
    requires TableOk(t) && NewJob(job) && job.batchId.None? && job.jobId !in t.jobs
    ensures var (u, r) := Enqueue(t, limits, job);
      ReadyView(u) == if r.Ok? && r.value.job.state == Queued
        then ReadyView(t)[r.value.job.jobId := CandidateOf(r.value.job)] else ReadyView(t)
  {
    hide Capacity, BatchesOk, CandidateOf;
    EnqueueKeepsOk(t, limits, job);
    ReadyIsQueued(t);
    ReadyIsQueued(Enqueue(t, limits, job).0);
  }

  lemma RefusedActivationKeepsHint(w: World, limits: Limits, step: Step)
    requires WorldOk(w) && Enabled(w, step) && step.SqlActivate?
    ensures Hinted(ReadyView(w.table), w, limits, step) == ReadyView(Do(w, limits, step).table)
  {
    hide JobsOk, IdempExact, ReadyView, AbortRows, ActivatedRows, BlankTaken;
  }

  /** Only the row of id has changed. */
  lemma OneRowView(t: Table, u: Table, id: Id)
    requires TableOk(t) && TableOk(u) && u.batches == t.batches && id in t.jobs && id in u.jobs
      && u.jobs == t.jobs[id := u.jobs[id]]
    ensures ReadyView(u) == if u.jobs[id].state == Queued then ReadyView(t)[id := CandidateOf(u.jobs[id])]
      else ReadyView(t) - {id}
    ensures id in ReadyView(t) <==> t.jobs[id].state == Queued
  {
    hide TableOk, CandidateOf;
    ReadyIsQueued(t);
    ReadyIsQueued(u);
  }

  lemma CancelHint(t: Table, id: Id, now: int)
    requires TableOk(t)
    ensures ReadyView(CancelSql(t, id, now).0) == if id in t.jobs then ReadyView(t) - {id} else ReadyView(t)
  {
    hide TableOk, ReadyView;
    CancelSqlKeepsOk(t, id, now);
    if id in t.jobs {
      OneRowView(t, CancelSql(t, id, now).0, id);
    }
  }

  lemma RequeueHint(t: Table, id: Id, now: int)
    requires TableOk(t)
    ensures var (u, r) := Requeue(t, id, now);
      ReadyView(u) == if r.Ok? then ReadyView(t)[id := CandidateOf(r.value)] else ReadyView(t)
  {
  }

  lemma ClaimHint(t: Table, step: Step)
    requires TableOk(t) && step.ClaimJob?
    ensures ReadyView(t) - {step.id} == ReadyView(Claim(t, step.id, step.owner, step.leaseUntil, step.now).0)
      <==> !LosesTrack(t, step)
  {
    hide TableOk, CandidateOf;
    ClaimKeepsOk(t, step.id, step.owner, step.leaseUntil, step.now);
    if step.id in ClaimableIds(t, step.now) {
      OneRowView(t, Claim(t, step.id, step.owner, step.leaseUntil, step.now).0, step.id);
    } else {
      assert step.id in ReadyIds(t) ==> step.id in ReadyView(t);
      assert step.id !in ReadyIds(t) ==> ReadyView(t) - {step.id} == ReadyView(t);
    }
  }

  lemma ReleaseLosesTrack(w: World, limits: Limits, step: Step)
    requires WorldOk(w) && Enabled(w, step) && (step.Lease? || step.ReleaseAll?) && LosesTrack(w.table, step)
    ensures ReadyView(Do(w, limits, step).table) != ReadyView(w.table)
  {
    hide IdempExact, BatchesOk;
    DoKeepsOk(w, limits, step);
    ReadyIsQueued(w.table);
    ReadyIsQueued(Do(w, limits, step).table);
    var id :| id in w.table.jobs && if step.Lease? then id == step.id
      else id in LeasedTo(w.table.jobs, w.table.jobs.Keys, step.prefix);
    assert id !in ReadyView(w.table) && id in ReadyView(Do(w, limits, step).table);
  }

  /** An index that lists exactly the ready rows still does after any operation of the
      store, unless the operation released a job or was a claim refused to a ready row;
      then it no longer does. */
  lemma HintKeepsUp(w: World, limits: Limits, step: Step)
    requires WorldOk(w) && Enabled(w, step) && InHybrid(step)
    ensures Hinted(ReadyView(w.table), w, limits, step) == ReadyView(Do(w, limits, step).table)
      <==> !LosesTrack(w.table, step)
  {
    hide TableOk, ReadyView, Refreshed, ReportedIds, Recovery.SweptReport, Recovery.SweepTable, Enqueue, ActivateSql;
    hide ApplyLease;
    hide Requeue, ReleaseLeases, LeasedTo, ReadyIds, ClaimableIds, CancelSql, StageWhole, BeginEmpty, Claim;
    match step
    case Submit(job) => SubmitHint(w.table, limits, job);
    case SqlActivate(_, _, _, _) => RefusedActivationKeepsHint(w, limits, step);
    case ClaimJob(_, _, _, _) => ClaimHint(w.table, step);
    case SqlCancel(id, now) => CancelHint(w.table, id, now);
    case RequeueJob(id, now) => RequeueHint(w.table, id, now);
    case SweepAll(now) => MaintenanceKeepsTheHint(w.table, now);
    case CancelAll(_, _) =>
    case Restart =>
    case _ =>
      if LosesTrack(w.table, step) {
        ReleaseLosesTrack(w, limits, step);
      } else {
        QuietKeepsHint(w, limits, step);
      }
  }

  /** The index after each step of a run that began with an exact one. */
  ghost predicate Follows(views: seq<View>, ws: seq<World>, steps: seq<Step>, limits: Limits) {
    && IsRun(ws, steps, limits) && |views| == |ws| && views[0] == ReadyView(ws[0].table)
    && forall i :: 0 <= i < |steps| ==> InHybrid(steps[i]) && views[i + 1] == Hinted(views[i], ws[i], limits, steps[i])
  }

  /** So it stays exact for as long as no job is released and no ready row refused. */
  lemma {:induction false} HintStaysExact(views: seq<View>, ws: seq<World>, steps: seq<Step>, limits: Limits, k: nat)
    requires Follows(views, ws, steps, limits) && k <= |steps|
    requires forall i :: 0 <= i < k ==> !LosesTrack(ws[i].table, steps[i])
    ensures views[k] == ReadyView(ws[k].table)
  {
    hide Do, Enabled, TableOk, Hinted, LosesTrack, ReadyView;
    if k > 0 {
      HintStaysExact(views, ws, steps, limits, k - 1);
      HintKeepsUp(ws[k - 1], limits, steps[k - 1]);
    }
  }
}
