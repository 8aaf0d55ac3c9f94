/** Submitting a batch in chunks while everything else goes on. Its calls, in either
    store, may be interleaved with any steps of others: in the end every input is a
    row of the active batch, or nothing of the batch is left. */
module BatchRuns {
  import opened Types
  import opened JobTables
  import opened SqlTables
  import opened QueueRuns
  import opened LeaseRuns
  import opened Idempotency
  import Recovery

  // One submission's calls

  predicate Begins(step: Step, batchId: Id) {
    (step.Begin? || step.SqlBegin?) && step.batch.batchId == batchId && step.batch.idempotencyKey.None?
  }

  predicate Stages(step: Step, batchId: Id) {
    (step.Stage? || step.SqlStage?) && step.batchId == batchId
  }

  predicate Finishes(step: Step, batchId: Id) {
    (step.Activate? || step.SqlActivate?) && step.batchId == batchId
  }

  predicate GivesUp(step: Step, batchId: Id) {
    (step.Abort? || step.SqlAbort?) && step.batchId == batchId
  }

  /** A chunk was staged without an exception. */
  ghost predicate WentThrough(w: World, limits: Limits, step: Step)
    requires WorldOk(w) && Enabled(w, step) && (step.Stage? || step.SqlStage?)
  {
    StageableIn(w, step.jobs);
    StageJobs(w.table, limits, step.batchId, step.jobs).1.Ok?
  }

  ghost predicate Refused(w: World, step: Step)
    requires WorldOk(w) && (step.Activate? || step.SqlActivate?)
  {
    ActivationAnswer(w.table, step).Err?
  }

  ghost predicate Answered(w: World, step: Step, replayed: bool)
    requires WorldOk(w) && (step.Activate? || step.SqlActivate?)
  {
    ActivationAnswer(w.table, step).Ok? && ActivationAnswer(w.table, step).value.replayed == replayed
  }

  /** What the chunks staged between two points of a run held, in order. */
  function Inputs(steps: seq<Step>, batchId: Id, from: nat, until: nat): seq<Job>
    requires from <= until <= |steps|
    decreases until
  {
    if from == until then []
    else
      Inputs(steps, batchId, from, until - 1) + if Stages(steps[until - 1], batchId) then steps[until - 1].jobs else []
  }

  /** The submission began at b and its other calls up to e were staging calls, all of
      which went through. */
  ghost predicate StagedUpTo(ws: seq<World>, steps: seq<Step>, limits: Limits, batchId: Id, b: nat, e: nat) {
    && IsRun(ws, steps, limits) && b < e <= |steps| && Begins(steps[b], batchId)
    && forall k :: b < k < e && Names(steps[k], batchId) ==>
      Stages(steps[k], batchId) && WentThrough(ws[k], limits, steps[k])
  }

  /** Nobody names the batch any more. */
  ghost predicate LeftAlone(steps: seq<Step>, batchId: Id, from: nat) {
    forall k :: from <= k < |steps| ==> !Names(steps[k], batchId)
  }

  /** All chunks went through and at e the batch was activated. */
  ghost predicate Completed(ws: seq<World>, steps: seq<Step>, limits: Limits, batchId: Id, b: nat, e: nat) {
    && StagedUpTo(ws, steps, limits, batchId, b, e) && e < |steps| && LeftAlone(steps, batchId, e + 1)
    && Finishes(steps[e], batchId) && Answered(ws[e], steps[e], false)
  }

  /** The batch lost to another under its key, and was dropped at e. */
  ghost predicate Replayed(ws: seq<World>, steps: seq<Step>, limits: Limits, batchId: Id, b: nat, e: nat) {
    && StagedUpTo(ws, steps, limits, batchId, b, e) && e < |steps| && LeftAlone(steps, batchId, e + 1)
    && Finishes(steps[e], batchId) && Answered(ws[e], steps[e], true)
  }

  /** After chunks that may have failed, and an activation that was refused if it came
      to that, the submission was given up at e. */
  ghost predicate GivenUp(ws: seq<World>, steps: seq<Step>, limits: Limits, batchId: Id, b: nat, e: nat) {
    && IsRun(ws, steps, limits) && b < e < |steps| && Begins(steps[b], batchId) && LeftAlone(steps, batchId, e + 1)
    && (forall k :: b < k < e && Names(steps[k], batchId) ==>
          Stages(steps[k], batchId) || (Finishes(steps[k], batchId) && Refused(ws[k], steps[k])))
    && GivesUp(steps[e], batchId)
  }

  // The outcomes

  /** Retention removed the finished job at some step before k. */
  ghost predicate Forgotten(ws: seq<World>, steps: seq<Step>, id: Id, k: nat)
    requires |ws| == |steps| + 1
  {
    exists m :: 0 <= m < k && m < |steps| && ForgottenAt(ws, steps, id, m)
  }

  ghost predicate ForgottenAt(ws: seq<World>, steps: seq<Step>, id: Id, m: nat)
    requires |ws| == |steps| + 1 && m < |steps|
  {
    steps[m].Retain? && id in ws[m].table.jobs && Terminal(ws[m].table.jobs[id].state) && id !in ws[m + 1].table.jobs
  }

  /** The batch is active, each input is its row, at its ordinal and no longer staged,
      unless retention has forgotten it, and the batch has no other rows. */
  ghost predicate AllThere(ws: seq<World>, steps: seq<Step>, batchId: Id, inputs: seq<Job>, k: nat)
    requires |ws| == |steps| + 1 && k <= |steps|
  {
    var t := ws[k].table;
    && batchId in t.batches && t.batches[batchId].status == Active
    && (forall i :: 0 <= i < |inputs| ==> Landed(ws, steps, inputs[i], k))
    && OnlyRowsOf(t, batchId, inputs)
  }

  ghost predicate Landed(ws: seq<World>, steps: seq<Step>, input: Job, k: nat)
    requires |ws| == |steps| + 1 && k <= |steps|
  {
    var t := ws[k].table;
    if input.jobId in t.jobs then SameIdentity(input, t.jobs[input.jobId])
      && t.jobs[input.jobId].state != JobState.Staged
    else Forgotten(ws, steps, input.jobId, k)
  }

  ghost predicate OnlyRowsOf(t: Table, batchId: Id, inputs: seq<Job>) {
    forall id :: id in t.jobs && t.jobs[id].batchId == Some(batchId)
      ==> exists i :: 0 <= i < |inputs| && inputs[i].jobId == id
  }

  /** No job, no key of a job and no key of the batch. */
  ghost predicate NothingLeft(t: Table, batchId: Id) {
    && OfBatch(t, batchId) == {}
    && (forall k :: k in t.idemp ==> t.idemp[k] in t.jobs && t.jobs[t.idemp[k]].batchId != Some(batchId))
    && (forall k :: k in t.batchIdemp ==> t.batchIdemp[k] != batchId)
  }

  // Rows of the batch under the steps of others

  /** A row goes only by retention once finished, by a call that names its batch, or
      by a restart while its batch is staging. */
  lemma RowVanishes(w: World, limits: Limits, step: Step, id: Id, batchId: Id)
    requires WorldOk(w) && Enabled(w, step)
    requires id in w.table.jobs && w.table.jobs[id].batchId == Some(batchId) && id !in Do(w, limits, step).table.jobs
    ensures (step.Retain? && Terminal(w.table.jobs[id].state)) || Names(step, batchId)
            || (step.Restart? && batchId in w.table.batches && w.table.batches[batchId].status == Staging)
  {
    hide Do, WorldOk, Enabled, Names;
    if step.Stage? || step.SqlStage? {
      StagingKeepsRows(w, limits, step, id);
    } else if step.Activate? || step.SqlActivate? {
      if !Names(step, batchId) {
        ActivationKeepsRows(w, limits, step, id, batchId);
      }
    } else {
      OthersKeepRows(w, limits, step, id, batchId);
    }
  }

  lemma StagingKeepsRows(w: World, limits: Limits, step: Step, id: Id)
    requires WorldOk(w) && Enabled(w, step) && (step.Stage? || step.SqlStage?) && id in w.table.jobs
    ensures id in Do(w, limits, step).table.jobs
  {
    hide JobsOk, IdempExact, BatchesOk, StageJobs, NewJob;
    StageableIn(w, step.jobs);
    StagingOnlyAddsTo(w.table, limits, step.batchId, step.jobs);
  }

  lemma ActivationKeepsRows(w: World, limits: Limits, step: Step, id: Id, batchId: Id)
    requires WorldOk(w) && Enabled(w, step) && (step.Activate? || step.SqlActivate?)
    requires id in w.table.jobs && w.table.jobs[id].batchId == Some(batchId) && !Names(step, batchId)
    ensures id in Do(w, limits, step).table.jobs
  {
    hide JobsOk, IdempExact, ActivatedJob, BlankTaken;
  }

  lemma OthersKeepRows(w: World, limits: Limits, step: Step, id: Id, batchId: Id)
    requires WorldOk(w) && Enabled(w, step) && !(step.Stage? || step.SqlStage? || step.Activate? || step.SqlActivate?)
    requires id in w.table.jobs && w.table.jobs[id].batchId == Some(batchId) && id !in Do(w, limits, step).table.jobs
    ensures (step.Retain? && Terminal(w.table.jobs[id].state)) || Names(step, batchId)
            || (step.Restart? && batchId in w.table.batches && w.table.batches[batchId].status == Staging)
  {
    hide JobsOk, IdempExact, Maintained, Recovery.Swept, CancelInBatch, ReleasedByPrefix, CancelRow, Capacity, NewJob;
  }

  lemma {:induction false} StagedRowsAreOfBatch(t: Table, batchId: Id, jobs: seq<Job>, id: Id)
    requires TableOk(t) && batchId in t.batches && t.batches[batchId].status == Staging && Stageable(t, jobs)
    requires id !in t.jobs && id in StageEach(t, batchId, jobs).0.jobs
    ensures StageEach(t, batchId, jobs).0.jobs[id].batchId == Some(batchId)
    decreases |jobs|
  {
    hide NewJob, IdempExact, JobsOk, BatchesOk, Existing;
    if jobs != [] && StageFailure(t, batchId, jobs[0]).None? {
      StageStepOk(t, batchId, jobs);
      StagingOnlyAdds(Remember(t, jobs[0]), batchId, jobs[1..]);
      if id != jobs[0].jobId {
        StagedRowsAreOfBatch(Remember(t, jobs[0]), batchId, jobs[1..], id);
      }
    }
  }

  /** A row of the batch appears only when the batch's own submission stages it. */
  lemma RowAppears(w: World, limits: Limits, step: Step, id: Id, batchId: Id)
    requires WorldOk(w) && Enabled(w, step) && id !in w.table.jobs && id in Do(w, limits, step).table.jobs
    requires Do(w, limits, step).table.jobs[id].batchId == Some(batchId)
    ensures Stages(step, batchId) && Do(w, limits, step).table.jobs[id] in step.jobs
  {
    hide Do;
    AppearsFromStep(w, limits, step, id);
    hide TableOk, NewJob;
    if step.Stage? || step.SqlStage? {
      StagedIntoItsBatch(w, limits, step, id);
    }
  }

  lemma StagedIntoItsBatch(w: World, limits: Limits, step: Step, id: Id)
    requires WorldOk(w) && Enabled(w, step) && (step.Stage? || step.SqlStage?)
    requires id !in w.table.jobs && id in Do(w, limits, step).table.jobs
    ensures Do(w, limits, step).table.jobs[id].batchId == Some(step.batchId)
  {
    hide JobsOk, IdempExact, BatchesOk, StageEach, Capacity, NewJob;
    StageableIn(w, step.jobs);
    assert step.batchId in w.table.batches && w.table.batches[step.batchId].status == Staging;
    StagedRowsAreOfBatch(w.table, step.batchId, step.jobs, id);
  }

  /** Until its batch is activated a staged row is as it was built, or cancelled. */
  predicate Waits(input: Job, row: Job) {
    row == input || (SameIdentity(input, row) && row.state == Cancelled)
  }

  lemma WaitingMoves(t: Table, input: Job, row: Job, step: Step)
    requires NewJob(input) && input.state == JobState.Staged && Waits(input, row)
    requires input.batchId.Some? && !Names(step, input.batchId.value)
    ensures Waits(input, Moved(t, row, step))
  {
  }

  lemma LandedMoves(t: Table, row: Job, step: Step)
    requires row.state != JobState.Staged
    ensures Moved(t, row, step).state != JobState.Staged
  {
  }

  // While chunks are staged

  /** Each input so far waits in its row, unless retention has forgotten it. */
  ghost predicate Accounted(ws: seq<World>, steps: seq<Step>, input: Job, batchId: Id, k: nat)
    requires |ws| == |steps| + 1 && k <= |steps|
  {
    && NewJob(input) && input.batchId == Some(batchId)
    && if input.jobId in ws[k].table.jobs then Waits(input, ws[k].table.jobs[input.jobId])
      else Forgotten(ws, steps, input.jobId, k)
  }

  ghost predicate Underway(ws: seq<World>, steps: seq<Step>, inputs: seq<Job>, batchId: Id, k: nat)
    requires |ws| == |steps| + 1 && k <= |steps|
  {
    && (forall i :: 0 <= i < |inputs| ==>
        inputs[i].jobId in ws[k].issued && Accounted(ws, steps, inputs[i], batchId, k))
    && OnlyRowsOf(ws[k].table, batchId, inputs)
  }

  lemma ForgottenForGood(ws: seq<World>, steps: seq<Step>, limits: Limits, id: Id, k: nat)
    requires IsRun(ws, steps, limits) && k < |steps| && Forgotten(ws, steps, id, k) && id in ws[k].issued
      && id !in ws[k].table.jobs
    ensures Forgotten(ws, steps, id, k + 1) && id !in ws[k + 1].table.jobs
  {
    hide Do, Enabled, TableOk;
    var m :| 0 <= m < k && m < |steps| && ForgottenAt(ws, steps, id, m);
    assert ForgottenAt(ws, steps, id, m);
    if id in ws[k + 1].table.jobs {
      JobsAppearNew(ws[k], limits, steps[k], id);
    }
  }

  /** A step of someone else leaves every input accounted for. */
  lemma OthersAccount(ws: seq<World>, steps: seq<Step>, limits: Limits, input: Job, batchId: Id, k: nat)
    requires IsRun(ws, steps, limits) && k < |steps| && Accounted(ws, steps, input, batchId, k)
      && input.jobId in ws[k].issued
    requires batchId in ws[k + 1].table.batches && ws[k + 1].table.batches[batchId].status == Staging
    requires batchId in ws[k].table.batches && !Names(steps[k], batchId)
    ensures input.jobId in ws[k + 1].issued && Accounted(ws, steps, input, batchId, k + 1)
  {
    hide Do, Enabled, TableOk, Moved, NewJob, Waits, Forgotten, ForgottenAt;
    var w, step, id := ws[k], steps[k], input.jobId;
    assert ws[k + 1] == Do(w, limits, step);
    IssuedGrows(w, limits, step);
    StepMovesBatch(w, limits, step, batchId);
    if id !in w.table.jobs {
      ForgottenForGood(ws, steps, limits, id, k);
    } else {
      RowFits(w.table, input, w.table.jobs[id]);
      if id in ws[k + 1].table.jobs {
        StepMovesJob(w, limits, step, id);
        NewInBatchIsStaged(input);
        WaitingMoves(w.table, input, w.table.jobs[id], step);
      } else {
        RowVanishes(w, limits, step, id, batchId);
        ForgetsHere(ws, steps, id, k);
      }
    }
  }

  lemma ForgetsHere(ws: seq<World>, steps: seq<Step>, id: Id, k: nat)
    requires |ws| == |steps| + 1 && k < |steps| && steps[k].Retain? && id in ws[k].table.jobs
      && Terminal(ws[k].table.jobs[id].state)
    requires id !in ws[k + 1].table.jobs
    ensures Forgotten(ws, steps, id, k + 1)
  {
    assert ForgottenAt(ws, steps, id, k);
  }

  lemma RowFits(t: Table, input: Job, row: Job)
    requires Waits(input, row)
    ensures row.batchId == input.batchId && row.jobId == input.jobId
  {
  }

  lemma NewInBatchIsStaged(input: Job)
    requires NewJob(input) && input.batchId.Some?
    ensures input.state == JobState.Staged
  {
  }

  lemma OthersAddNoRows(w: World, limits: Limits, step: Step, batchId: Id, inputs: seq<Job>)
    requires WorldOk(w) && Enabled(w, step) && OnlyRowsOf(w.table, batchId, inputs) && !Stages(step, batchId)
    ensures OnlyRowsOf(Do(w, limits, step).table, batchId, inputs)
  {
    hide Do, Enabled, TableOk, Stages;
    var u := Do(w, limits, step).table;
    forall id | id in u.jobs && u.jobs[id].batchId == Some(batchId)
      ensures exists i :: 0 <= i < |inputs| && inputs[i].jobId == id {
      if id in w.table.jobs {
        StepKeepsIdentity(w, limits, step, id);
      } else {
        RowAppears(w, limits, step, id, batchId);
      }
    }
  }

  // A chunk that goes through

  lemma {:induction false} ChunkIsThere(t: Table, batchId: Id, jobs: seq<Job>)
    requires TableOk(t) && batchId in t.batches && t.batches[batchId].status == Staging && Stageable(t, jobs)
    requires StageEach(t, batchId, jobs).1.None?
    ensures var u := StageEach(t, batchId, jobs).0;
      forall i :: 0 <= i < |jobs| ==>
        jobs[i].jobId in u.jobs && u.jobs[jobs[i].jobId] == jobs[i] && jobs[i].batchId == Some(batchId)
    decreases |jobs|
  {
    hide NewJob, IdempExact, JobsOk, BatchesOk, Existing;
    if jobs != [] {
      StageStepOk(t, batchId, jobs);
      var v := Remember(t, jobs[0]);
      ChunkIsThere(v, batchId, jobs[1..]);
      StagingOnlyAdds(v, batchId, jobs[1..]);
      var u := StageEach(t, batchId, jobs).0;
      forall i | 0 <= i < |jobs|
        ensures jobs[i].jobId in u.jobs && u.jobs[jobs[i].jobId] == jobs[i] && jobs[i].batchId == Some(batchId)
      {
        if i > 0 { assert jobs[i] == jobs[1..][i - 1]; }
      }
    }
  }

  lemma StagedChunk(w: World, limits: Limits, step: Step, batchId: Id)
    requires WorldOk(w) && Enabled(w, step) && Stages(step, batchId) && WentThrough(w, limits, step)
    ensures var u := Do(w, limits, step);
      && (forall i :: 0 <= i < |step.jobs| ==>
            step.jobs[i].jobId in u.table.jobs && u.table.jobs[step.jobs[i].jobId] == step.jobs[i]
            && step.jobs[i].batchId == Some(batchId) && step.jobs[i].jobId in u.issued && NewJob(step.jobs[i]))
      && (forall id :: id in w.table.jobs ==> id in u.table.jobs && u.table.jobs[id] == w.table.jobs[id])
      && w.issued <= u.issued
  {
    hide JobsOk, IdempExact, BatchesOk, Capacity, StageEach;
    StageableIn(w, step.jobs);
    StagingOnlyAddsTo(w.table, limits, step.batchId, step.jobs);
    ChunkIsThere(w.table, batchId, step.jobs);
  }

  lemma ChunkJoins(ws: seq<World>, steps: seq<Step>, limits: Limits, inputs: seq<Job>, batchId: Id, k: nat)
    requires IsRun(ws, steps, limits) && k < |steps| && Underway(ws, steps, inputs, batchId, k)
    requires Stages(steps[k], batchId) && WentThrough(ws[k], limits, steps[k])
    ensures Underway(ws, steps, inputs + steps[k].jobs, batchId, k + 1)
  {
    hide Do, Enabled, TableOk, NewJob, Waits, Forgotten, WentThrough;
    var w, step := ws[k], steps[k];
    var more := inputs + step.jobs;
    assert ws[k + 1] == Do(w, limits, step);
    StagedChunk(w, limits, step, batchId);
    forall i | 0 <= i < |more|
      ensures more[i].jobId in ws[k + 1].issued && Accounted(ws, steps, more[i], batchId, k + 1) {
      if i < |inputs| {
        if inputs[i].jobId !in w.table.jobs { ForgottenForGood(ws, steps, limits, inputs[i].jobId, k); }
      } else {
        assert more[i] == step.jobs[i - |inputs|];
        AsBuilt(more[i]);
      }
    }
    ChunkAddsItsRows(w, limits, step, batchId, inputs);
  }

  lemma AsBuilt(input: Job)
    ensures Waits(input, input)
  {
  }

  lemma ChunkAddsItsRows(w: World, limits: Limits, step: Step, batchId: Id, inputs: seq<Job>)
    requires WorldOk(w) && Enabled(w, step) && Stages(step, batchId) && OnlyRowsOf(w.table, batchId, inputs)
    ensures OnlyRowsOf(Do(w, limits, step).table, batchId, inputs + step.jobs)
  {
    hide Do, Enabled, TableOk;
    var u, more := Do(w, limits, step).table, inputs + step.jobs;
    forall id | id in u.jobs && u.jobs[id].batchId == Some(batchId)
      ensures exists i :: 0 <= i < |more| && more[i].jobId == id {
      if id in w.table.jobs {
        StepKeepsIdentity(w, limits, step, id);
        var i :| 0 <= i < |inputs| && inputs[i].jobId == id;
        assert more[i].jobId == id;
      } else {
        RowAppears(w, limits, step, id, batchId);
        NamedByIds(w, limits, step, id);
        var i :| 0 <= i < |step.jobs| && step.jobs[i] == u.jobs[id];
        assert more[|inputs| + i].jobId == id;
      }
    }
  }

  lemma NamedByIds(w: World, limits: Limits, step: Step, id: Id)
    requires WorldOk(w) && Enabled(w, step) && id in Do(w, limits, step).table.jobs
    ensures Do(w, limits, step).table.jobs[id].jobId == id
  {
    hide Do, Enabled;
    DoKeepsOk(w, limits, step);
  }

  lemma BatchBegins(w: World, limits: Limits, step: Step, batchId: Id)
    requires WorldOk(w) && Enabled(w, step) && Begins(step, batchId)
    ensures var t := Do(w, limits, step).table;
      && OfBatch(t, batchId) == {} && (batchId in t.batches ==> t.batches[batchId].status == Staging)
      && (step.SqlBegin? ==> batchId in t.batches)
  {
    hide IdempExact;
    assert forall id :: id in w.table.jobs ==> FitsBatch(w.table.batches, w.table.jobs[id]);
  }

  /** As long as the batch is staging, whatever was staged is there. */
  lemma {:induction false} StagingStands(ws: seq<World>, steps: seq<Step>, limits: Limits, batchId: Id, b: nat, e: nat)
    requires StagedUpTo(ws, steps, limits, batchId, b, e)
    requires batchId in ws[e].table.batches && ws[e].table.batches[batchId].status == Staging
    ensures Underway(ws, steps, Inputs(steps, batchId, b + 1, e), batchId, e)
    decreases e
  {
    hide Do, Enabled, TableOk, Names, WentThrough, Begins, OfBatch, Accounted, OnlyRowsOf, Stages;
    if e == b + 1 {
      NothingStagedYet(ws, steps, limits, batchId, b);
    } else {
      var w, step := ws[e - 1], steps[e - 1];
      assert ws[e] == Do(w, limits, step);
      StagingBefore(w, limits, step, batchId);
      StagingStands(ws, steps, limits, batchId, b, e - 1);
      var inputs := Inputs(steps, batchId, b + 1, e - 1);
      if Names(step, batchId) {
        ChunkJoins(ws, steps, limits, inputs, batchId, e - 1);
      } else {
        OthersKeepUnderway(ws, steps, limits, inputs, batchId, e - 1);
        assert inputs + [] == inputs;
      }
    }
  }

  lemma NoRowsOf(t: Table, batchId: Id)
    requires OfBatch(t, batchId) == {}
    ensures OnlyRowsOf(t, batchId, [])
  {
    forall id | id in t.jobs ensures t.jobs[id].batchId != Some(batchId) { assert id !in OfBatch(t, batchId); }
  }

  lemma NothingStagedYet(ws: seq<World>, steps: seq<Step>, limits: Limits, batchId: Id, b: nat)
    requires IsRun(ws, steps, limits) && b < |steps| && Begins(steps[b], batchId)
    ensures Underway(ws, steps, [], batchId, b + 1)
  {
    hide Do, Enabled, TableOk, Begins;
    BatchBegins(ws[b], limits, steps[b], batchId);
    NoRowsOf(ws[b + 1].table, batchId);
  }

  lemma StagingBefore(w: World, limits: Limits, step: Step, batchId: Id)
    requires WorldOk(w) && Enabled(w, step)
    requires batchId in Do(w, limits, step).table.batches
      && Do(w, limits, step).table.batches[batchId].status == Staging
    requires Names(step, batchId) ==> Stages(step, batchId)
    ensures batchId in w.table.batches && w.table.batches[batchId].status == Staging
    ensures Names(step, batchId) <==> Stages(step, batchId)
  {
    hide JobsOk, IdempExact, StageJobs;
    if batchId in w.table.batches {
      StepMovesBatch(w, limits, step, batchId);
    } else {
      NoBatchAppears(w, limits, step, batchId);
    }
  }

  lemma NoBatchAppears(w: World, limits: Limits, step: Step, batchId: Id)
    requires WorldOk(w) && Enabled(w, step) && batchId !in w.table.batches
    requires step.Begin? || step.SqlBegin? ==> step.batch.batchId != batchId
    ensures batchId !in Do(w, limits, step).table.batches
  {
    hide JobsOk, IdempExact, Capacity, StageEach, NewJob, BlankTaken, ActivateBatch, ActivateSql, StageJobs, StageWhole;
    if step.Stage? || step.SqlStage? {
      StageableIn(w, step.jobs);
      StagingAddsNoBatch(w.table, limits, step, batchId);
    }
    if step.Activate? || step.SqlActivate? {
      ActivationAddsNoBatch(w.table, step, batchId);
    }
  }

  lemma StagingAddsNoBatch(t: Table, limits: Limits, step: Step, batchId: Id)
    requires TableOk(t) && (step.Stage? || step.SqlStage?) && Stageable(t, step.jobs) && batchId !in t.batches
    ensures batchId !in StageJobs(t, limits, step.batchId, step.jobs).0.batches
    ensures batchId !in StageWhole(t, limits, step.batchId, step.jobs).0.batches
  {
  }

  lemma ActivationAddsNoBatch(t: Table, step: Step, batchId: Id)
    requires BatchesOk(t) && (step.Activate? || step.SqlActivate?) && batchId !in t.batches
    ensures batchId !in ActivateBatch(t, step.batchId, step.key, step.hash, step.now).0.batches
    ensures batchId !in ActivateSql(t, step.batchId, step.key, step.hash, step.now).0.batches
  {
  }

  lemma OthersKeepUnderway(ws: seq<World>, steps: seq<Step>, limits: Limits, inputs: seq<Job>, batchId: Id, k: nat)
    requires IsRun(ws, steps, limits) && k < |steps| && Underway(ws, steps, inputs, batchId, k)
      && !Names(steps[k], batchId)
    requires batchId in ws[k].table.batches
    requires batchId in ws[k + 1].table.batches && ws[k + 1].table.batches[batchId].status == Staging
    ensures Underway(ws, steps, inputs, batchId, k + 1)
  {
    hide Do, Enabled, TableOk, Accounted, OnlyRowsOf;
    forall i | 0 <= i < |inputs|
      ensures inputs[i].jobId in ws[k + 1].issued && Accounted(ws, steps, inputs[i], batchId, k + 1) {
      OthersAccount(ws, steps, limits, inputs[i], batchId, k);
    }
    OthersAddNoRows(ws[k], limits, steps[k], batchId, inputs);
  }

  // Before the end

  ghost predicate NotActive(t: Table, batchId: Id) {
    batchId in t.batches ==> t.batches[batchId].status != Active
  }

  ghost predicate Gone(t: Table, batchId: Id) {
    batchId in t.batches ==> t.batches[batchId].status == Aborted
  }

  lemma GoneMeansNothing(t: Table, batchId: Id)
    requires TableOk(t) && Gone(t, batchId)
    ensures NothingLeft(t, batchId)
  {
  }

  /** Calls of the submission that do not end it. */
  ghost predicate GoesOn(w: World, step: Step, batchId: Id)
    requires WorldOk(w)
  {
    !Names(step, batchId) || Stages(step, batchId) || (Finishes(step, batchId) && Refused(w, step))
  }

  lemma GoingOn(w: World, limits: Limits, step: Step, batchId: Id)
    requires WorldOk(w) && Enabled(w, step) && GoesOn(w, step, batchId)
    ensures NotActive(w.table, batchId) ==> NotActive(Do(w, limits, step).table, batchId)
    ensures Gone(w.table, batchId) ==> Gone(Do(w, limits, step).table, batchId)
    ensures step.Restart? && NotActive(w.table, batchId) ==> Gone(Do(w, limits, step).table, batchId)
  {
    hide Do, Enabled, TableOk, GoesOn;
    if batchId !in w.table.batches {
      assert step.Begin? || step.SqlBegin? ==> step.batch.batchId != batchId by { NoSecondBegin(w, step, batchId); }
      NoBatchAppears(w, limits, step, batchId);
    } else {
      StepMovesBatch(w, limits, step, batchId);
      if Names(step, batchId) {
        OwnCallKeepsStatus(w, limits, step, batchId);
      }
    }
  }

  lemma NoSecondBegin(w: World, step: Step, batchId: Id)
    requires WorldOk(w) && GoesOn(w, step, batchId)
    ensures step.Begin? || step.SqlBegin? ==> step.batch.batchId != batchId
  {
  }

  lemma OwnCallKeepsStatus(w: World, limits: Limits, step: Step, batchId: Id)
    requires WorldOk(w) && Enabled(w, step) && GoesOn(w, step, batchId) && Names(step, batchId)
      && batchId in w.table.batches
    ensures var t := Do(w, limits, step).table;
      batchId in t.batches && t.batches[batchId].status == w.table.batches[batchId].status
  {
    hide JobsOk, IdempExact, Capacity, StageEach;
    if Stages(step, batchId) {
      StageableIn(w, step.jobs);
      StageEachBatches(w.table, limits, step);
    }
  }

  lemma StageEachBatches(t: Table, limits: Limits, step: Step)
    requires TableOk(t) && (step.Stage? || step.SqlStage?) && Stageable(t, step.jobs)
    ensures var u := StageJobs(t, limits, step.batchId, step.jobs).0;
      step.batchId in t.batches ==>
        step.batchId in u.batches && u.batches[step.batchId].status == t.batches[step.batchId].status
  {
  }

  lemma {:induction false} NotYetActive(ws: seq<World>, steps: seq<Step>, limits: Limits, batchId: Id, b: nat, k: nat)
    requires IsRun(ws, steps, limits) && b < k <= |steps| && Begins(steps[b], batchId)
    requires forall m :: b < m < k ==> GoesOn(ws[m], steps[m], batchId)
    ensures NotActive(ws[k].table, batchId)
    ensures (exists m :: b < m < k && steps[m].Restart?) ==> Gone(ws[k].table, batchId)
    decreases k
  {
    hide Do, Enabled, TableOk, GoesOn, NotActive, Gone, Begins;
    if k == b + 1 {
      BeginsStaging(ws[b], limits, steps[b], batchId);
    } else {
      NotYetActive(ws, steps, limits, batchId, b, k - 1);
      GoingOn(ws[k - 1], limits, steps[k - 1], batchId);
      assert ws[k] == Do(ws[k - 1], limits, steps[k - 1]);
    }
  }

  lemma BeginsStaging(w: World, limits: Limits, step: Step, batchId: Id)
    requires WorldOk(w) && Enabled(w, step) && Begins(step, batchId)
    ensures NotActive(Do(w, limits, step).table, batchId)
  {
  }

  lemma StagingGoesOn(ws: seq<World>, steps: seq<Step>, limits: Limits, batchId: Id, b: nat, e: nat)
    requires StagedUpTo(ws, steps, limits, batchId, b, e)
    ensures forall m :: b < m < e ==> GoesOn(ws[m], steps[m], batchId)
  {
  }

  /** At no point before the end can anyone claim a job of the batch, and after a
      crash and a restart on the way nothing of it is left. */
  lemma NobodyClaimsEarly(ws: seq<World>, steps: seq<Step>, limits: Limits, batchId: Id, b: nat, k: nat, now: int)
    requires IsRun(ws, steps, limits) && b < k <= |steps| && Begins(steps[b], batchId)
    requires forall m :: b < m < k ==> GoesOn(ws[m], steps[m], batchId)
    ensures forall id :: id in ClaimableIds(ws[k].table, now) ==> ws[k].table.jobs[id].batchId != Some(batchId)
    ensures (exists m :: b < m < k && steps[m].Restart?) ==> NothingLeft(ws[k].table, batchId)
  {
    hide Do, Enabled, TableOk, GoesOn, Gone, NothingLeft, Begins;
    NotYetActive(ws, steps, limits, batchId, b, k);
    if Gone(ws[k].table, batchId) {
      GoneMeansNothing(ws[k].table, batchId);
    }
  }

  // The end

  lemma ActivationLands(w: World, limits: Limits, step: Step, batchId: Id)
    requires WorldOk(w) && Finishes(step, batchId) && Answered(w, step, false) && NotActive(w.table, batchId)
    ensures batchId in w.table.batches && w.table.batches[batchId].status == Staging
    ensures var t := Do(w, limits, step).table;
      && batchId in t.batches && t.batches[batchId].status == Active
        && t.jobs == WithQueued(w.table.jobs, batchId, step.now)
  {
  }

  lemma ReplayDrops(w: World, limits: Limits, step: Step, batchId: Id)
    requires WorldOk(w) && Finishes(step, batchId) && Answered(w, step, true) && NotActive(w.table, batchId)
    ensures Gone(Do(w, limits, step).table, batchId)
  {
  }

  lemma AbortDrops(w: World, limits: Limits, step: Step, batchId: Id)
    requires WorldOk(w) && GivesUp(step, batchId) && NotActive(w.table, batchId)
    ensures Gone(Do(w, limits, step).table, batchId)
  {
  }

  lemma {:induction false} GoneStays(ws: seq<World>, steps: seq<Step>, limits: Limits, batchId: Id, e: nat, k: nat)
    requires IsRun(ws, steps, limits) && e <= k <= |steps| && Gone(ws[e].table, batchId) && LeftAlone(steps, batchId, e)
    ensures Gone(ws[k].table, batchId)
    decreases k
  {
    hide Do, Enabled, TableOk, Gone, Names;
    if e < k {
      GoneStays(ws, steps, limits, batchId, e, k - 1);
      GoingOn(ws[k - 1], limits, steps[k - 1], batchId);
      assert ws[k] == Do(ws[k - 1], limits, steps[k - 1]);
    }
  }

  // After the end

  /** With the ids that will never be used again. */
  ghost predicate Stood(ws: seq<World>, steps: seq<Step>, batchId: Id, inputs: seq<Job>, k: nat)
    requires |ws| == |steps| + 1 && k <= |steps|
  {
    AllThere(ws, steps, batchId, inputs, k)
    && forall i :: 0 <= i < |inputs| ==> inputs[i].jobId in ws[k].issued && inputs[i].batchId == Some(batchId)
  }

  lemma QueuedRow(input: Job, row: Job, batchId: Id, now: int)
    requires NewJob(input) && input.batchId == Some(batchId) && Waits(input, row)
    ensures var next := ActivatedJob(row, batchId, now);
      SameIdentity(input, next) && (next == Queueing(input, now) || (next == row && row.state == Cancelled))
  {
  }

  lemma LandsNow(ws: seq<World>, steps: seq<Step>, limits: Limits, inputs: seq<Job>, batchId: Id, e: nat)
    requires IsRun(ws, steps, limits) && e < |steps| && Underway(ws, steps, inputs, batchId, e)
    requires Finishes(steps[e], batchId) && Answered(ws[e], steps[e], false) && NotActive(ws[e].table, batchId)
    ensures Stood(ws, steps, batchId, inputs, e + 1)
    ensures forall i :: 0 <= i < |inputs| && inputs[i].jobId in ws[e + 1].table.jobs ==>
      var row := ws[e + 1].table.jobs[inputs[i].jobId];
        row == Queueing(inputs[i], steps[e].now) || row.state == Cancelled
  {
    hide Do, Enabled, TableOk, NewJob, Waits, SameIdentity, Forgotten, ActivatedJob, Answered, NotActive;
    var w, step := ws[e], steps[e];
    ActivationLands(w, limits, step, batchId);
    assert ws[e + 1] == Do(w, limits, step);
    IssuedGrows(w, limits, step);
    forall i | 0 <= i < |inputs|
      ensures Landed(ws, steps, inputs[i], e + 1)
      ensures inputs[i].jobId in ws[e + 1].table.jobs ==>
        var row := ws[e + 1].table.jobs[inputs[i].jobId]; row == Queueing(inputs[i], step.now) || row.state == Cancelled
    {
      var id := inputs[i].jobId;
      if id in w.table.jobs {
        QueuedRow(inputs[i], w.table.jobs[id], batchId, step.now);
      } else {
        ForgottenForGood(ws, steps, limits, id, e);
      }
    }
    OthersAddNoRows(w, limits, step, batchId, inputs);
  }

  lemma OthersLeaveLanded(ws: seq<World>, steps: seq<Step>, limits: Limits, batchId: Id, input: Job, k: nat)
    requires IsRun(ws, steps, limits) && k < |steps| && Landed(ws, steps, input, k) && !Names(steps[k], batchId)
    requires input.jobId in ws[k].issued && input.batchId == Some(batchId)
    requires batchId in ws[k].table.batches && ws[k].table.batches[batchId].status == Active
    ensures Landed(ws, steps, input, k + 1)
  {
    hide Do, Enabled, TableOk, Moved, SameIdentity, Forgotten;
    var w, step, id := ws[k], steps[k], input.jobId;
    assert ws[k + 1] == Do(w, limits, step);
    if id !in w.table.jobs {
      ForgottenForGood(ws, steps, limits, id, k);
    } else {
      var row := w.table.jobs[id];
      SameBatch(input, row);
      if id in ws[k + 1].table.jobs {
        StepMovesJob(w, limits, step, id);
        MovedKeepsIdentity(w.table, row, step);
        IdentityChains(input, row, Moved(w.table, row, step));
        LandedMoves(w.table, row, step);
      } else {
        RowVanishes(w, limits, step, id, batchId);
        ForgetsHere(ws, steps, id, k);
      }
    }
  }

  lemma SameBatch(a: Job, b: Job)
    requires SameIdentity(a, b)
    ensures a.batchId == b.batchId
  {
  }

  lemma {:induction false} StandsFrom(ws: seq<World>, steps: seq<Step>, limits: Limits, batchId: Id, inputs: seq<Job>,
                                      e: nat, k: nat)
    requires IsRun(ws, steps, limits) && e <= k <= |steps| && Stood(ws, steps, batchId, inputs, e)
      && LeftAlone(steps, batchId, e)
    ensures Stood(ws, steps, batchId, inputs, k)
    decreases k
  {
    hide Do, Enabled, TableOk, Names, Landed, OnlyRowsOf;
    if e < k {
      StandsFrom(ws, steps, limits, batchId, inputs, e, k - 1);
      var w, step := ws[k - 1], steps[k - 1];
      assert ws[k] == Do(w, limits, step);
      StepMovesBatch(w, limits, step, batchId);
      IssuedGrows(w, limits, step);
      forall i | 0 <= i < |inputs| ensures Landed(ws, steps, inputs[i], k) {
        OthersLeaveLanded(ws, steps, limits, batchId, inputs[i], k - 1);
      }
      assert !Stages(step, batchId) by { NotNamed(step, batchId); }
      OthersAddNoRows(w, limits, step, batchId, inputs);
    }
  }

  lemma NotNamed(step: Step, batchId: Id)
    requires !Names(step, batchId)
    ensures !Stages(step, batchId)
  {
  }

  /** The step that activates the batch queues every input as it was built, but for
      those that were cancelled or forgotten on the way. */
  lemma ActivatedInOneStep(ws: seq<World>, steps: seq<Step>, limits: Limits, batchId: Id, b: nat, e: nat)
    requires Completed(ws, steps, limits, batchId, b, e)
    ensures forall input :: input in Inputs(steps, batchId, b + 1, e) && input.jobId in ws[e + 1].table.jobs ==>
      var row := ws[e + 1].table.jobs[input.jobId]; row == Queueing(input, steps[e].now) || row.state == Cancelled
  {
    hide Do, Enabled, TableOk, Names, Begins, WentThrough, Stages, Answered, Underway, GoesOn;
    StagingGoesOn(ws, steps, limits, batchId, b, e);
    NotYetActive(ws, steps, limits, batchId, b, e);
    ActivationLands(ws[e], limits, steps[e], batchId);
    StagingStands(ws, steps, limits, batchId, b, e);
    LandsNow(ws, steps, limits, Inputs(steps, batchId, b + 1, e), batchId, e);
  }

  /** A completed submission: from its activation on, all inputs are there. */
  lemma CompletedIsAllThere(ws: seq<World>, steps: seq<Step>, limits: Limits, batchId: Id, b: nat, e: nat, k: nat)
    requires Completed(ws, steps, limits, batchId, b, e) && e < k <= |steps|
    ensures AllThere(ws, steps, batchId, Inputs(steps, batchId, b + 1, e), k)
  {
    hide Do, Enabled, TableOk, Names, Begins, WentThrough, Stages, Answered, Underway, AllThere, GoesOn;
    StagingGoesOn(ws, steps, limits, batchId, b, e);
    NotYetActive(ws, steps, limits, batchId, b, e);
    ActivationLands(ws[e], limits, steps[e], batchId);
    StagingStands(ws, steps, limits, batchId, b, e);
    LandsNow(ws, steps, limits, Inputs(steps, batchId, b + 1, e), batchId, e);
    StandsFrom(ws, steps, limits, batchId, Inputs(steps, batchId, b + 1, e), e + 1, k);
  }

  lemma DroppedIsNothing(ws: seq<World>, steps: seq<Step>, limits: Limits, batchId: Id, b: nat, e: nat, k: nat)
    requires Replayed(ws, steps, limits, batchId, b, e) || GivenUp(ws, steps, limits, batchId, b, e)
    requires e < k <= |steps|
    ensures NothingLeft(ws[k].table, batchId)
  {
    hide Do, Enabled, TableOk, Names, Begins, WentThrough, Stages, Answered, Refused, Gone, NotActive, NothingLeft;
    hide Finishes;
    hide GivesUp;
    assert forall m :: b < m < e ==> GoesOn(ws[m], steps[m], batchId);
    NotYetActive(ws, steps, limits, batchId, b, e);
    assert ws[e + 1] == Do(ws[e], limits, steps[e]);
    if Replayed(ws, steps, limits, batchId, b, e) {
      ReplayDrops(ws[e], limits, steps[e], batchId);
    } else {
      AbortDrops(ws[e], limits, steps[e], batchId);
    }
    GoneStays(ws, steps, limits, batchId, e + 1, k);
    GoneMeansNothing(ws[k].table, batchId);
  }

  /** Batch atomicity. However the submission ended, and whatever anyone else does
      during it and afterwards, all of its inputs are there or nothing of it is. */
  lemma AllOrNothing(ws: seq<World>, steps: seq<Step>, limits: Limits, batchId: Id, b: nat, e: nat, k: nat)
    requires Completed(ws, steps, limits, batchId, b, e) || Replayed(ws, steps, limits, batchId, b, e)
             || GivenUp(ws, steps, limits, batchId, b, e)
    requires e < k <= |steps|
    ensures if Completed(ws, steps, limits, batchId, b, e)
      then AllThere(ws, steps, batchId, Inputs(steps, batchId, b + 1, e), k)
            else NothingLeft(ws[k].table, batchId)
  {
    hide Completed, Replayed, GivenUp, AllThere, NothingLeft;
    if Completed(ws, steps, limits, batchId, b, e) {
      CompletedIsAllThere(ws, steps, limits, batchId, b, e, k);
    } else {
      DroppedIsNothing(ws, steps, limits, batchId, b, e, k);
    }
  }

  /** Inputs numbered as the service numbers them are at their ordinals, one row each. */
  lemma RowsAreInOrder(ws: seq<World>, steps: seq<Step>, batchId: Id, inputs: seq<Job>, k: nat, id: Id)
    requires |ws| == |steps| + 1 && k <= |steps| && AllThere(ws, steps, batchId, inputs, k)
    requires forall i :: 0 <= i < |inputs| ==> inputs[i].batchOrdinal == Some(i)
    requires id in ws[k].table.jobs && ws[k].table.jobs[id].batchId == Some(batchId)
    ensures var n := ws[k].table.jobs[id].batchOrdinal; n.Some? && n.value < |inputs| && inputs[n.value].jobId == id
  {
  }
}
