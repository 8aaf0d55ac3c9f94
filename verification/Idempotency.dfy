/** What idempotency keys guarantee in every run, whatever happens in between. */
module Idempotency {
  import opened Types
  import opened JobTables
  import opened SqlTables
  import opened QueueRuns
  import opened LeaseRuns

  // Job keys

  /** In every state of every run the lookup finds a key exactly when one retained job
      carries it, and then that job. */
  lemma KeysAreExact(ws: seq<World>, steps: seq<Step>, limits: Limits, i: nat, key: Key)
    requires IsPlainRun(ws, steps, limits) && i <= |steps|
    ensures var t := ws[i].table;
      && (key in t.idemp <==> exists id :: id in t.jobs && JobKey(t.jobs[id]) == Some(key))
      && (forall id :: id in t.jobs && JobKey(t.jobs[id]) == Some(key) ==> t.idemp[key] == id)
  {
    RunsStayOk(ws, steps, limits);
    LookupIsExact(ws[i].table, key);
  }

  lemma LookupIsExact(t: Table, key: Key)
    requires TableOk(t)
    ensures key in t.idemp <==> exists id :: id in t.jobs && JobKey(t.jobs[id]) == Some(key)
    ensures forall id :: id in t.jobs && JobKey(t.jobs[id]) == Some(key) ==> t.idemp[key] == id
  {
  }

  /** As long as a job is retained its row is that of the same job, and once it is
      forgotten its id never comes back. */
  lemma {:induction false} RowsKeepIdentity(ws: seq<World>, steps: seq<Step>, limits: Limits, i: nat, k: nat, id: Id)
    requires IsRun(ws, steps, limits) && i <= k <= |steps| && id in ws[i].table.jobs
    ensures id in ws[k].issued
    ensures id in ws[k].table.jobs ==> SameIdentity(ws[i].table.jobs[id], ws[k].table.jobs[id])
    decreases k
  {
    hide Do, Enabled, TableOk, SameIdentity;
    if i == k {
      SameJob(ws[i].table.jobs[id]);
    } else {
      var w, step := ws[k - 1], steps[k - 1];
      RowsKeepIdentity(ws, steps, limits, i, k - 1, id);
      IssuedGrows(w, limits, step);
      if id in ws[k].table.jobs {
        if id in w.table.jobs {
          StepKeepsIdentity(w, limits, step, id);
          IdentityChains(ws[i].table.jobs[id], w.table.jobs[id], ws[k].table.jobs[id]);
        } else {
          JobsAppearNew(w, limits, step, id);
        }
      }
    }
  }

  /** A job submitted under the key of a retained job changes nothing: with the same
      payload the original is the answer, with another it is refused. */
  lemma ResubmissionChangesNothing(t: Table, limits: Limits, job: Job, id: Id)
    requires TableOk(t) && id in t.jobs && JobKey(job).Some? && JobKey(t.jobs[id]) == JobKey(job)
    ensures Enqueue(t, limits, job) == (t, ReplayOf(t.jobs[id], job))
  {
  }

  lemma KeyIsIdentity(a: Job, b: Job, job: Job)
    requires SameIdentity(a, b)
    ensures JobKey(a) == JobKey(b) && ReplayOf(b, job) == if a.idempotencyHash == job.idempotencyHash
      then Ok(Receipt(b, true)) else Err(Conflict(a.jobId))
  {
  }

  /** Once a keyed job is in the queue, and for as long as it is retained, whatever
      else runs, every job submitted under its key leaves the queue as it is: the
      answer is the first job as it now stands, or a conflict by payload. */
  lemma SubmissionIsIdempotent(ws: seq<World>, steps: seq<Step>, limits: Limits, i: nat, k: nat, id: Id, again: Job)
    requires IsRun(ws, steps, limits) && i <= k < |steps| && steps[k] == Submit(again)
    requires id in ws[i].table.jobs && id in ws[k].table.jobs
    requires JobKey(again).Some? && JobKey(ws[i].table.jobs[id]) == JobKey(again)
    ensures ws[k + 1].table == ws[k].table
    ensures Enqueue(ws[k].table, limits, again).1
      == if ws[i].table.jobs[id].idempotencyHash == again.idempotencyHash
         then Ok(Receipt(ws[k].table.jobs[id], true)) else Err(Conflict(id))
  {
    hide JobsOk, BatchesOk, IdempExact, Enabled, SameIdentity, Enqueue, ReplayOf;
    RowsKeepIdentity(ws, steps, limits, i, k, id);
    KeyIsIdentity(ws[i].table.jobs[id], ws[k].table.jobs[id], again);
    ResubmissionChangesNothing(ws[k].table, limits, again, id);
    IdsMatch(ws[i].table, id);
  }

  /** So of all submissions under one key at most one is stored, until retention or
      an abort has removed the job it stored. */
  lemma KeyIsStoredOnce(ws: seq<World>, steps: seq<Step>, limits: Limits, i: nat, k: nat, first: Job, again: Job)
    requires IsRun(ws, steps, limits) && i < k < |steps| && steps[i] == Submit(first) && steps[k] == Submit(again)
    requires JobKey(first).Some? && JobKey(again) == JobKey(first)
    requires Enqueue(ws[i].table, limits, first).1 == Ok(Receipt(first, false))
    requires Enqueue(ws[k].table, limits, again).1 == Ok(Receipt(again, false))
    ensures first.jobId in ws[i + 1].table.jobs && first.jobId !in ws[k].table.jobs
  {
    hide JobsOk, BatchesOk, IdempExact, Enabled;
    assert ws[i + 1] == Do(ws[i], limits, steps[i]);
    StoredIsThere(ws[i].table, limits, first);
    hide Do, Enqueue;
    if first.jobId in ws[k].table.jobs {
      SubmissionIsIdempotent(ws, steps, limits, i + 1, k, first.jobId, again);
    }
  }

  lemma StoredIsThere(t: Table, limits: Limits, job: Job)
    requires IdempExact(t) && Enqueue(t, limits, job).1 == Ok(Receipt(job, false))
    ensures var u := Enqueue(t, limits, job).0; job.jobId in u.jobs && u.jobs[job.jobId] == job
  {
  }

  // Batch keys

  /** A batch once active keeps its key and payload for as long as it is active. */
  lemma {:induction false} ActiveBatchStays(ws: seq<World>, steps: seq<Step>, limits: Limits, i: nat, k: nat, b: Id)
    requires IsRun(ws, steps, limits) && i <= k <= |steps|
    requires b in ws[i].table.batches && ws[i].table.batches[b].status == Active
    ensures b in ws[k].table.batches
    ensures ws[k].table.batches[b] == ws[i].table.batches[b] || ws[k].table.batches[b].status == Aborted
    decreases k
  {
    hide Do, Enabled, WorldOk;
    if i < k {
      ActiveBatchStays(ws, steps, limits, i, k - 1, b);
      StepMovesBatch(ws[k - 1], limits, steps[k - 1], b);
    }
  }

  /** A second batch activated under the key of a first: with the same payload it is
      dropped and the first is the answer, with another it is refused and stays as it
      was. So in both stores. */
  lemma SecondActivationYields(t: Table, first: Id, second: Id, key: string, hash: Option<string>, now: int)
    requires TableOk(t) && first in t.batches && second in t.batches && t.batches[second].status == Staging
    requires key != "" && BatchKey(t.batches[first]) == Some((t.batches[second].clientId, key))
    ensures ActivateBatch(t, second, Some(key), hash, now)
      == if t.batches[first].idempotencyHash == hash
        then (AbortBatch(t, second), Ok(BatchReceipt(t.batches[first], true)))
         else (t, Err(Conflict(first)))
    ensures ActivateSql(t, second, Some(key), hash, now)
      == if t.batches[first].idempotencyHash == hash
        then (AbortRows(t, second), Ok(BatchReceipt(t.batches[first], true)))
         else (t, Err(Conflict(first)))
  {
  }

  lemma KeyedIsActive(t: Table, b: Id)
    requires BatchesOk(t) && b in t.batches && BatchKey(t.batches[b]).Some?
    ensures t.batches[b].status == Active && t.batches[b].batchId == b
      && t.batchIdemp[BatchKey(t.batches[b]).value] == b
  {
  }

  predicate ActivatesAs(step: Step, batchId: Id, key: string, hash: Option<string>) {
    (step.Activate? || step.SqlActivate?) && step.batchId == batchId && step.key == Some(key) && step.hash == hash
  }

  ghost function ActivationAnswer(t: Table, step: Step): Result<BatchReceipt>
    requires BatchesOk(t) && (step.Activate? || step.SqlActivate?)
  {
    if step.Activate? then ActivateBatch(t, step.batchId, step.key, step.hash, step.now).1
    else ActivateSql(t, step.batchId, step.key, step.hash, step.now).1
  }

  /** Once a batch is active under a key, and for as long as it is, no other batch of
      the client becomes active under that key, whatever else runs: with the same
      payload the first batch is the answer and nothing of the second is left, with
      another payload the second is refused. */
  lemma BatchSubmissionIsIdempotent(ws: seq<World>, steps: seq<Step>, limits: Limits, i: nat, k: nat, first: Id,
                                    second: Id, key: string, hash: Option<string>)
    requires IsRun(ws, steps, limits) && i <= k < |steps| && ActivatesAs(steps[k], second, key, hash)
    requires first in ws[i].table.batches && ws[i].table.batches[first].status == Active
    requires first in ws[k].table.batches && ws[k].table.batches[first].status == Active
    requires second in ws[k].table.batches && ws[k].table.batches[second].status == Staging
    requires key != "" && BatchKey(ws[i].table.batches[first]) == Some((ws[k].table.batches[second].clientId, key))
    ensures ActivationAnswer(ws[k].table, steps[k])
      == if ws[i].table.batches[first].idempotencyHash == hash then Ok(BatchReceipt(ws[i].table.batches[first], true))
        else Err(Conflict(first))
    ensures ws[i].table.batches[first].idempotencyHash != hash ==> ws[k + 1].table == ws[k].table
    ensures ws[i].table.batches[first].idempotencyHash == hash ==>
      second in ws[k + 1].table.batches && ws[k + 1].table.batches[second].status == Aborted
        && OfBatch(ws[k + 1].table, second) == {}
  {
    hide JobsOk, BatchesOk, IdempExact, Enabled, ActivateBatch, ActivateSql, BatchKey;
    ActiveBatchStays(ws, steps, limits, i, k, first);
    var t := ws[k].table;
    SecondActivationYields(t, first, second, key, hash, steps[k].now);
    DroppedIsEmpty(t, second);
    assert ws[k + 1] == Do(ws[k], limits, steps[k]);
  }

  lemma DroppedIsEmpty(t: Table, b: Id)
    requires b in t.batches && t.batches[b].status == Staging
    ensures b in AbortBatch(t, b).batches && AbortBatch(t, b).batches[b].status == Aborted
      && OfBatch(AbortBatch(t, b), b) == {}
    ensures b in AbortRows(t, b).batches && AbortRows(t, b).batches[b].status == Aborted
      && OfBatch(AbortRows(t, b), b) == {}
  {
  }

  /** At most one batch is active under a key, in every state of every run. */
  lemma OneBatchPerKey(ws: seq<World>, steps: seq<Step>, limits: Limits, i: nat, a: Id, b: Id)
    requires IsPlainRun(ws, steps, limits) && i <= |steps| && a in ws[i].table.batches && b in ws[i].table.batches
    requires BatchKey(ws[i].table.batches[a]).Some?
      && BatchKey(ws[i].table.batches[a]) == BatchKey(ws[i].table.batches[b])
    ensures a == b && ws[i].table.batches[a].status == Active
  {
    RunsStayOk(ws, steps, limits);
    KeyedIsActive(ws[i].table, a);
    KeyedIsActive(ws[i].table, b);
  }

  // Inactive batches

  /** A job of a batch that is not active is staged or cancelled, so no worker can
      have it, in any state of any run. */
  lemma InactiveJobsWait(ws: seq<World>, steps: seq<Step>, limits: Limits, i: nat, id: Id, now: int)
    requires IsPlainRun(ws, steps, limits) && i < |ws| && id in ws[i].table.jobs
    requires !BatchActive(ws[i].table.batches, ws[i].table.jobs[id].batchId)
    ensures ws[i].table.jobs[id].state == Staged || ws[i].table.jobs[id].state == Cancelled
    ensures id !in ClaimableIds(ws[i].table, now)
  {
    RunsStayOk(ws, steps, limits);
    InactiveRowWaits(ws[i].table, id);
  }

  lemma InactiveRowWaits(t: Table, id: Id)
    requires JobsOk(t) && id in t.jobs && !BatchActive(t.batches, t.jobs[id].batchId)
    ensures t.jobs[id].state == Staged || t.jobs[id].state == Cancelled
  {
  }
}
