/** The in-memory backend: job and batch tables, idempotency lookups and the ready
    index, changed in place. Every method is proved against its table transition
    and keeps index and table in agreement. */
module MemoryBackends {
  import opened Types
  import opened Picker
  import opened ReadyIndexes
  import opened ClaimRuns
  import opened JobTables
  import opened IndexAgreement
  import opened NativeBatches
  import opened JobOrder
  import opened Outcomes
  import opened RowChoices
  import Recovery

  class MemoryBackend {
    const limits: Limits
    const index: ReadyIndex
    var jobs: map<Id, Job>
    var batches: map<Id, Batch>
    var idemp: map<Key, Id>
    var batchIdemp: map<Key, Id>
    ghost var issued: set<Id>
    ghost var clock: int

    function Rows(): Table
      reads this
    {
      Table(jobs, batches, idemp, batchIdemp)
    }

    ghost predicate Valid()
      reads this, index
    {
      index.Valid() && Good(Rows(), index.meta, index.births, issued, clock)
    }

    constructor (limits: Limits)
      ensures Valid() && Rows() == EMPTY && this.limits == limits && fresh(index)
    {
      this.limits := limits;
      index := new ReadyIndex();
      jobs, batches, idemp, batchIdemp := map[], map[], map[], map[];
      issued, clock := {}, 0;
    }

    // One job

    /** Replaces a job that is not in the index, before or after. */
    method Update(job: Job)
      requires Valid() && job.jobId in jobs && SameIdentity(jobs[job.jobId], job)
      requires JobOk(job) && FitsBatch(batches, job) && job.state != Queued && job.jobId !in index.meta
      requires Held(job.state) ==> Due(job.notBefore, clock)
      modifies this`jobs
      ensures Valid() && Rows() == Put(old(Rows()), job)
    {
      hide TableOk, Agrees, BirthsOk, GoodHeaps, GoodLive;
      PutKeepsGood(Rows(), index.meta, index.births, issued, clock, job, index.meta, index.births);
      jobs := jobs[job.jobId := job];
    }

    /** Takes a job out of the index as it leaves the queue. */
    method Leave(job: Job)
      requires Valid() && job.jobId in jobs && SameIdentity(jobs[job.jobId], job)
      requires JobOk(job) && FitsBatch(batches, job) && job.state != Queued
      requires Held(job.state) ==> Due(job.notBefore, clock)
      modifies this`jobs, index
      ensures Valid() && Rows() == Put(old(Rows()), job)
      ensures index.meta == old(index.meta) - {job.jobId}
    {
      hide TableOk, Agrees, BirthsOk, GoodHeaps, GoodLive;
      PutKeepsGood(Rows(), index.meta, index.births, issued, clock, job, index.meta - {job.jobId}, index.births);
      index.Remove(job.jobId);
      jobs := jobs[job.jobId := job];
    }

    /** Puts a job in the index as it enters the queue. */
    method Join(job: Job)
      requires Valid() && job.jobId in jobs && SameIdentity(jobs[job.jobId], job)
      requires JobOk(job) && FitsBatch(batches, job) && job.state == Queued && Due(job.notBefore, clock)
      modifies this`jobs, index
      ensures Valid() && Rows() == Put(old(Rows()), job)
    {
      hide TableOk, Agrees, GoodHeaps, GoodLive;
      var c := CandidateOf(job);
      PutKeepsGood(Rows(), index.meta, index.births, issued, clock, job,
                   index.meta[job.jobId := c], index.births[job.jobId := BirthOf(c)]);
      index.Add(c);
      jobs := jobs[job.jobId := job];
    }

    lemma JobFacts(id: Id)
      requires Valid() && id in jobs
      ensures jobs[id].jobId == id && JobOk(jobs[id]) && FitsBatch(batches, jobs[id])
      ensures id in index.meta ==> jobs[id].state == Queued && index.meta[id] == CandidateOf(jobs[id])
      ensures jobs[id].state == Queued || Held(jobs[id].state) ==> Due(jobs[id].notBefore, clock)
    {
    }

    method ExtendLease(jobId: Id, owner: string, leaseUntil: int, now: int) returns (ok: bool)
      requires Valid()
      modifies this`jobs
      ensures Valid() && (Rows(), ok) == ApplyLease(old(Rows()), jobId, owner, Extend(leaseUntil), now)
    {
      hide Good, GoodHeaps, GoodLive;
      if jobId !in jobs || jobs[jobId].leaseOwner != Some(owner) || !Held(jobs[jobId].state) {
        return false;
      }
      JobFacts(jobId);
      Update(jobs[jobId].(leaseExpiresAt := Some(leaseUntil), updatedAt := now));
      return true;
    }

    method MarkRunning(jobId: Id, owner: string, leaseUntil: int, now: int) returns (ok: bool)
      requires Valid()
      modifies this`jobs
      ensures Valid() && (Rows(), ok) == ApplyLease(old(Rows()), jobId, owner, LeaseOp.MarkRunning(leaseUntil), now)
    {
      hide Good, GoodHeaps, GoodLive;
      if jobId !in jobs || jobs[jobId].state != Leased || jobs[jobId].leaseOwner != Some(owner) {
        return false;
      }
      JobFacts(jobId);
      var job := jobs[jobId];
      Update(job.(state := Running, startedAt := if job.startedAt.Some? then job.startedAt else Some(now),
                  leaseExpiresAt := Some(leaseUntil), updatedAt := now));
      return true;
    }

    method Complete(jobId: Id, owner: string, result: string, now: int) returns (ok: bool)
      requires Valid()
      modifies this`jobs
      ensures Valid() && (Rows(), ok) == ApplyLease(old(Rows()), jobId, owner, LeaseOp.Complete(result), now)
    {
      hide Good, GoodHeaps, GoodLive;
      if jobId !in jobs || !OwnsRunning(jobs[jobId], owner) {
        return false;
      }
      JobFacts(jobId);
      Update(jobs[jobId].(state := Succeeded, result := Some(result), finishedAt := Some(now), updatedAt := now,
                          leaseOwner := None, leaseExpiresAt := None, error := None));
      return true;
    }

    method Fail(jobId: Id, owner: string, error: string, deadLetter: bool, now: int) returns (ok: bool)
      requires Valid()
      modifies this`jobs, index
      ensures Valid() && (Rows(), ok) == ApplyLease(old(Rows()), jobId, owner, LeaseOp.Fail(error, deadLetter), now)
    {
      hide Good, GoodHeaps, GoodLive;
      if jobId !in jobs || !OwnsRunning(jobs[jobId], owner) {
        return false;
      }
      JobFacts(jobId);
      FinishFailure(jobId, error, deadLetter, now);
      return true;
    }

    method FinishFailure(jobId: Id, error: string, deadLetter: bool, now: int)
      requires Valid() && jobId in jobs && !Terminal(jobs[jobId].state)
      requires FitsBatch(batches, FailedWith(jobs[jobId], error, deadLetter, now))
      modifies this`jobs, index
      ensures Valid() && Rows() == Put(old(Rows()), FailedWith(old(jobs)[jobId], error, deadLetter, now))
      ensures index.meta == old(index.meta) - {jobId}
    {
      hide Good, GoodHeaps, GoodLive;
      JobFacts(jobId);
      Leave(jobs[jobId].(state := if deadLetter then DeadLetter else Failed, error := Some(error),
                         finishedAt := Some(now), updatedAt := now, leaseOwner := None, leaseExpiresAt := None));
    }

    method MarkCancelled(jobId: Id, now: int)
      requires Valid() && jobId in jobs && !Terminal(jobs[jobId].state)
      modifies this`jobs, index
      ensures Valid() && Rows() == Put(old(Rows()), CancelledAt(old(jobs)[jobId], now))
      ensures index.meta == old(index.meta) - {jobId}
    {
      hide Good, GoodHeaps, GoodLive;
      JobFacts(jobId);
      Leave(jobs[jobId].(state := Cancelled, finishedAt := Some(now), updatedAt := now, leaseOwner := None,
                         leaseExpiresAt := None, cancelRequested := true));
    }

    method Retry(jobId: Id, owner: string, error: string, notBefore: int, resolved: string, fallback: Option<string>,
                 now: int)
      returns (ok: bool)
      requires Valid()
      modifies this`jobs, index
      ensures Valid()
      ensures (Rows(), ok) == ApplyLease(old(Rows()), jobId, owner, LeaseOp.Retry(error, notBefore, resolved, fallback),
                                         now)
    {
      hide Good, GoodHeaps, GoodLive;
      if jobId !in jobs || !OwnsRunning(jobs[jobId], owner) {
        return false;
      }
      JobFacts(jobId);
      Leave(jobs[jobId].(state := RetryWait, error := Some(error), notBefore := Some(notBefore),
                         resolvedModel := resolved,
                         fallback := fallback, leaseOwner := None, leaseExpiresAt := None, updatedAt := now));
      return true;
    }

    method FinishCancel(jobId: Id, owner: string, now: int) returns (ok: bool)
      requires Valid()
      modifies this`jobs, index
      ensures Valid() && (Rows(), ok) == ApplyLease(old(Rows()), jobId, owner, LeaseOp.FinishCancel, now)
    {
      hide Good, GoodHeaps, GoodLive;
      if jobId !in jobs || jobs[jobId].leaseOwner != Some(owner) || !Held(jobs[jobId].state) {
        return false;
      }
      JobFacts(jobId);
      MarkCancelled(jobId, now);
      return true;
    }

    method ReleaseToQueue(jobId: Id, owner: string, resolved: Option<string>, decrement: bool, now: int)
      returns (ok: bool)
      requires Valid()
      modifies this`jobs, index
      ensures Valid() && (Rows(), ok) == ApplyLease(old(Rows()), jobId, owner, Release(resolved, decrement), now)
    {
      hide Good, GoodHeaps, GoodLive;
      if jobId !in jobs {
        return false;
      }
      ok := ReleaseUnlocked(jobId, owner, resolved, decrement, now);
    }

    method ReleaseUnlocked(jobId: Id, owner: string, resolved: Option<string>, decrement: bool, now: int)
      returns (ok: bool)
      requires Valid() && jobId in jobs
      modifies this`jobs, index
      ensures Valid() && (Rows(), ok) == ApplyLease(old(Rows()), jobId, owner, Release(resolved, decrement), now)
    {
      hide Good, GoodHeaps, GoodLive;
      var job := jobs[jobId];
      if job.leaseOwner != Some(owner) || !Held(job.state) {
        return false;
      }
      JobFacts(jobId);
      var updated := ReleasedRow(job, resolved, decrement, now);
      Join(updated);
      return true;
    }

    static method ReleasedRow(job: Job, resolved: Option<string>, decrement: bool, now: int) returns (updated: Job)
      ensures updated == Released(job, resolved, decrement, now)
    {
      updated := job.(state := Queued, leaseOwner := None, leaseExpiresAt := None, updatedAt := now);
      if decrement {
        updated := updated.(attemptCount := if job.attemptCount >= 1 then job.attemptCount - 1 else 0);
      }
      if resolved.Some? && resolved.value != "" {
        updated := updated.(resolvedModel := resolved.value);
      }
    }

    method Cancel(jobId: Id, now: int) returns (r: Result<Job>)
      requires Valid()
      modifies this`jobs, index
      ensures Valid() && (Rows(), r) == JobTables.Cancel(old(Rows()), jobId, now)
      ensures jobId in old(jobs) ==> r == Ok(jobs[jobId]) && AfterCancel(old(jobs)[jobId], jobs[jobId], now)
    {
      hide Good, GoodHeaps, GoodLive, CancelRequest, AfterCancel;
      if jobId !in jobs {
        return Err(NotFound);
      }
      JobFacts(jobId);
      CancelInFields(jobs[jobId], now);
      CancelNow(jobId, now);
      return Ok(jobs[jobId]);
    }

    method CancelNow(jobId: Id, now: int)
      requires Valid() && jobId in jobs
      modifies this`jobs, index
      ensures Valid() && jobs == old(jobs)[jobId := CancelRequest(old(jobs)[jobId], now)]
    {
      hide Good, GoodHeaps, GoodLive;
      JobFacts(jobId);
      var job := jobs[jobId];
      if Cancellable(job.state) {
        MarkCancelled(jobId, now);
      } else if job.state == Running {
        Update(job.(cancelRequested := true, updatedAt := now));
      }
      assert old(jobs)[jobId := old(jobs)[jobId]] == old(jobs);
    }

    method CancelBatch(batchId: Id, now: int) returns (changed: Option<nat>)
      requires Valid()
      modifies this`jobs, index
      ensures Valid() && changed.Some? == (batchId in batches)
      ensures changed.None? ==> Rows() == old(Rows())
      ensures changed.Some? ==> Rows() == JobTables.CancelBatch(old(Rows()), batchId, now)
      ensures changed.Some? ==> changed.value == |Touched(old(jobs), old(jobs).Keys, batchId, now)|
      ensures changed.Some? ==> EachAfterCancel(old(jobs), jobs, batchId, now)
    {
      hide EachAfterCancel;
      CancelBatchInFields(Rows(), batchId, now);
      if batchId !in batches {
        return None;
      }
      var n := CancelEach(batchId, now);
      return Some(n);
    }

    method CancelEach(batchId: Id, now: int) returns (n: nat)
      requires Valid()
      modifies this`jobs, index
      ensures Valid() && Rows() == JobTables.CancelBatch(old(Rows()), batchId, now)
      ensures n == |Touched(old(jobs), old(jobs).Keys, batchId, now)|
    {
      ghost var before, after := jobs, JobTables.CancelBatch(Rows(), batchId, now).jobs;
      hide Valid, CancelInBatch, Touched;
      PartlyEnds(before, after);
      TouchedEnds(before, batchId, now);
      hide Partly;
      var todo := jobs.Keys;
      n := 0;
      while todo != {}
        invariant Valid() && todo <= before.Keys && jobs == Partly(before, after, todo)
        invariant n == |Touched(before, before.Keys - todo, batchId, now)|
        decreases |todo|
      {
        var id :| id in todo;
        PartlyStep(before, after, todo, id);
        TouchedGrows(before, todo, id, batchId, now);
        var hit := CancelInBatchNow(id, batchId, now);
        n := n + if hit then 1 else 0;
        todo := todo - {id};
      }
    }

    method CancelInBatchNow(id: Id, batchId: Id, now: int) returns (hit: bool)
      requires Valid() && id in jobs
      modifies this`jobs, index
      ensures Valid() && jobs == old(jobs)[id := CancelInBatch(old(jobs)[id], batchId, now)]
      ensures hit <==> CancelInBatch(old(jobs)[id], batchId, now) != old(jobs)[id]
    {
      hide Good, GoodHeaps, GoodLive;
      JobFacts(id);
      var job := jobs[id];
      hit := job.batchId == Some(batchId) && (Cancellable(job.state) || (job.state == Running && !job.cancelRequested));
      if hit {
        CancelNow(id, now);
      } else {
        assert jobs[id := jobs[id]] == jobs;
      }
    }

    // Recovery

    /** Time never runs backwards. */
    ghost method Tick(now: int)
      requires Valid() && clock <= now
      modifies this`clock
      ensures Valid() && clock == now
    {
      LaterStillGood(Rows(), index.meta, index.births, issued, clock, now);
      clock := now;
    }

    method Maintenance(now: int) returns (report: Recovery.Report)
      requires Valid() && clock <= now
      modifies this`jobs, this`clock, index
      ensures Valid() && clock == now
      ensures Rows() == Maintain(old(Rows()), now) && report == Recovery.PassReport(old(jobs), now)
      ensures EachAfterPass(old(jobs), jobs, now) && EachToldByPass(old(jobs), jobs, report)
    {
      PassIsTold(Rows(), now);
      hide Maintain, AfterPass, PassTells, GoodHeaps, GoodLive, Agrees, BirthsOk, IdempExact, BatchesOk;
      PassInFields(Rows(), now);
      Tick(now);
      report := MaintainAll(now);
    }

    method MaintainAll(now: int) returns (report: Recovery.Report)
      requires Valid() && clock == now
      modifies this`jobs, index
      ensures Valid() && Rows() == Maintain(old(Rows()), now) && report == Recovery.PassReport(old(jobs), now)
    {
      ghost var before, after := jobs, Maintain(Rows(), now).jobs;
      hide Valid, Maintained, Recovery.PassReport, Recovery.PassReportOn;
      PartlyEnds(before, after);
      Recovery.ReportEnds(before, now);
      hide Partly;
      report := {};
      var todo := jobs.Keys;
      while todo != {}
        invariant Valid() && todo <= before.Keys && jobs == Partly(before, after, todo)
        invariant report == Recovery.PassReportOn(before, before.Keys - todo, now)
        decreases |todo|
      {
        var id :| id in todo;
        PartlyStep(before, after, todo, id);
        report := MaintainOne(before, todo, id, now, report);
        todo := todo - {id};
      }
    }

    method MaintainOne(ghost before: map<Id, Job>, ghost todo: set<Id>, id: Id, now: int, report: Recovery.Report)
      returns (more: Recovery.Report)
      requires Valid() && id in jobs && clock == now
      requires id in todo && id in before && before[id] == jobs[id]
      requires report == Recovery.PassReportOn(before, before.Keys - todo, now)
      modifies this`jobs, index
      ensures Valid() && jobs == old(jobs)[id := Maintained(old(jobs)[id], now)]
      ensures more == Recovery.PassReportOn(before, before.Keys - (todo - {id}), now)
    {
      hide Valid, Maintained, Recovery.PassReportOn, Recovery.PassEvents, Recovery.Tagged;
      Recovery.ReportGrows(before, todo, id, now);
      var events := MaintainJob(id, now);
      more := report + Recovery.Tagged(events, id);
    }

    method MaintainJob(id: Id, now: int) returns (events: set<Recovery.Event>)
      requires Valid() && id in jobs && clock == now
      modifies this`jobs, index
      ensures Valid() && jobs == old(jobs)[id := Maintained(old(jobs)[id], now)]
      ensures events == Recovery.PassEvents(old(jobs)[id], now)
    {
      hide Good, GoodHeaps, GoodLive;
      JobFacts(id);
      var job := jobs[id];
      events := {};
      if Held(job.state) && job.leaseExpiresAt.Some? && job.leaseExpiresAt.value <= now {
        events := ExpireLease(id, now);
      } else if job.state == RetryWait && Due(job.notBefore, now) {
        Join(job.(state := Queued, updatedAt := now));
        events := {Recovery.Promoted};
      } else if job.state == Queued && Passed(job.deadlineAt, now) {
        FinishFailure(id, DEADLINE, false, now);
        events := {Recovery.DeadlineHit};
      } else if (job.state == Queued || job.state == RetryWait || job.state == Staged) && job.cancelRequested {
        MarkCancelled(id, now);
        events := {Recovery.ExpiredCancelled};
      } else {
        assert jobs[id := jobs[id]] == jobs;
      }
    }

    method ExpireLease(id: Id, now: int) returns (events: set<Recovery.Event>)
      requires Valid() && id in jobs && Held(jobs[id].state)
      modifies this`jobs, index
      ensures Valid() && jobs == old(jobs)[id := Expired(old(jobs)[id], now)]
      ensures events == Recovery.ExpiryEvents(old(jobs)[id])
    {
      hide Good, GoodHeaps, GoodLive;
      JobFacts(id);
      var job := jobs[id];
      if job.cancelRequested {
        MarkCancelled(id, now);
        return {Recovery.ExpiredCancelled};
      }
      if job.attemptCount >= job.maxAttempts {
        FinishFailure(id, LEASE_EXPIRED, true, now);
        return {Recovery.DeadLettered};
      }
      Join(job.(state := Queued, leaseOwner := None, leaseExpiresAt := None, updatedAt := now));
      return {Recovery.Recovered};
    }

    method ReleaseLeases(prefix: string, now: int) returns (released: set<Id>)
      requires Valid()
      modifies this`jobs, index
      ensures Valid() && Rows() == JobTables.ReleaseLeases(old(Rows()), prefix, now)
      ensures released == LeasedTo(old(jobs), old(jobs).Keys, prefix)
    {
      ghost var before, after := jobs, JobTables.ReleaseLeases(Rows(), prefix, now).jobs;
      hide Valid, ReleasedByPrefix, LeasedTo;
      PartlyEnds(before, after);
      NobodyLeased(before, prefix);
      hide Partly;
      released := {};
      var todo := jobs.Keys;
      while todo != {}
        invariant Valid() && todo <= before.Keys && jobs == Partly(before, after, todo)
        invariant released == LeasedTo(before, before.Keys - todo, prefix)
        decreases |todo|
      {
        var id :| id in todo;
        PartlyStep(before, after, todo, id);
        released := ReleaseOne(before, todo, id, prefix, now, released);
        todo := todo - {id};
      }
    }

    method ReleaseOne(ghost before: map<Id, Job>, ghost todo: set<Id>, id: Id, prefix: string, now: int,
                      released: set<Id>)
      returns (more: set<Id>)
      requires Valid() && id in jobs && id in todo && id in before && before[id] == jobs[id]
      requires released == LeasedTo(before, before.Keys - todo, prefix)
      modifies this`jobs, index
      ensures Valid() && jobs == old(jobs)[id := ReleasedByPrefix(old(jobs)[id], prefix, now)]
      ensures more == LeasedTo(before, before.Keys - (todo - {id}), prefix)
    {
      hide Valid, ReleasedByPrefix, LeasedTo;
      LeasedToGrows(before, todo, id, prefix);
      OneRow(before, jobs, id, prefix);
      var ours := ReleaseIfOurs(id, prefix, now);
      more := if ours then released + {id} else released;
    }

    method ReleaseIfOurs(id: Id, prefix: string, now: int) returns (ours: bool)
      requires Valid() && id in jobs
      modifies this`jobs, index
      ensures Valid() && jobs == old(jobs)[id := ReleasedByPrefix(old(jobs)[id], prefix, now)]
      ensures LeasedTo(old(jobs), {id}, prefix) == if ours then {id} else {}
    {
      hide Good, GoodHeaps, GoodLive;
      JobFacts(id);
      var job := jobs[id];
      ours := Held(job.state) && job.leaseOwner.Some? && job.leaseOwner.value != "" && prefix <= job.leaseOwner.value;
      if ours {
        var ok := ReleaseUnlocked(id, job.leaseOwner.value, None, true, now);
      } else {
        assert jobs[id := jobs[id]] == jobs;
      }
    }

    method Requeue(jobId: Id, now: int) returns (r: Result<Job>)
      requires Valid()
      modifies this`jobs, index
      ensures Valid() && (Rows(), r) == JobTables.Requeue(old(Rows()), jobId, now)
    {
      hide Good, GoodHeaps, GoodLive;
      if jobId !in jobs {
        return Err(NotFound);
      }
      if jobs[jobId].state != Failed && jobs[jobId].state != DeadLetter {
        return Err(Invalid);
      }
      JobFacts(jobId);
      Join(jobs[jobId].(state := Queued, attemptCount := 0, error := None, result := None, startedAt := None,
                        finishedAt := None, leaseOwner := None, leaseExpiresAt := None, notBefore := None,
                        cancelRequested := false, updatedAt := now));
      return Ok(jobs[jobId]);
    }

    // Submission

    /** The retained job that has the key, as a replay or a conflict by payload. */
    method ExistingJob(job: Job) returns (r: Option<Result<Receipt>>)
      requires Valid()
      ensures r == Existing(Rows(), job)
      ensures r.None? <==> JobKey(job).None? || forall id :: id in jobs ==> JobKey(jobs[id]) != JobKey(job)
      ensures forall id :: id in jobs && JobKey(job).Some? && JobKey(jobs[id]) == JobKey(job) ==>
        r == Some(ReplayOf(jobs[id], job))
    {
      ExistingIsTheHolder(Rows(), job);
      hide Agrees, BirthsOk, GoodHeaps, GoodLive, BatchesOk;
      if job.idempotencyKey.None? || job.idempotencyKey.value == "" {
        return None;
      }
      var key := (job.clientId, job.idempotencyKey.value);
      if key !in idemp {
        return None;
      }
      var current := jobs[idemp[key]];
      if current.idempotencyHash != job.idempotencyHash {
        return Some(Err(Conflict(current.jobId)));
      }
      return Some(Ok(Receipt(current, true)));
    }

    /** Counts the unfinished jobs, of one client or of all. */
    method CountUnfinished(client: Option<string>) returns (n: nat)
      ensures n == |Unfinished(jobs, jobs.Keys, client)|
    {
      n := 0;
      var todo := jobs.Keys;
      UnfinishedEnds(Rows(), "");
      assert Unfinished(jobs, jobs.Keys - todo, client) == {};
      while todo != {}
        invariant todo <= jobs.Keys && n == |Unfinished(jobs, jobs.Keys - todo, client)|
        decreases |todo|
      {
        var id :| id in todo;
        UnfinishedGrows(jobs, todo, id, client);
        if Incomplete(jobs[id].state) && (client.None? || jobs[id].clientId == client.value) {
          n := n + 1;
        }
        todo := todo - {id};
      }
    }

    /** Refuses exactly when a limit would be exceeded, the queue's before the client's. */
    method ReserveCapacity(client: string, additional: nat) returns (r: Option<Failure>)
      ensures r == Capacity(Rows(), limits, client, additional)
      ensures r.None? <==> Depth(Rows()) + additional <= limits.maxQueuedJobs
                           && ClientDepth(Rows(), client) + additional <= limits.maxActiveJobsPerClient
    {
      UnfinishedEnds(Rows(), client);
      hide Unfinished, Depth, ClientDepth;
      var depth := CountUnfinished(None);
      if depth + additional > limits.maxQueuedJobs {
        return Some(QueueFull);
      }
      var clientJobs := CountUnfinished(Some(client));
      if clientJobs + additional > limits.maxActiveJobsPerClient {
        return Some(ClientFull);
      }
      return None;
    }

    method RememberJob(job: Job)
      requires Valid() && NewJob(job) && FitsBatch(batches, job) && job.jobId !in issued
      requires JobKey(job).Some? ==> JobKey(job).value !in idemp
      modifies this`jobs, this`idemp, this`issued, index
      ensures Valid() && Rows() == Remember(old(Rows()), job) && issued == old(issued) + {job.jobId}
    {
      var c := CandidateOf(job);
      if job.state == Queued {
        RememberKeepsGood(Rows(), index.meta, index.births, issued, clock, job,
                          index.meta[job.jobId := c], index.births[job.jobId := BirthOf(c)]);
        index.Add(c);
      } else {
        RememberKeepsGood(Rows(), index.meta, index.births, issued, clock, job, index.meta, index.births);
      }
      jobs := jobs[job.jobId := job];
      if job.idempotencyKey.Some? && job.idempotencyKey.value != "" {
        idemp := idemp[(job.clientId, job.idempotencyKey.value) := job.jobId];
      }
      issued := issued + {job.jobId};
    }

    method Enqueue(job: Job) returns (r: Result<Receipt>)
      requires Valid() && NewJob(job) && job.batchId.None? && job.jobId !in issued
      modifies this`jobs, this`idemp, this`issued, index
      ensures Valid() && (Rows(), r) == JobTables.Enqueue(old(Rows()), limits, job)
      ensures issued <= old(issued) + {job.jobId}
    {
      var existing := ExistingJob(job);
      if existing.Some? {
        return existing.value;
      }
      var full := ReserveCapacity(job.clientId, 1);
      if full.Some? {
        return Err(full.value);
      }
      RememberJob(job);
      return Ok(Receipt(job, false));
    }

    method FindBatchIdempotency(client: string, key: string) returns (r: Option<Batch>)
      requires Valid()
      ensures r.Some? ==> r.value.batchId in batches && batches[r.value.batchId] == r.value && r.value.status == Active
      ensures key != "" && r.Some? ==> BatchKey(r.value) == Some((client, key))
      ensures key != "" && r.None? ==> forall b :: b in batches ==> BatchKey(batches[b]) != Some((client, key))
    {
      if (client, key) !in batchIdemp {
        return None;
      }
      return Some(batches[batchIdemp[(client, key)]]);
    }

    method BeginBatch(batch: Batch) returns (r: Result<BatchReceipt>)
      requires Valid() && batch.status == Staging && batch.batchId !in batches
      modifies this`batches
      ensures Valid() && (Rows(), r) == JobTables.BeginBatch(old(Rows()), limits, batch)
    {
      if batch.idempotencyKey.Some? && batch.idempotencyKey.value != "" {
        var key := (batch.clientId, batch.idempotencyKey.value);
        if key in batchIdemp {
          var current := batches[batchIdemp[key]];
          if current.idempotencyHash != batch.idempotencyHash {
            return Err(Conflict(current.batchId));
          }
          return Ok(BatchReceipt(current, true));
        }
      }
      if batch.jobCount > limits.maxBatchSize {
        return Err(BatchTooLarge);
      }
      var stored := batch.(idempotencyKey := None, idempotencyHash := None);
      BatchRecordKeepsGood(Rows(), index.meta, index.births, issued, clock, stored);
      batches := batches[stored.batchId := stored];
      return Ok(BatchReceipt(stored, false));
    }

    method StageJobs(batchId: Id, chunk: seq<Job>) returns (r: Result<nat>)
      requires Valid()
      requires forall i :: 0 <= i < |chunk| ==> NewJob(chunk[i]) && chunk[i].jobId !in issued
      requires forall i, j :: 0 <= i < j < |chunk| ==> chunk[i].jobId != chunk[j].jobId
      modifies this`jobs, this`idemp, this`issued, this`batches, index
      ensures Valid() && (Rows(), r) == JobTables.StageJobs(old(Rows()), limits, batchId, chunk)
      ensures issued <= old(issued) + set job | job in chunk :: job.jobId
    {
      hide Good, GoodHeaps, GoodLive, StageEach, Stageable, Capacity;
      if batchId !in batches {
        return Err(NotFound);
      }
      var batch := batches[batchId];
      if batch.status != Staging {
        return Err(Invalid);
      }
      if batch.jobCount + |chunk| > limits.maxBatchSize {
        return Err(BatchTooLarge);
      }
      if chunk != [] {
        var full := ReserveCapacity(chunk[0].clientId, |chunk|);
        if full.Some? {
          return Err(full.value);
        }
      }
      var failure := StageEachJob(batchId, chunk);
      if failure.Some? {
        return Err(failure.value);
      }
      CountKeepsGood(batchId, |chunk|);
      batches := batches[batchId := batch.(jobCount := batch.jobCount + |chunk|)];
      return Ok(batch.jobCount + |chunk|);
    }

    lemma CountKeepsGood(batchId: Id, more: nat)
      requires Valid() && batchId in batches && batches[batchId].status == Staging
      ensures var batch := batches[batchId];
        Good(Rows().(batches := batches[batchId := batch.(jobCount := batch.jobCount + more)]),
             index.meta, index.births, issued, clock)
    {
    }

    lemma InitiallyStageable(chunk: seq<Job>)
      requires Valid()
      requires forall i :: 0 <= i < |chunk| ==> NewJob(chunk[i]) && chunk[i].jobId !in issued
      requires forall i, j :: 0 <= i < j < |chunk| ==> chunk[i].jobId != chunk[j].jobId
      ensures Stageable(Rows(), chunk) && chunk[0..] == chunk
    {
    }

    /** One job of a chunk: remembered, or the reason it is not. */
    method StageOneJob(batchId: Id, job: Job) returns (failure: Option<Failure>)
      requires Valid() && batchId in batches && batches[batchId].status == Staging
      requires NewJob(job) && job.jobId !in issued
      modifies this`jobs, this`idemp, this`issued, index
      ensures Valid() && failure == StageFailure(old(Rows()), batchId, job)
      ensures Rows() == if failure.Some? then old(Rows()) else Remember(old(Rows()), job)
      ensures old(issued) <= issued <= old(issued) + {job.jobId} && (failure.None? ==> job.jobId in issued)
    {
      hide Agrees, GoodHeaps, GoodLive, JobsOk, BatchesOk, BirthsOk;
      if job.batchId != Some(batchId) || job.state != Staged {
        return Some(Invalid);
      }
      var dup := ExistingJob(job);
      if dup.Some? {
        return Some(if dup.value.Ok? then Conflict(dup.value.value.job.jobId) else dup.value.error);
      }
      RememberJob(job);
      return None;
    }

    method StageEachJob(batchId: Id, chunk: seq<Job>) returns (failure: Option<Failure>)
      requires Valid() && batchId in batches && batches[batchId].status == Staging
      requires forall i :: 0 <= i < |chunk| ==> NewJob(chunk[i]) && chunk[i].jobId !in issued
      requires forall i, j :: 0 <= i < j < |chunk| ==> chunk[i].jobId != chunk[j].jobId
      modifies this`jobs, this`idemp, this`issued, index
      ensures Valid() && (Rows(), failure) == StageEach(old(Rows()), batchId, chunk)
      ensures issued <= old(issued) + set job | job in chunk :: job.jobId
    {
      hide StageFailure, Remember, NewJob, GoodHeaps, GoodLive, JobsOk, IdempExact, BatchesOk, Agrees, BirthsOk;
      InitiallyStageable(chunk);
      for i := 0 to |chunk|
        invariant Valid()
        invariant forall k :: i <= k < |chunk| ==> chunk[k].jobId !in issued
        invariant Stageable(Rows(), chunk[i..])
        invariant StageEach(old(Rows()), batchId, chunk) == StageEach(Rows(), batchId, chunk[i..])
        invariant issued <= old(issued) + set job | job in chunk :: job.jobId
      {
        assert chunk[i..][0] == chunk[i] && chunk[i..][1..] == chunk[i + 1..] && chunk[i] in chunk;
        failure := StageOneJob(batchId, chunk[i]);
        if failure.Some? {
          return;
        }
        InitiallyStageable(chunk[i + 1..]);
      }
      return None;
    }

    // Abort, activation and retention

    /** Drops a job, its key and its listing. */
    method ForgetJob(id: Id)
      requires Valid() && id in jobs
      modifies this`jobs, this`idemp, index
      ensures Valid() && Rows() == ForgetAll(old(Rows()), {id}) && id !in index.meta
    {
      PopOne(id);
      var job := jobs[id];
      jobs := jobs - {id};
      if job.idempotencyKey.Some? && job.idempotencyKey.value != "" {
        idemp := idemp - {(job.clientId, job.idempotencyKey.value)};
      }
      index.Remove(id);
    }

    lemma PopOne(id: Id)
      requires Valid() && id in jobs
      ensures Good(ForgetAll(Rows(), {id}), index.meta - {id}, index.births, issued, clock)
      ensures ForgetAll(Rows(), {id}) == Rows().(jobs := jobs - {id},
                idemp := if JobKey(jobs[id]).Some? then idemp - {JobKey(jobs[id]).value} else idemp)
    {
      ForgetKeepsGood(Rows(), index.meta, index.births, issued, clock, id);
      PopKey(Rows(), id);
    }

    method ForgetEach(ids: set<Id>)
      requires Valid() && ids <= jobs.Keys
      modifies this`jobs, this`idemp, index
      ensures Valid() && Rows() == ForgetAll(old(Rows()), ids)
    {
      ghost var before := Rows();
      hide Valid, ForgetAll;
      ForgetNothing(before, ids);
      var todo := ids;
      while todo != {}
        invariant Valid() && todo <= ids && todo <= jobs.Keys
        invariant Rows() == ForgetAll(before, ids - todo)
        decreases |todo|
      {
        var id :| id in todo;
        ForgetOneMore(before, ids - todo, id);
        assert ids - todo + {id} == ids - (todo - {id});
        ForgetKeeps(Rows(), id);
        ForgetJob(id);
        todo := todo - {id};
      }
    }

    method AbortBatch(batchId: Id)
      requires Valid()
      modifies this`jobs, this`idemp, this`batches, index
      ensures Valid() && Rows() == JobTables.AbortBatch(old(Rows()), batchId)
    {
      if batchId !in batches || batches[batchId].status != Staging {
        return;
      }
      ForgetEach(set id | id in jobs && jobs[id].batchId == Some(batchId));
      EmptyBatchCanAbort(batchId);
      // A staging batch has no key to drop.
      batches := batches[batchId := batches[batchId].(status := Aborted, jobCount := 0)];
    }

    lemma EmptyBatchCanAbort(batchId: Id)
      requires Valid() && batchId in batches && batches[batchId].status == Staging && OfBatch(Rows(), batchId) == {}
      ensures Good(Rows().(batches := batches[batchId := batches[batchId].(status := Aborted, jobCount := 0)]),
                   index.meta, index.births, issued, clock)
    {
      BatchRecordKeepsGood(Rows(), index.meta, index.births, issued, clock,
                           batches[batchId].(status := Aborted, jobCount := 0));
    }

    method ActivateBatch(batchId: Id, key: Option<string>, hash: Option<string>, now: int)
      returns (r: Result<BatchReceipt>)
      requires Valid()
      modifies this`jobs, this`idemp, this`batches, this`batchIdemp, index
      ensures Valid() && (Rows(), r) == JobTables.ActivateBatch(old(Rows()), batchId, key, hash, now)
    {
      if batchId !in batches {
        return Err(NotFound);
      }
      var batch := batches[batchId];
      var keyed := key.Some? && key.value != "";
      if keyed && (batch.clientId, key.value) in batchIdemp && batchIdemp[(batch.clientId, key.value)] != batchId {
        var other := batches[batchIdemp[(batch.clientId, key.value)]];
        if other.idempotencyHash != hash {
          return Err(Conflict(other.batchId));
        }
        AbortBatch(batchId);
        return Ok(BatchReceipt(other, true));
      }
      if batch.status == Active {
        return Ok(BatchReceipt(batch, false));
      }
      if batch.status != Staging {
        return Err(Invalid);
      }
      Activate(batchId, key, hash, now);
      return Ok(BatchReceipt(batches[batchId], false));
    }

    /** The batch record first, then each of its staged jobs joins the queue. */
    method Activate(batchId: Id, key: Option<string>, hash: Option<string>, now: int)
      requires Valid() && batchId in batches && batches[batchId].status == Staging
      requires var k := KeyOf(batches[batchId].clientId, key); k.Some? ==> k.value !in batchIdemp
      modifies this`jobs, this`batches, this`batchIdemp, index
      ensures Valid() && Rows() == Activated(old(Rows()), batchId, key, hash, now)
    {
      ActivatedKeepsGood(Rows(), index.meta, index.births, issued, clock, batchId, key, hash, now);
      RowsAreKeyed();
      hide Good, BirthsOk, WithQueued, Listings, BirthsOf, StagedIn, GoodHeaps, GoodLive;
      var batch := batches[batchId].(status := Active, activatedAt := Some(now));
      if key.Some? && key.value != "" {
        batch := batch.(idempotencyKey := key, idempotencyHash := hash);
        batchIdemp := batchIdemp[(batch.clientId, key.value) := batchId];
      }
      batches := batches[batchId := batch];
      QueueStaged(batchId, now);
    }

    lemma RowsAreKeyed()
      requires Valid()
      ensures BirthsOk(index.births, jobs, issued) && forall id :: id in jobs ==> jobs[id].jobId == id
    {
    }

    method QueueStaged(batchId: Id, now: int)
      requires index.Valid() && BirthsOk(index.births, jobs, issued) && forall id :: id in jobs ==> jobs[id].jobId == id
      modifies this`jobs, index
      ensures index.Valid() && jobs == WithQueued(old(jobs), batchId, now)
      ensures index.meta == old(index.meta) + Listings(jobs, StagedIn(old(jobs), batchId))
      ensures index.births == old(index.births) + BirthsOf(jobs, StagedIn(old(jobs), batchId))
    {
      ghost var before, after := jobs, WithQueued(jobs, batchId, now);
      ghost var staged := StagedIn(jobs, batchId);
      var todo := set id | id in jobs && jobs[id].batchId == Some(batchId);
      ghost var ours := todo;
      StagedQueueUp(Rows(), batchId, now, ours);
      hide ReadyIndex.Valid, BirthsOk, WithQueued, ActivatedJob, Queueing, Partly, Listings, BirthsOf, StagedIn;
      while todo != {}
        invariant index.Valid() && todo <= ours && jobs == Partly(before, after, todo)
        invariant index.meta == old(index.meta) + Listings(after, staged - todo)
        invariant index.births == old(index.births) + BirthsOf(after, staged - todo)
        decreases |todo|
      {
        var id :| id in todo;
        PartlyStep(before, after, todo, id);
        QueueIfStaged(old(index.meta), old(index.births), before, after, staged, todo, id, now);
        todo := todo - {id};
      }
    }

    method QueueIfStaged(ghost meta: View, ghost births: map<Id, Birth>, ghost before: map<Id, Job>,
                         ghost after: map<Id, Job>, ghost staged: set<Id>, ghost todo: set<Id>, id: Id, now: int)
      requires index.Valid() && id in jobs && id in todo && id in before && id in after && jobs[id] == before[id]
      requires jobs[id].jobId == id
      requires BirthsOk(births, before, issued)
      requires id in staged <==> jobs[id].state == Staged
      requires after[id] == if id in staged then Queueing(jobs[id], now) else jobs[id]
      requires index.meta == meta + Listings(after, staged - todo)
      requires index.births == births + BirthsOf(after, staged - todo)
      modifies this`jobs, index
      ensures index.Valid() && jobs == old(jobs)[id := after[id]]
      ensures index.meta == meta + Listings(after, staged - (todo - {id}))
      ensures index.births == births + BirthsOf(after, staged - (todo - {id}))
    {
      hide GoodHeaps, GoodLive;
      OneMoreListed(meta, births, after, staged, todo, id);
      if jobs[id].state == Staged {
        jobs := jobs[id := jobs[id].(state := Queued, updatedAt := now)];
        index.Add(CandidateOf(jobs[id]));
      } else {
        assert jobs[id := jobs[id]] == jobs;
      }
    }

    method Cleanup(successBefore: int, failureBefore: int) returns (removed: nat)
      requires Valid()
      modifies this`jobs, this`idemp, index
      ensures Valid() && Rows() == JobTables.Cleanup(old(Rows()), successBefore, failureBefore)
      ensures removed == |StaleIds(old(Rows()), successBefore, failureBefore)|
    {
      var stale := set id | id in jobs && Stale(jobs[id], successBefore, failureBefore);
      ForgetEach(stale);
      return |stale|;
    }

    // Claims

    /** Proposes, drops what cannot be claimed, and tries again, up to the limit.
        The picker state moves only with a claim. */
    method ClaimNext(model: string, picker: PickerState, now: int, owner: string, leaseUntil: int,
                     settings: SchedulerSettings)
      returns (claimed: Option<Job>, next: PickerState, ghost rejects: seq<Id>)
      requires Valid() && clock <= now
      modifies this`jobs, this`clock, index
      ensures Valid() && clock == now
      ensures ClaimRun(old(index.meta), ClaimableIds(old(Rows()), now), model, picker, Epoch(now), settings,
                       rejects, IdOf(claimed), next)
      ensures claimed.Some? ==> Claim(old(Rows()), claimed.value.jobId, owner, leaseUntil, now) == (Rows(), true)
      ensures claimed.Some? ==>
        claimed.value.jobId in jobs && jobs[claimed.value.jobId] == claimed.value
          && claimed.value.resolvedModel == model
      ensures claimed.None? ==> Rows() == old(Rows()) && next == picker
      ensures index.meta == Unlisted(old(index.meta), Members(rejects) + if claimed.Some? then {claimed.value.jobId}
                                     else {})
      ensures claimed.None? && |rejects| < 64 ==> forall id :: id in ClaimableIds(Rows(), now) ==>
        jobs[id].resolvedModel != model
      ensures claimed.Some? ==> ClaimedOnly(old(Rows()), Rows(), claimed.value.jobId, owner, leaseUntil, now)
      ensures claimed.Some? ==> FirstInQueue(old(Rows()), claimed.value.jobId, now)
      ensures claimed.Some? ==>
        ScoresMostOfHeads(old(Rows()), claimed.value.jobId, SkipsOf(picker, model), now, settings)
    {
      hide Valid, ClaimRun, ClaimableIds, Claim, Proposes, ListsClaimable, ClaimedOnly, FirstInQueue, ScoresMostOfHeads;
      Tick(now);
      IndexLists();
      ghost var view, ok := index.meta, ClaimableIds(Rows(), now);
      rejects := [];
      for tries := 0 to TRIES
        invariant Valid() && clock == now && Rows() == old(Rows()) && |rejects| == tries
        invariant index.meta == view - Members(rejects)
        invariant RejectsSoFar(view, ok, model, picker, Epoch(now), settings, rejects)
      {
        var choice, proposed, outcome := TryOnce(model, picker, now, owner, leaseUntil, settings);
        if choice.None? {
          RunEndsEmpty(view, ok, model, picker, Epoch(now), settings, rejects);
          NothingClaimable(view, ok, model, picker, now, settings, rejects);
          return None, picker, rejects;
        }
        if outcome.Some? {
          RunEndsClaimed(view, ok, model, picker, Epoch(now), settings, rejects, choice.value, proposed);
          ClaimInFields(old(Rows()), choice.value.jobId, owner, leaseUntil, now);
          ClaimTakesTheFirst(old(Rows()), view, model, picker, now, settings, rejects, choice.value.jobId, proposed);
          return outcome, proposed, rejects;
        }
        RejectOneMore(view, ok, model, picker, Epoch(now), settings, rejects, choice.value, proposed);
        rejects := rejects + [choice.value.jobId];
      }
      RunGivesUp(view, ok, model, picker, Epoch(now), settings, rejects);
      return None, picker, rejects;
    }

    lemma IndexLists()
      requires Valid()
      ensures ListsClaimable(index.meta, Rows(), clock)
    {
      AgreementLists(Rows(), index.meta, clock);
    }

    /** One proposal: claimed, or dropped from the index. */
    method TryOnce(model: string, picker: PickerState, now: int, owner: string, leaseUntil: int,
                   settings: SchedulerSettings)
      returns (choice: Option<Candidate>, proposed: PickerState, outcome: Option<Job>)
      requires Valid() && clock == now
      modifies this`jobs, index
      ensures Valid() && Proposes(old(index.meta), model, picker, Epoch(now), settings, choice, proposed)
      ensures choice.None? ==>
        outcome.None? && proposed == picker && Rows() == old(Rows()) && index.meta == old(index.meta)
      ensures choice.Some? ==> index.meta == old(index.meta) - {choice.value.jobId}
      ensures choice.Some? ==> (outcome.Some? <==> choice.value.jobId in ClaimableIds(old(Rows()), now))
      ensures choice.Some? && outcome.None? ==> Rows() == old(Rows())
      ensures outcome.Some? ==> outcome.value.jobId == choice.value.jobId && outcome.value.resolvedModel == model
      ensures outcome.Some? ==> Claim(old(Rows()), outcome.value.jobId, owner, leaseUntil, now) == (Rows(), true)
      ensures outcome.Some? ==> outcome.value.jobId in jobs && jobs[outcome.value.jobId] == outcome.value
    {
      ghost var hs;
      choice, proposed, hs := index.Propose(model, picker, Epoch(now), settings);
      outcome := None;
      if choice.Some? {
        ProposalIsListed(index.meta, model, picker, Epoch(now), settings, choice.value, proposed);
        outcome := TakeOrDrop(choice.value.jobId, now, owner, leaseUntil);
      }
    }

    method TakeOrDrop(id: Id, now: int, owner: string, leaseUntil: int) returns (outcome: Option<Job>)
      requires Valid() && clock == now && id in index.meta
      modifies this`jobs, index
      ensures Valid() && index.meta == old(index.meta) - {id}
      ensures outcome.Some? <==> id in ClaimableIds(old(Rows()), now)
      ensures outcome.Some? ==> Claim(old(Rows()), id, owner, leaseUntil, now) == (Rows(), true)
      ensures outcome.Some? ==> outcome.value.jobId == id && id in jobs && jobs[id] == outcome.value
      ensures outcome.Some? ==> outcome.value.resolvedModel == old(index.meta)[id].model
      ensures outcome.None? ==> Rows() == old(Rows())
    {
      ListedIsThere(id);
      hide Good;
      var job := jobs[id];
      if Claimable(job, now, BatchActive(batches, job.batchId)) {
        Take(id, owner, leaseUntil, now);
        return Some(jobs[id]);
      }
      Drop(id);
      return None;
    }

    method Take(id: Id, owner: string, leaseUntil: int, now: int)
      requires Valid() && id in jobs && jobs[id].state == Queued
      modifies this`jobs, index
      ensures Valid() && jobs == old(jobs)[id := Claimed(old(jobs)[id], owner, leaseUntil, now)] && jobs[id].jobId == id
      ensures index.meta == old(index.meta) - {id}
    {
      JobFacts(id);
      hide Good, GoodHeaps, GoodLive;
      var job := jobs[id];
      Leave(job.(state := Leased, leaseOwner := Some(owner), leaseExpiresAt := Some(leaseUntil),
                 attemptCount := job.attemptCount + 1, updatedAt := now));
    }

    lemma ListedIsThere(id: Id)
      requires Valid() && id in index.meta
      ensures id in jobs && jobs[id].jobId == id && index.meta[id] == CandidateOf(jobs[id])
    {
    }

    /** A listing that cannot be claimed at the clock is not worth keeping. */
    method Drop(id: Id)
      requires Valid() && id in index.meta && id !in ClaimableIds(Rows(), clock)
      modifies index
      ensures Valid() && index.meta == old(index.meta) - {id}
    {
      ListedIsThere(id);
      ListedOrNever(Rows(), index.meta, clock, id);
      DropKeepsGood(Rows(), index.meta, index.births, issued, clock, id);
      index.Remove(id);
    }

    lemma NothingClaimable(view: View, ok: set<Id>, model: string, picker: PickerState, now: int,
                           settings: SchedulerSettings, rejects: seq<Id>)
      requires Valid() && clock == now && ok == ClaimableIds(Rows(), now) && index.meta == view - Members(rejects)
      requires ClaimRun(view, ok, model, picker, Epoch(now), settings, rejects, None, picker) && |rejects| < TRIES
      ensures forall id :: id in ok ==> jobs[id].resolvedModel != model
    {
      forall id | id in ok ensures jobs[id].resolvedModel != model {
        JobFacts(id);
        ClaimableIsListed(Rows(), index.meta, now, id);
        EmptyHandedMeansNoWork(view, ok, model, picker, Epoch(now), settings, rejects, picker, id);
      }
    }

    /** Claims the oldest jobs, up to the limit, that fit a native batch. */
    method ClaimCompatible(model: string, questionsHash: string, exclude: set<Id>, limit: int, now: int, owner: string,
                           leaseUntil: int)
      returns (claimed: seq<Id>)
      requires Valid() && clock <= now
      modifies this`jobs, this`clock, index
      ensures Valid() && clock == if limit <= 0 then old(clock) else now
      ensures Companions(old(Rows()), model, questionsHash, exclude, limit, now, claimed)
      ensures Rows() == old(Rows()).(jobs := Taken(old(jobs), Members(claimed), owner, leaseUntil, now))
      ensures index.meta == Unlisted(old(index.meta), Members(claimed))
      ensures OldestJoin(old(Rows()), model, questionsHash, exclude, limit, now, claimed)
    {
      hide Valid, FirstOf, Compatible, Taken, Unlisted, OldestJoin;
      forall ids | Companions(Rows(), model, questionsHash, exclude, limit, now, ids)
        ensures OldestJoin(Rows(), model, questionsHash, exclude, limit, now, ids)
      {
        CompanionsInFields(Rows(), model, questionsHash, exclude, limit, now, ids);
      }
      NothingToTake(Rows(), model, questionsHash, exclude, now, owner, leaseUntil);
      UnlistNone(index.meta);
      assert Members([]) == {};
      if limit <= 0 {
        return [];
      }
      Tick(now);
      claimed := TakeFirst(jobs, false, Compatible(Rows(), model, questionsHash, now) - exclude, limit);
      CompatibleAreClaimable(Rows(), model, questionsHash, exclude, limit, now, claimed);
      TakeEach(claimed, owner, leaseUntil, now);
    }

    method TakeEach(ids: seq<Id>, owner: string, leaseUntil: int, now: int)
      requires Valid() && clock == now && InOrder(jobs, false, ids) && Members(ids) <= ClaimableIds(Rows(), now)
      modifies this`jobs, index
      ensures Valid() && Rows() == old(Rows()).(jobs := Taken(old(jobs), Members(ids), owner, leaseUntil, now))
      ensures index.meta == Unlisted(old(index.meta), Members(ids))
    {
      ghost var before := jobs;
      TakeNone(jobs, owner, leaseUntil, now);
      UnlistNone(index.meta);
      assert Members(ids[..0]) == {};
      hide Valid, Taken, Claimed, Earlier, Unlisted;
      for i := 0 to |ids|
        invariant Valid() && jobs == Taken(before, Members(ids[..i]), owner, leaseUntil, now)
        invariant index.meta == Unlisted(old(index.meta), Members(ids[..i]))
      {
        MembersGrow(ids, i);
        UnlistMore(old(index.meta), Members(ids[..i]), ids[i]);
        NotYetTaken(before, false, ids, i);
        TakeOneMore(before, Members(ids[..i]), ids[i], owner, leaseUntil, now);
        assert ids[i] in ClaimableIds(old(Rows()), now);
        Take(ids[i], owner, leaseUntil, now);
      }
      assert ids[..|ids|] == ids;
    }
  }
}
