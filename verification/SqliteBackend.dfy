/** The SQLite store: every public method is one transaction over the rows and the
    unique indexes of the two tables. */
module SqliteBackends {
  import opened Types
  import opened Picker
  import opened JobTables
  import opened JobOrder
  import opened NativeBatches
  import opened SqlTables
  import opened IndexAgreement
  import opened ClaimRuns
  import opened DiskPicks
  import opened Outcomes
  import opened RowChoices
  import Recovery

  function Updated(jobs: map<Id, Job>, ids: set<Id>, change: Job -> Job): map<Id, Job> {
    map id | id in jobs :: if id in ids then change(jobs[id]) else jobs[id]
  }

  lemma UpdatedStep(jobs: map<Id, Job>, ids: set<Id>, todo: set<Id>, id: Id, change: Job -> Job)
    requires id in todo && todo <= ids <= jobs.Keys
    ensures id in Updated(jobs, ids - todo, change) && Updated(jobs, ids - todo, change)[id] == jobs[id]
    ensures Updated(jobs, ids - (todo - {id}), change) == Updated(jobs, ids - todo, change)[id := change(jobs[id])]
  {
  }

  lemma UpdatedEnds(jobs: map<Id, Job>, ids: set<Id>, change: Job -> Job)
    ensures Updated(jobs, ids - ids, change) == jobs && ids - {} == ids
    ensures Updated(jobs, ids, change).Keys == jobs.Keys
  {
  }

  lemma UpdatedKeepsOk(t: Table, ids: set<Id>, change: Job -> Job)
    requires TableOk(t) && ids <= t.jobs.Keys
    requires forall id :: id in ids ==> StaysGood(t.jobs[id], change(t.jobs[id]), t.batches)
    ensures TableOk(t.(jobs := Updated(t.jobs, ids, change)))
  {
  }

  lemma AbortRowsKeepsBlank(t: Table, batchId: Id)
    requires BlankUnique(t.batches) && batchId in t.batches
    ensures BlankUnique(AbortRows(t, batchId).batches)
  {
  }

  lemma CountKeepsOk(t: Table, batchId: Id, count: nat)
    requires TableOk(t) && batchId in t.batches && t.batches[batchId].status == Staging
    ensures TableOk(t.(batches := t.batches[batchId := t.batches[batchId].(jobCount := count)]))
    ensures BlankUnique(t.batches) ==> BlankUnique(t.batches[batchId := t.batches[batchId].(jobCount := count)])
  {
  }

  lemma LateStaysGood(job: Job, batches: map<Id, Batch>, now: int)
    requires Recovery.Late(job, now)
    ensures StaysGood(job, FailedWith(job, DEADLINE, false, now), batches)
  {
  }

  lemma FlaggedStaysGood(job: Job, batches: map<Id, Batch>, now: int)
    requires Recovery.FlaggedIdle(job)
    ensures StaysGood(job, CancelledAt(job, now), batches)
  {
  }

  lemma NoIds()
    ensures Members([]) == {}
  {
  }

  lemma RowIsThere(t: Table, id: Id, owner: string, leaseUntil: int, now: int)
    requires TableOk(t) && Claim(t, id, owner, leaseUntil, now).1
    ensures var u := Claim(t, id, owner, leaseUntil, now).0; id in u.jobs && u.jobs[id].jobId == id
  {
  }

  lemma ClaimIffClaimable(t: Table, id: Id, owner: string, leaseUntil: int, now: int)
    ensures Claim(t, id, owner, leaseUntil, now).1 <==> id in ClaimableIds(t, now)
  {
  }

  lemma RowsStay(t: Table, u: Table, id: Id, owner: string, leaseUntil: int, now: int)
    requires (u, false) == Claim(t, id, owner, leaseUntil, now)
    ensures u == t
  {
  }

  /** A compatible row not taken yet can still be claimed. */
  lemma NextIsClaimable(t: Table, model: string, questionsHash: string, now: int, limit: nat, rows: seq<Id>, i: nat,
                        taken: seq<Id>, owner: string, leaseUntil: int)
    requires FirstOf(t.jobs, false, Compatible(t, model, questionsHash, now), limit, rows) && i < |rows|
    requires forall id :: id in taken ==> id in rows[..i]
    ensures var u := t.(jobs := Taken(t.jobs, Members(taken), owner, leaseUntil, now));
      Claim(u, rows[i], owner, leaseUntil, now)
        == (t.(jobs := Taken(t.jobs, Members(taken + [rows[i]]), owner, leaseUntil, now)), true)
  {
    hide Claimed, Earlier;
    assert rows[i] in Members(rows);
    NotYetTaken(t.jobs, false, rows, i);
    assert rows[i] !in taken;
    TakeOneMore(t.jobs, Members(taken), rows[i], owner, leaseUntil, now);
    assert Members(taken + [rows[i]]) == Members(taken) + {rows[i]};
  }

  /** The first value unless it is NULL. */
  function Coalesce(a: Option<int>, b: int): Option<int> {
    if a.Some? then a else Some(b)
  }

  class SqliteBackend {
    const limits: Limits
    var jobs: map<Id, Job>
    var batches: map<Id, Batch>
    var jobKeys: map<Key, Id>
    var batchKeys: map<Key, Id>
    ghost var issued: set<Id>

    function Rows(): Table
      reads this
    {
      Table(jobs, batches, jobKeys, batchKeys)
    }

    ghost predicate Valid()
      reads this
    {
      TableOk(Rows()) && BlankUnique(batches) && jobs.Keys <= issued
    }

    constructor (limits: Limits)
      ensures Valid() && Rows() == EMPTY && this.limits == limits
    {
      this.limits := limits;
      jobs, batches, jobKeys, batchKeys := map[], map[], map[], map[];
      issued := {};
    }

    /** Opens a file left behind by an earlier process. */
    constructor Open(limits: Limits, file: Table)
      requires TableOk(file) && BlankUnique(file.batches)
      ensures Valid() && Rows() == AbortOrphans(file) && this.limits == limits
    {
      this.limits := limits;
      jobs, batches, jobKeys, batchKeys := file.jobs, file.batches, file.idemp, file.batchIdemp;
      issued := file.jobs.Keys;
      new;
      AbortOrphanStaging();
    }

    method AbortOrphanStaging()
      requires Valid()
      modifies this`jobs, this`batches, this`jobKeys, this`batchKeys
      ensures Valid() && Rows() == AbortOrphans(old(Rows()))
    {
      var todo := set b | b in batches && batches[b].status == Staging;
      ghost var before, orphans := Rows(), todo;
      hide Valid, AbortSome, AbortRows;
      AbortEnds(before, orphans);
      while todo != {}
        invariant Valid() && todo <= orphans <= before.batches.Keys && Rows() == AbortSome(before, orphans - todo)
        decreases |todo|
      {
        var b :| b in todo;
        AbortStep(before, orphans, todo, b);
        DropBatch(b);
        todo := todo - {b};
      }
    }

    /** Deletes the batch's jobs and marks it aborted. */
    method DropBatch(batchId: Id)
      requires Valid() && batchId in batches
      modifies this`jobs, this`batches, this`jobKeys, this`batchKeys
      ensures Valid() && Rows() == AbortRows(old(Rows()), batchId)
    {
      hide TableOk, BlankUnique;
      AbortRowsKeepsOk(Rows(), batchId);
      AbortRowsKeepsBlank(Rows(), batchId);
      ghost var goal := AbortRows(Rows(), batchId);
      var gone := set id | id in jobs && jobs[id].batchId == Some(batchId);
      assert gone == OfBatch(Rows(), batchId);
      hide OfBatch;
      jobs := jobs - gone;
      jobKeys := map k | k in jobKeys && jobKeys[k] !in gone :: jobKeys[k];
      batches := batches[batchId := batches[batchId].(status := Aborted, jobCount := 0,
                                                      idempotencyKey := None, idempotencyHash := None)];
      batchKeys := map k | k in batchKeys && batchKeys[k] != batchId :: batchKeys[k];
      assert jobKeys == goal.idemp && batchKeys == goal.batchIdemp;
    }

    method AbortBatch(batchId: Id)
      requires Valid()
      modifies this`jobs, this`batches, this`jobKeys, this`batchKeys
      ensures Valid()
      ensures Rows() == if batchId in old(batches) && old(batches)[batchId].status == Staging
                        then AbortRows(old(Rows()), batchId) else old(Rows())
    {
      if batchId in batches && batches[batchId].status == Staging {
        DropBatch(batchId);
      }
    }

    // Submission

    method ExistingJob(job: Job) returns (r: Option<Result<Receipt>>)
      requires Valid()
      ensures r == Existing(Rows(), job)
      ensures r.None? <==> JobKey(job).None? || forall id :: id in jobs ==> JobKey(jobs[id]) != JobKey(job)
      ensures forall id :: id in jobs && JobKey(job).Some? && JobKey(jobs[id]) == JobKey(job) ==>
        r == Some(ReplayOf(jobs[id], job))
    {
      ExistingIsTheHolder(Rows(), job);
      hide BatchesOk, BlankUnique;
      if job.idempotencyKey.None? || job.idempotencyKey.value == ""
        || (job.clientId, job.idempotencyKey.value) !in jobKeys {
        return None;
      }
      var row := jobs[jobKeys[(job.clientId, job.idempotencyKey.value)]];
      if row.idempotencyHash != job.idempotencyHash {
        return Some(Err(Conflict(row.jobId)));
      }
      return Some(Ok(Receipt(row, true)));
    }

    method ReserveCapacity(client: string, additional: nat) returns (r: Option<Failure>)
      ensures r == Capacity(Rows(), limits, client, additional)
    {
      if |set id | id in jobs && Incomplete(jobs[id].state)| + additional > limits.maxQueuedJobs {
        return Some(QueueFull);
      }
      var clientJobs := |set id | id in jobs && jobs[id].clientId == client && Incomplete(jobs[id].state)|;
      if clientJobs + additional > limits.maxActiveJobsPerClient {
        return Some(ClientFull);
      }
      return None;
    }

    method InsertJob(job: Job)
      requires Valid() && NewJob(job) && FitsBatch(batches, job) && job.jobId !in issued
      requires JobKey(job).Some? ==> JobKey(job).value !in jobKeys
      modifies this`jobs, this`jobKeys, this`issued
      ensures Valid() && Rows() == Remember(old(Rows()), job) && issued == old(issued) + {job.jobId}
    {
      RememberKeepsOk(Rows(), job);
      jobs := jobs[job.jobId := job];
      if job.idempotencyKey.Some? && job.idempotencyKey.value != "" {
        jobKeys := jobKeys[(job.clientId, job.idempotencyKey.value) := job.jobId];
      }
      issued := issued + {job.jobId};
    }

    method Enqueue(job: Job) returns (r: Result<Receipt>)
      requires Valid() && NewJob(job) && job.batchId.None? && job.jobId !in issued
      modifies this`jobs, this`jobKeys, this`issued
      ensures Valid() && (Rows(), r) == JobTables.Enqueue(old(Rows()), limits, job)
      ensures issued == old(issued) + {job.jobId}
    {
      hide TableOk, BlankUnique, Capacity;
      var existing := ExistingJob(job);
      if existing.Some? {
        issued := issued + {job.jobId};
        return existing.value;
      }
      var full := ReserveCapacity(job.clientId, 1);
      if full.Some? {
        issued := issued + {job.jobId};
        return Err(full.value);
      }
      InsertJob(job);
      return Ok(Receipt(job, false));
    }

    method BeginBatch(batch: Batch) returns (r: Result<BatchReceipt>)
      requires Valid() && batch.status == Staging && batch.batchId !in batches
      modifies this`batches
      ensures Valid() && (Rows(), r) == BeginEmpty(old(Rows()), batch)
    {
      if batch.idempotencyKey.Some? && batch.idempotencyKey.value != "" {
        var key := (batch.clientId, batch.idempotencyKey.value);
        if key in batchKeys {
          var row := batches[batchKeys[key]];
          if row.idempotencyHash != batch.idempotencyHash {
            return Err(Conflict(row.batchId));
          }
          return Ok(BatchReceipt(row, true));
        }
      }
      var stored := batch.(jobCount := 0, activatedAt := None, idempotencyKey := None, idempotencyHash := None);
      batches := batches[batch.batchId := stored];
      return Ok(BatchReceipt(stored, false));
    }

    /** A chunk is one transaction: when it fails, nothing of it stays. */
    method StageJobs(batchId: Id, chunk: seq<Job>) returns (r: Result<nat>)
      requires Valid()
      requires forall i :: 0 <= i < |chunk| ==> NewJob(chunk[i]) && chunk[i].jobId !in issued
      requires forall i, j :: 0 <= i < j < |chunk| ==> chunk[i].jobId != chunk[j].jobId
      modifies this`jobs, this`jobKeys, this`issued, this`batches
      ensures Valid() && (Rows(), r) == StageWhole(old(Rows()), limits, batchId, chunk)
      ensures issued <= old(issued) + set job | job in chunk :: job.jobId
    {
      var saved := Rows();
      ghost var savedIds := issued;
      hide JobTables.StageJobs, TableOk, BlankUnique;
      r := StageChunk(batchId, chunk);
      if r.Err? {
        jobs, batches, jobKeys := saved.jobs, saved.batches, saved.idemp;
        issued := savedIds;
      }
    }

    method StageChunk(batchId: Id, chunk: seq<Job>) returns (r: Result<nat>)
      requires Valid()
      requires forall i :: 0 <= i < |chunk| ==> NewJob(chunk[i]) && chunk[i].jobId !in issued
      requires forall i, j :: 0 <= i < j < |chunk| ==> chunk[i].jobId != chunk[j].jobId
      modifies this`jobs, this`jobKeys, this`issued, this`batches
      ensures Valid() && (Rows(), r) == JobTables.StageJobs(old(Rows()), limits, batchId, chunk)
      ensures issued <= old(issued) + set job | job in chunk :: job.jobId
    {
      hide TableOk, BlankUnique, StageEach, Stageable, Capacity;
      if batchId !in batches {
        return Err(NotFound);
      }
      var batch := batches[batchId];
      if batch.status != Staging {
        return Err(Invalid);
      }
      var count := batch.jobCount + |chunk|;
      if count > limits.maxBatchSize {
        return Err(BatchTooLarge);
      }
      if chunk != [] {
        var full := ReserveCapacity(chunk[0].clientId, |chunk|);
        if full.Some? {
          return Err(full.value);
        }
      }
      var failure := InsertEach(batchId, chunk);
      if failure.Some? {
        return Err(failure.value);
      }
      CountKeepsOk(Rows(), batchId, count);
      batches := batches[batchId := batch.(jobCount := count)];
      return Ok(count);
    }

    lemma InitiallyStageable(chunk: seq<Job>)
      requires Valid()
      requires forall i :: 0 <= i < |chunk| ==> NewJob(chunk[i]) && chunk[i].jobId !in issued
      requires forall i, j :: 0 <= i < j < |chunk| ==> chunk[i].jobId != chunk[j].jobId
      ensures Stageable(Rows(), chunk) && chunk[0..] == chunk
    {
    }

    method InsertOne(batchId: Id, job: Job) returns (failure: Option<Failure>)
      requires Valid() && batchId in batches && batches[batchId].status == Staging
      requires NewJob(job) && job.jobId !in issued
      modifies this`jobs, this`jobKeys, this`issued
      ensures Valid() && failure == StageFailure(old(Rows()), batchId, job)
      ensures Rows() == if failure.Some? then old(Rows()) else Remember(old(Rows()), job)
      ensures old(issued) <= issued <= old(issued) + {job.jobId} && (failure.None? ==> job.jobId in issued)
    {
      hide JobsOk, BatchesOk, BlankUnique;
      if job.batchId != Some(batchId) || job.state != Staged {
        return Some(Invalid);
      }
      var dup := ExistingJob(job);
      if dup.Some? {
        return Some(if dup.value.Ok? then Conflict(dup.value.value.job.jobId) else dup.value.error);
      }
      InsertJob(job);
      return None;
    }

    method InsertEach(batchId: Id, chunk: seq<Job>) returns (failure: Option<Failure>)
      requires Valid() && batchId in batches && batches[batchId].status == Staging
      requires forall i :: 0 <= i < |chunk| ==> NewJob(chunk[i]) && chunk[i].jobId !in issued
      requires forall i, j :: 0 <= i < j < |chunk| ==> chunk[i].jobId != chunk[j].jobId
      modifies this`jobs, this`jobKeys, this`issued
      ensures Valid() && (Rows(), failure) == StageEach(old(Rows()), batchId, chunk)
      ensures issued <= old(issued) + set job | job in chunk :: job.jobId
    {
      hide StageFailure, Remember, NewJob, JobsOk, IdempExact, BatchesOk, BlankUnique;
      InitiallyStageable(chunk);
      for i := 0 to |chunk|
        invariant Valid()
        invariant forall k :: i <= k < |chunk| ==> chunk[k].jobId !in issued
        invariant Stageable(Rows(), chunk[i..])
        invariant StageEach(old(Rows()), batchId, chunk) == StageEach(Rows(), batchId, chunk[i..])
        invariant issued <= old(issued) + set job | job in chunk :: job.jobId
      {
        assert chunk[i..][0] == chunk[i] && chunk[i..][1..] == chunk[i + 1..] && chunk[i] in chunk;
        failure := InsertOne(batchId, chunk[i]);
        if failure.Some? {
          return;
        }
        InitiallyStageable(chunk[i + 1..]);
      }
      return None;
    }

    method ActivateBatch(batchId: Id, key: Option<string>, hash: Option<string>, now: int)
      returns (r: Result<BatchReceipt>)
      requires Valid()
      modifies this`jobs, this`batches, this`jobKeys, this`batchKeys
      ensures Valid() && (Rows(), r) == ActivateSql(old(Rows()), batchId, key, hash, now)
    {
      ActivateSqlKeepsOk(Rows(), batchId, key, hash, now);
      ActivateSqlKeepsBlank(Rows(), batchId, key, hash, now);
      if batchId !in batches {
        return Err(NotFound);
      }
      var batch := batches[batchId];
      var keyed := key.Some? && key.value != "";
      if keyed && (batch.clientId, key.value) in batchKeys && batchKeys[(batch.clientId, key.value)] != batchId {
        r := ReplayOrRefuse(batchKeys[(batch.clientId, key.value)], batchId, hash);
        return;
      }
      if batch.status == Active {
        return Ok(BatchReceipt(batch, false));
      }
      if batch.status != Staging {
        return Err(Invalid);
      }
      if key == Some("") && exists b :: b in batches && BlankOf(batches[b], batch.clientId) {
        // The UPDATE fails on the unique index; the row that holds the key is looked up.
        var holder := FindBlank(batch.clientId);
        r := ReplayOrRefuse(holder, batchId, hash);
        return;
      }
      WriteActivation(batchId, key, hash, now);
      return Ok(BatchReceipt(batches[batchId], false));
    }

    method FindBlank(client: string) returns (holder: Id)
      requires Valid() && exists b :: b in batches && BlankOf(batches[b], client)
      ensures holder == BlankHolder(batches, client)
    {
      holder :| holder in batches && BlankOf(batches[holder], client);
    }

    /** The key is taken: the same payload gives the batch that has it, and this
        one is dropped; another payload is refused. */
    method ReplayOrRefuse(other: Id, batchId: Id, hash: Option<string>) returns (r: Result<BatchReceipt>)
      requires Valid() && batchId in batches && other in batches
      modifies this`jobs, this`batches, this`jobKeys, this`batchKeys
      ensures Valid()
      ensures (Rows(), r) == if old(batches)[other].idempotencyHash != hash
                             then (old(Rows()), Err(Conflict(old(batches)[other].batchId)))
                             else (AbortRows(old(Rows()), batchId), Ok(BatchReceipt(old(batches)[other], true)))
    {
      var row := batches[other];
      if row.idempotencyHash != hash {
        return Err(Conflict(row.batchId));
      }
      DropBatch(batchId);
      return Ok(BatchReceipt(row, true));
    }

    method WriteActivation(batchId: Id, key: Option<string>, hash: Option<string>, now: int)
      requires batchId in batches
      modifies this`jobs, this`batches, this`batchKeys
      ensures Rows() == ActivatedRows(old(Rows()), batchId, key, hash, now)
    {
      var batch := batches[batchId].(status := Active, activatedAt := Some(now), idempotencyKey := key,
                                     idempotencyHash := hash);
      if key.Some? && key.value != "" {
        batchKeys := batchKeys[(batch.clientId, key.value) := batchId];
      }
      jobs := WithQueued(jobs, batchId, now);
      var rows := set id | id in jobs && jobs[id].batchId == Some(batchId);
      assert rows == OfBatch(old(Rows()), batchId);
      batches := batches[batchId := batch.(jobCount := |rows|)];
    }

    // Rows chosen and changed together

    /** UPDATE jobs SET the result of change WHERE job_id is in ids. */
    method UpdateRows(ids: set<Id>, change: Job -> Job)
      requires Valid() && ids <= jobs.Keys
      requires forall id :: id in ids ==> StaysGood(jobs[id], change(jobs[id]), batches)
      modifies this`jobs
      ensures Valid() && jobs == Updated(old(jobs), ids, change)
    {
      var todo := ids;
      ghost var before := jobs;
      UpdatedKeepsOk(Rows(), ids, change);
      UpdatedEnds(before, ids, change);
      hide StaysGood, Updated, TableOk;
      while todo != {}
        invariant todo <= ids <= before.Keys && jobs == Updated(before, ids - todo, change)
        decreases |todo|
      {
        var id :| id in todo;
        UpdatedStep(before, ids, todo, id, change);
        jobs := jobs[id := change(jobs[id])];
        todo := todo - {id};
      }
    }

    // Recovery: four sweeps, each over the rows the sweeps before it left

    method Maintenance(now: int) returns (report: Recovery.Report)
      requires Valid()
      modifies this`jobs
      ensures Valid() && Rows() == Recovery.SweepTable(old(Rows()), now)
      ensures report == Recovery.SweptReport(old(jobs), now)
      ensures EachAfterSweep(old(jobs), jobs, now) && EachToldBySweep(old(jobs), jobs, now, report)
    {
      JobsAreOk();
      SweepInFields(Rows(), now);
      SweepIsTold(Rows(), now);
      hide Valid, EachAfterSweep, EachToldBySweep;
      var expired := ExpireLeases(now);
      var due := PromoteDue(now);
      var late := FailLate(now);
      var flagged := CancelFlagged(now);
      Recovery.SweepsCompose(old(jobs), now);
      report := expired + due + late + flagged;
    }

    lemma JobsAreOk()
      requires Valid()
      ensures JobsOk(Rows())
    {
    }

    method ExpireLeases(now: int) returns (report: Recovery.Report)
      requires Valid()
      modifies this`jobs
      ensures Valid() && jobs == Recovery.AfterExpiry(old(jobs), now) && report == Recovery.ExpiryReport(old(jobs), now)
    {
      var rows := set id | id in jobs && LeaseOver(jobs[id], now);
      report := set id, e | id in rows && e in Recovery.ExpiryEvents(jobs[id]) :: (e, id);
      forall id | id in rows ensures StaysGood(jobs[id], Expired(jobs[id], now), batches) {
        ExpiredStaysGood(jobs[id], batches, now);
      }
      hide Valid, StaysGood, Expired;
      UpdateRows(rows, job => Expired(job, now));
    }

    method PromoteDue(now: int) returns (report: Recovery.Report)
      requires Valid()
      modifies this`jobs
      ensures Valid() && jobs == Recovery.AfterPromotion(old(jobs), now)
        && report == Recovery.PromotionReport(old(jobs), now)
    {
      var rows := set id | id in jobs && Recovery.DueAgain(jobs[id], now);
      report := set id | id in rows :: (Recovery.Promoted, id);
      hide Valid, Queueing, Recovery.DueAgain;
      UpdateRows(rows, job => Queueing(job, now));
    }

    method FailLate(now: int) returns (report: Recovery.Report)
      requires Valid()
      modifies this`jobs
      ensures Valid() && jobs == Recovery.AfterDeadlines(old(jobs), now)
        && report == Recovery.DeadlineReport(old(jobs), now)
    {
      var rows := set id | id in jobs && Recovery.Late(jobs[id], now);
      report := set id | id in rows :: (Recovery.DeadlineHit, id);
      forall id | id in rows ensures StaysGood(jobs[id], FailedWith(jobs[id], DEADLINE, false, now), batches) {
        LateStaysGood(jobs[id], batches, now);
      }
      hide Valid, StaysGood, FailedWith, Recovery.Late;
      UpdateRows(rows, job => FailedWith(job, DEADLINE, false, now));
    }

    method CancelFlagged(now: int) returns (report: Recovery.Report)
      requires Valid()
      modifies this`jobs
      ensures Valid() && jobs == Recovery.AfterCancels(old(jobs), now) && report == Recovery.CancelReport(old(jobs))
    {
      var rows := set id | id in jobs && Recovery.FlaggedIdle(jobs[id]);
      report := set id | id in rows :: (Recovery.ExpiredCancelled, id);
      forall id | id in rows ensures StaysGood(jobs[id], CancelledAt(jobs[id], now), batches) {
        FlaggedStaysGood(jobs[id], batches, now);
      }
      hide Valid, StaysGood, CancelledAt, Recovery.FlaggedIdle;
      UpdateRows(rows, job => CancelledAt(job, now));
    }

    // Claims

    /** The conditional UPDATE behind every claim; false when no row matched. */
    method ClaimRow(id: Id, owner: string, leaseUntil: int, now: int) returns (ok: bool)
      requires Valid()
      modifies this`jobs
      ensures Valid() && (Rows(), ok) == Claim(old(Rows()), id, owner, leaseUntil, now)
    {
      ClaimKeepsOk(Rows(), id, owner, leaseUntil, now);
      hide TableOk, BlankUnique;
      ok := id in jobs && jobs[id].state == Queued && Due(jobs[id].notBefore, now) && !Passed(jobs[id].deadlineAt, now)
            && !jobs[id].cancelRequested && BatchActive(batches, jobs[id].batchId);
      if ok {
        var job := jobs[id];
        job := job.(state := Leased, leaseOwner := Some(owner), leaseExpiresAt := Some(leaseUntil),
                    attemptCount := job.attemptCount + 1, updatedAt := now);
        assert job == Claimed(jobs[id], owner, leaseUntil, now);
        jobs := jobs[id := job];
      }
    }

    method ClaimById(id: Id, owner: string, leaseUntil: int, now: int) returns (claimed: Option<Job>)
      requires Valid()
      modifies this`jobs
      ensures Valid() && (Rows(), claimed.Some?) == Claim(old(Rows()), id, owner, leaseUntil, now)
      ensures claimed.Some? <==> id in ClaimableIds(old(Rows()), now)
      ensures claimed.Some? ==> id in jobs && claimed.value == jobs[id] && claimed.value.jobId == id
    {
      hide Claim, ClaimableIds;
      ClaimIffClaimable(Rows(), id, owner, leaseUntil, now);
      var ok := ClaimRow(id, owner, leaseUntil, now);
      if !ok {
        return None;
      }
      RowIsThere(old(Rows()), id, owner, leaseUntil, now);
      return Some(jobs[id]);
    }

    /** The first rows of each class, interactive first. */
    method Candidates(model: string, now: int, limit: nat) returns (window: seq<Candidate>)
      requires Valid()
      ensures IsWindow(window, Rows(), model, now, limit)
    {
      window := [];
      for k := 0 to CLASS_COUNT
        invariant ShowsUpTo(window, Rows(), model, now, limit, k)
      {
        var ids := TakeFirst(jobs, true, InClass(Rows(), model, ClassAt(k), now), limit);
        InClassOnly(Rows(), model, ClassAt(k), now, limit, ids);
        ShowsOneMore(window, Rows(), model, now, limit, k, ids);
        window := window + Listing(jobs, ids);
      }
    }

    method ClaimNext(model: string, picker: PickerState, now: int, owner: string, leaseUntil: int,
                     settings: SchedulerSettings)
      returns (claimed: Option<Job>, next: PickerState, ghost window: seq<Candidate>, ghost skipped: seq<Id>)
      requires Valid()
      modifies this`jobs
      ensures Valid() && IsWindow(window, old(Rows()), model, now, settings.diskCandidatesPerClass)
      ensures DiskRun(window, ClaimableIds(old(Rows()), now), model, picker, Epoch(now), settings, skipped,
                      IdOf(claimed), next)
      ensures claimed.Some? ==> Claim(old(Rows()), claimed.value.jobId, owner, leaseUntil, now) == (Rows(), true)
      ensures claimed.Some? ==> claimed.value.jobId in jobs && jobs[claimed.value.jobId] == claimed.value
      ensures claimed.None? ==> Rows() == old(Rows())
      ensures claimed.Some? ==> ClaimedOnly(old(Rows()), Rows(), claimed.value.jobId, owner, leaseUntil, now)
      ensures claimed.Some? ==> claimed.value.resolvedModel == model
      ensures claimed.Some? ==>
        ScoresMostShown(old(Rows()), claimed.value.jobId, settings.diskCandidatesPerClass, SkipsOf(picker, model), now,
                        settings)
    {
      JobsAreOk();
      var candidates := Candidates(model, now, settings.diskCandidatesPerClass);
      window, skipped := candidates, [];
      assert Misses(window, ClaimableIds(Rows(), now), model, picker, Epoch(now), settings, []);
      var out: set<Id> := {};
      hide Valid, IsWindow, DiskRun, Misses, Chosen, ClaimableIds, Claim, Members, ScoresMostShown, MayClaim, JobsOk;
      NoIds();
      for tries := 0 to SQL_TRIES
        invariant Valid() && Rows() == old(Rows()) && |skipped| == tries && out == Members(skipped)
        invariant Misses(window, ClaimableIds(Rows(), now), model, picker, Epoch(now), settings, skipped)
      {
        var choice, proposed, outcome :=
          TryWindow(Minus(candidates, out), model, picker, now, owner, leaseUntil, settings);
        DiskRunEnds(window, ClaimableIds(old(Rows()), now), model, picker, Epoch(now), settings, skipped, choice,
                    proposed);
        if choice.None? {
          return None, picker, window, skipped;
        }
        if outcome.Some? {
          ClaimInFields(old(Rows()), choice.value.jobId, owner, leaseUntil, now);
          DiskClaimTakesTheBest(old(Rows()), window, model, picker, now, settings, skipped, choice.value.jobId,
                                proposed);
          return outcome, proposed, window, skipped;
        }
        MissOneMore(window, ClaimableIds(Rows(), now), model, picker, Epoch(now), settings, skipped,
                    choice.value.jobId);
        skipped := skipped + [choice.value.jobId];
        out := out + {choice.value.jobId};
      }
      DiskRunGivesUp(window, ClaimableIds(Rows(), now), model, picker, Epoch(now), settings, skipped);
      return None, picker, window, skipped;
    }

    method TryWindow(pool: seq<Candidate>, model: string, picker: PickerState, now: int, owner: string, leaseUntil: int,
                     settings: SchedulerSettings)
      returns (choice: Option<Candidate>, proposed: PickerState, outcome: Option<Job>)
      requires Valid()
      modifies this`jobs
      ensures Valid() && (choice, proposed) == Chosen(picker, model, pool, Epoch(now), settings)
      ensures outcome.None? ==> Rows() == old(Rows())
      ensures outcome.Some? ==> choice.Some? && outcome.value.jobId == choice.value.jobId
      ensures choice.Some? ==> (outcome.Some? <==> choice.value.jobId in ClaimableIds(old(Rows()), now))
      ensures outcome.Some? ==> Claim(old(Rows()), outcome.value.jobId, owner, leaseUntil, now) == (Rows(), true)
      ensures outcome.Some? ==> outcome.value.jobId in jobs && jobs[outcome.value.jobId] == outcome.value
    {
      hide Valid, Chosen, ClaimableIds, Claim;
      choice, proposed := Select(picker, model, pool, Epoch(now), settings);
      outcome := None;
      if choice.Some? {
        outcome := ClaimById(choice.value.jobId, owner, leaseUntil, now);
        if outcome.None? {
          RowsStay(old(Rows()), Rows(), choice.value.jobId, owner, leaseUntil, now);
        }
      }
    }

    method ClaimCompatible(model: string, questionsHash: string, exclude: set<Id>, limit: int, now: int, owner: string,
                           leaseUntil: int)
      returns (claimed: seq<Id>)
      requires Valid()
      modifies this`jobs
      ensures Valid()
      ensures Companions(old(Rows()), model, questionsHash, exclude, limit, now, claimed)
      ensures Rows() == old(Rows()).(jobs := Taken(old(jobs), Members(claimed), owner, leaseUntil, now))
      ensures OldestJoin(old(Rows()), model, questionsHash, exclude, limit, now, claimed)
    {
      hide FirstOf, Compatible, Taken, OldestJoin;
      forall ids | Companions(Rows(), model, questionsHash, exclude, limit, now, ids)
        ensures OldestJoin(Rows(), model, questionsHash, exclude, limit, now, ids)
      {
        CompanionsInFields(Rows(), model, questionsHash, exclude, limit, now, ids);
      }
      NothingToTake(Rows(), model, questionsHash, exclude, now, owner, leaseUntil);
      if limit <= 0 {
        return [];
      }
      var rows := TakeFirst(jobs, false, Compatible(Rows(), model, questionsHash, now), limit + |exclude|);
      claimed := ClaimRows(model, questionsHash, exclude, limit, now, owner, leaseUntil, rows);
    }

    /** Claims the selected rows in order, passing over the excluded ones. */
    method ClaimRows(model: string, questionsHash: string, exclude: set<Id>, limit: nat, now: int, owner: string,
                     leaseUntil: int, rows: seq<Id>)
      returns (claimed: seq<Id>)
      requires Valid() && limit > 0
      requires FirstOf(jobs, false, Compatible(Rows(), model, questionsHash, now), limit + |exclude|, rows)
      modifies this`jobs
      ensures Valid()
        && FirstOf(old(jobs), false, Compatible(old(Rows()), model, questionsHash, now) - exclude, limit, claimed)
      ensures Rows() == old(Rows()).(jobs := Taken(old(jobs), Members(claimed), owner, leaseUntil, now))
    {
      hide Valid, FirstOf, Compatible, Taken, Claim, ClaimableIds, Without;
      ghost var before := Rows();
      claimed := [];
      NothingToTake(Rows(), model, questionsHash, exclude, now, owner, leaseUntil);
      WithoutNothing(rows, exclude);
      var i := 0;
      while i < |rows| && |claimed| < limit
        invariant i <= |rows| && |claimed| <= limit && claimed == Without(rows[..i], exclude)
        invariant Valid() && Rows() == before.(jobs := Taken(before.jobs, Members(claimed), owner, leaseUntil, now))
      {
        WithoutStep(rows, exclude, i);
        if rows[i] !in exclude {
          NextIsClaimable(before, model, questionsHash, now, limit + |exclude|, rows, i, Without(rows[..i], exclude),
                          owner, leaseUntil);
          var ok := ClaimRow(rows[i], owner, leaseUntil, now);
          claimed := claimed + [rows[i]];
        }
        i := i + 1;
      }
      WithoutGrows(rows, exclude, i);
      WideWindowSuffices(before.jobs, false, Compatible(before, model, questionsHash, now), exclude, limit, rows,
                         claimed);
    }

    // Leases and single jobs

    // Each operation below is one UPDATE with its own WHERE clause, or a read and an
    // UPDATE in one transaction.

    method ExtendLease(id: Id, owner: string, leaseUntil: int, now: int) returns (ok: bool)
      requires Valid()
      modifies this`jobs
      ensures Valid() && (Rows(), ok) == ApplyLease(old(Rows()), id, owner, Extend(leaseUntil), now)
    {
      LeaseOpKeepsOk(Rows(), id, owner, Extend(leaseUntil), now);
      hide TableOk, BlankUnique;
      ok := id in jobs && jobs[id].leaseOwner == Some(owner) && (jobs[id].state == Leased || jobs[id].state == Running);
      if ok {
        jobs := jobs[id := jobs[id].(leaseExpiresAt := Some(leaseUntil), updatedAt := now)];
      }
    }

    method MarkRunning(id: Id, owner: string, leaseUntil: int, now: int) returns (ok: bool)
      requires Valid()
      modifies this`jobs
      ensures Valid() && (Rows(), ok) == ApplyLease(old(Rows()), id, owner, LeaseOp.MarkRunning(leaseUntil), now)
    {
      LeaseOpKeepsOk(Rows(), id, owner, LeaseOp.MarkRunning(leaseUntil), now);
      hide TableOk, BlankUnique;
      ok := id in jobs && jobs[id].leaseOwner == Some(owner) && jobs[id].state == Leased;
      if ok {
        jobs := jobs[id := jobs[id].(state := Running, startedAt := Coalesce(jobs[id].startedAt, now),
                                     leaseExpiresAt := Some(leaseUntil), updatedAt := now)];
      }
    }

    method Complete(id: Id, owner: string, result: string, now: int) returns (ok: bool)
      requires Valid()
      modifies this`jobs
      ensures Valid() && (Rows(), ok) == ApplyLease(old(Rows()), id, owner, LeaseOp.Complete(result), now)
    {
      LeaseOpKeepsOk(Rows(), id, owner, LeaseOp.Complete(result), now);
      hide TableOk, BlankUnique;
      ok := id in jobs && jobs[id].leaseOwner == Some(owner) && jobs[id].state == Running;
      if ok {
        jobs := jobs[id := jobs[id].(state := Succeeded, result := Some(result), finishedAt := Some(now),
                                     updatedAt := now,
                                     leaseOwner := None, leaseExpiresAt := None, error := None)];
      }
    }

    method Fail(id: Id, owner: string, error: string, deadLetter: bool, now: int) returns (ok: bool)
      requires Valid()
      modifies this`jobs
      ensures Valid() && (Rows(), ok) == ApplyLease(old(Rows()), id, owner, LeaseOp.Fail(error, deadLetter), now)
    {
      LeaseOpKeepsOk(Rows(), id, owner, LeaseOp.Fail(error, deadLetter), now);
      hide TableOk, BlankUnique;
      var state := if deadLetter then DeadLetter else Failed;
      ok := id in jobs && jobs[id].leaseOwner == Some(owner) && jobs[id].state == Running;
      if ok {
        jobs := jobs[id := jobs[id].(state := state, error := Some(error), finishedAt := Some(now), updatedAt := now,
                                     leaseOwner := None, leaseExpiresAt := None)];
      }
    }

    method Retry(id: Id, owner: string, error: string, notBefore: int, resolved: string, fallback: Option<string>,
                 now: int)
      returns (ok: bool)
      requires Valid()
      modifies this`jobs
      ensures Valid()
      ensures (Rows(), ok) == ApplyLease(old(Rows()), id, owner, LeaseOp.Retry(error, notBefore, resolved, fallback),
                                         now)
    {
      LeaseOpKeepsOk(Rows(), id, owner, LeaseOp.Retry(error, notBefore, resolved, fallback), now);
      hide TableOk, BlankUnique;
      ok := id in jobs && jobs[id].leaseOwner == Some(owner) && jobs[id].state == Running;
      if ok {
        jobs := jobs[id := jobs[id].(state := RetryWait, error := Some(error), notBefore := Some(notBefore),
                                     resolvedModel := resolved, fallback := fallback, leaseOwner := None,
                                     leaseExpiresAt := None, updatedAt := now)];
      }
    }

    /** The row is read and checked first; the UPDATE then asks for its id only. */
    method FinishCancel(id: Id, owner: string, now: int) returns (ok: bool)
      requires Valid()
      modifies this`jobs
      ensures Valid() && (Rows(), ok) == ApplyLease(old(Rows()), id, owner, LeaseOp.FinishCancel, now)
    {
      LeaseOpKeepsOk(Rows(), id, owner, LeaseOp.FinishCancel, now);
      hide TableOk, BlankUnique;
      if id !in jobs || jobs[id].leaseOwner != Some(owner) || (jobs[id].state != Leased && jobs[id].state != Running) {
        return false;
      }
      MarkCancelled(id, now);
      return true;
    }

    method MarkCancelled(id: Id, now: int)
      requires id in jobs
      modifies this`jobs
      ensures jobs == old(jobs)[id := CancelledAt(old(jobs)[id], now)]
    {
      jobs := jobs[id := jobs[id].(state := Cancelled, finishedAt := Some(now), updatedAt := now, leaseOwner := None,
                                   leaseExpiresAt := None, cancelRequested := true)];
    }

    /** The attempts and the model are computed from the row that was read, then
        written with the id as the only condition. */
    method ReleaseToQueue(id: Id, owner: string, resolved: Option<string>, decrement: bool, now: int) returns (ok: bool)
      requires Valid()
      modifies this`jobs
      ensures Valid() && (Rows(), ok) == ApplyLease(old(Rows()), id, owner, Release(resolved, decrement), now)
    {
      LeaseOpKeepsOk(Rows(), id, owner, Release(resolved, decrement), now);
      hide TableOk, BlankUnique;
      if id !in jobs || jobs[id].leaseOwner != Some(owner) || (jobs[id].state != Leased && jobs[id].state != Running) {
        return false;
      }
      var attempt := jobs[id].attemptCount;
      if decrement {
        attempt := if attempt - 1 > 0 then attempt - 1 else 0;
      }
      var model := if resolved.Some? && resolved.value != "" then resolved.value else jobs[id].resolvedModel;
      jobs := jobs[id := jobs[id].(state := Queued, attemptCount := attempt, resolvedModel := model, leaseOwner := None,
                                   leaseExpiresAt := None, updatedAt := now)];
      return true;
    }

    method Cancel(id: Id, now: int) returns (r: Result<Job>)
      requires Valid()
      modifies this`jobs
      ensures Valid() && (Rows(), r) == CancelSql(old(Rows()), id, now)
      ensures id in old(jobs) ==> r == Ok(jobs[id]) && AfterCancel(old(jobs)[id], jobs[id], now)
    {
      if id !in jobs {
        return Err(NotFound);
      }
      CancelInFields(jobs[id], now);
      FlaggedAlready(now);
      CancelSqlKeepsOk(Rows(), id, now);
      hide TableOk;
      var job := jobs[id];
      if Cancellable(job.state) {
        MarkCancelled(id, now);
      } else if job.state == Running && !job.cancelRequested {
        jobs := jobs[id := job.(cancelRequested := true, updatedAt := now)];
      }
      assert old(jobs)[id := old(jobs)[id]] == old(jobs);
      return Ok(jobs[id]);
    }

    method Requeue(id: Id, now: int) returns (r: Result<Job>)
      requires Valid()
      modifies this`jobs
      ensures Valid() && (Rows(), r) == JobTables.Requeue(old(Rows()), id, now)
    {
      RequeueKeepsOk(Rows(), id, now);
      if id !in jobs {
        return Err(NotFound);
      }
      if jobs[id].state != Failed && jobs[id].state != DeadLetter {
        return Err(Invalid);
      }
      jobs := jobs[id := StartedOver(jobs[id], now)];
      return Ok(jobs[id]);
    }
  }
}
