/** The job and batch tables as a value, one function per atomic transition, and
    the invariant every transition keeps. Both backends are proved against it. */
module JobTables {
  import opened Types

  /** (client, idempotency key) */
  type Key = (string, string)

  datatype Table = Table(jobs: map<Id, Job>, batches: map<Id, Batch>, idemp: map<Key, Id>, batchIdemp: map<Key, Id>)

  datatype Failure = NotFound | Invalid | QueueFull | ClientFull | BatchTooLarge | Conflict(other: Id)

  datatype Result<+T> = Ok(value: T) | Err(error: Failure)

  datatype Receipt = Receipt(job: Job, replayed: bool)

  datatype BatchReceipt = BatchReceipt(batch: Batch, replayed: bool)

  datatype Limits = Limits(maxQueuedJobs: int, maxBatchSize: int, maxActiveJobsPerClient: int)

  // One job

  predicate BatchActive(batches: map<Id, Batch>, batchId: Option<Id>) {
    batchId.None? || (batchId.value in batches && batches[batchId.value].status == Active)
  }

  predicate Due(moment: Option<int>, now: int) {
    moment.None? || moment.value <= now
  }

  predicate Passed(deadline: Option<int>, now: int) {
    deadline.Some? && deadline.value <= now
  }

  predicate Claimable(job: Job, now: int, active: bool) {
    job.state == Queued && !job.cancelRequested && active && Due(job.notBefore, now) && !Passed(job.deadlineAt, now)
  }

  predicate HoldsLease(job: Job, owner: string) {
    job.leaseOwner == Some(owner) && Held(job.state)
  }

  predicate OwnsRunning(job: Job, owner: string) {
    job.state == Running && job.leaseOwner == Some(owner)
  }

  function Claimed(job: Job, owner: string, leaseUntil: int, now: int): Job {
    job.(state := Leased, leaseOwner := Some(owner), leaseExpiresAt := Some(leaseUntil),
         attemptCount := job.attemptCount + 1, updatedAt := now)
  }

  function Extended(job: Job, leaseUntil: int, now: int): Job {
    job.(leaseExpiresAt := Some(leaseUntil), updatedAt := now)
  }

  function Started(job: Job, leaseUntil: int, now: int): Job {
    job.(state := Running, startedAt := if job.startedAt.Some? then job.startedAt else Some(now),
         leaseExpiresAt := Some(leaseUntil), updatedAt := now)
  }

  function Completed(job: Job, result: string, now: int): Job {
    job.(state := Succeeded, result := Some(result), finishedAt := Some(now), updatedAt := now,
         leaseOwner := None, leaseExpiresAt := None, error := None)
  }

  function FailedWith(job: Job, error: string, deadLetter: bool, now: int): Job {
    job.(state := if deadLetter then DeadLetter else Failed, error := Some(error), finishedAt := Some(now),
         updatedAt := now, leaseOwner := None, leaseExpiresAt := None)
  }

  function Waiting(job: Job, error: string, notBefore: int, resolved: string, fallback: Option<string>, now: int): Job {
    job.(state := RetryWait, error := Some(error), notBefore := Some(notBefore), resolvedModel := resolved,
         fallback := fallback, leaseOwner := None, leaseExpiresAt := None, updatedAt := now)
  }

  function CancelledAt(job: Job, now: int): Job {
    job.(state := Cancelled, finishedAt := Some(now), updatedAt := now, leaseOwner := None,
         leaseExpiresAt := None, cancelRequested := true)
  }

  function Flagged(job: Job, now: int): Job {
    job.(cancelRequested := true, updatedAt := now)
  }

  function BackInQueue(job: Job, now: int): Job {
    job.(state := Queued, leaseOwner := None, leaseExpiresAt := None, updatedAt := now)
  }

  /** A voluntary return restores the attempt the claim charged. An empty model
      name, like none, keeps the model. */
  function Released(job: Job, resolved: Option<string>, decrement: bool, now: int): Job {
    job.(
      state := Queued, leaseOwner := None, leaseExpiresAt := None, updatedAt := now,
      attemptCount := if !decrement then job.attemptCount else if job.attemptCount >= 1 then job.attemptCount - 1
        else 0,
      resolvedModel := if resolved.Some? && resolved.value != "" then resolved.value else job.resolvedModel)
  }

  function Queueing(job: Job, now: int): Job {
    job.(state := Queued, updatedAt := now)
  }

  function StartedOver(job: Job, now: int): Job {
    job.(state := Queued, attemptCount := 0, error := None, result := None, startedAt := None, finishedAt := None,
         leaseOwner := None, leaseExpiresAt := None, notBefore := None, cancelRequested := false, updatedAt := now)
  }

  /** A job cancelled by its caller: at once unless it is running. */
  function CancelRequest(job: Job, now: int): Job {
    if Cancellable(job.state) then CancelledAt(job, now)
    else if job.state == Running then Flagged(job, now)
    else job
  }

  // Maintenance, one job

  const LEASE_EXPIRED := "lease_expired"
  const DEADLINE := "deadline"

  predicate LeaseOver(job: Job, now: int) {
    Held(job.state) && job.leaseExpiresAt.Some? && job.leaseExpiresAt.value <= now
  }

  function Expired(job: Job, now: int): Job {
    if job.cancelRequested then CancelledAt(job, now)
    else if job.attemptCount >= job.maxAttempts then FailedWith(job, LEASE_EXPIRED, true, now)
    else BackInQueue(job, now)
  }

  /** One pass of the in-memory backend: the first branch that applies. */
  function Maintained(job: Job, now: int): Job {
    if LeaseOver(job, now) then Expired(job, now)
    else if job.state == RetryWait && Due(job.notBefore, now) then Queueing(job, now)
    else if job.state == Queued && Passed(job.deadlineAt, now) then FailedWith(job, DEADLINE, false, now)
    else if Cancellable(job.state) && job.state != Leased && job.cancelRequested then CancelledAt(job, now)
    else job
  }

  // Identity and invariant

  /** The fields no transition changes. */
  predicate SameIdentity(a: Job, b: Job) {
    && a.jobId == b.jobId && a.batchId == b.batchId && a.batchOrdinal == b.batchOrdinal
    && a.idempotencyKey == b.idempotencyKey && a.idempotencyHash == b.idempotencyHash && a.clientId == b.clientId
    && a.createdAt == b.createdAt && a.priority == b.priority && a.schedulingClass == b.schedulingClass
    && a.requestedModel == b.requestedModel && a.questionsHash == b.questionsHash
    && a.maxAttempts == b.maxAttempts && a.deadlineAt == b.deadlineAt
  }

  /** A lease exactly while claimed, a finish time exactly when finished, a result
      exactly when it succeeded, and no delay while staged. */
  predicate JobOk(job: Job) {
    && (job.leaseOwner.Some? <==> Held(job.state))
    && (job.leaseExpiresAt.Some? <==> Held(job.state))
    && (job.finishedAt.Some? <==> Terminal(job.state))
    && (job.result.Some? <==> job.state == Succeeded)
    && (job.state == Staged ==> job.notBefore.None?)
  }

  predicate FitsBatch(batches: map<Id, Batch>, job: Job) {
    match job.batchId
    case None => job.state != Staged
    case Some(b) =>
      b in batches
      && match batches[b].status
         case Staging => job.state == Staged || job.state == Cancelled
         case Active => job.state != Staged
         case Aborted => false
  }

  function KeyOf(client: string, key: Option<string>): Option<Key> {
    if key.Some? && key.value != "" then Some((client, key.value)) else None
  }

  function JobKey(job: Job): Option<Key> {
    KeyOf(job.clientId, job.idempotencyKey)
  }

  function BatchKey(batch: Batch): Option<Key> {
    KeyOf(batch.clientId, batch.idempotencyKey)
  }

  ghost predicate JobsOk(t: Table) {
    forall id :: id in t.jobs ==> t.jobs[id].jobId == id && JobOk(t.jobs[id]) && FitsBatch(t.batches, t.jobs[id])
  }

  /** The lookup holds exactly the keyed jobs that are retained. */
  ghost predicate IdempExact(t: Table) {
    && (forall id :: id in t.jobs && JobKey(t.jobs[id]).Some? ==>
          JobKey(t.jobs[id]).value in t.idemp && t.idemp[JobKey(t.jobs[id]).value] == id)
    && (forall k :: k in t.idemp ==> t.idemp[k] in t.jobs && JobKey(t.jobs[t.idemp[k]]) == Some(k))
  }

  /** The batch lookup holds exactly the keyed batches, all of them active. */
  ghost predicate BatchesOk(t: Table) {
    && (forall b :: b in t.batches ==>
          && t.batches[b].batchId == b
          && (t.batches[b].idempotencyKey.Some? ==> t.batches[b].status == Active)
          && (BatchKey(t.batches[b]).Some? ==>
                BatchKey(t.batches[b]).value in t.batchIdemp && t.batchIdemp[BatchKey(t.batches[b]).value] == b))
    && (forall k :: k in t.batchIdemp ==>
        t.batchIdemp[k] in t.batches && BatchKey(t.batches[t.batchIdemp[k]]) == Some(k))
  }

  ghost predicate TableOk(t: Table) {
    JobsOk(t) && IdempExact(t) && BatchesOk(t)
  }

  const EMPTY := Table(map[], map[], map[], map[])

  // Updates that keep every job's identity

  ghost predicate SameJobs(t: Table, u: Table) {
    && u.jobs.Keys == t.jobs.Keys && u.idemp == t.idemp
    && (forall id :: id in t.jobs ==> SameIdentity(t.jobs[id], u.jobs[id]))
  }

  lemma SameJobsKeepIdemp(t: Table, u: Table)
    requires IdempExact(t) && SameJobs(t, u)
    ensures IdempExact(u)
  {
  }

  ghost predicate EachOk(jobs: map<Id, Job>, batches: map<Id, Batch>) {
    forall id :: id in jobs ==> JobOk(jobs[id]) && FitsBatch(batches, jobs[id])
  }

  lemma SameJobsKeepOk(t: Table, u: Table)
    requires TableOk(t) && SameJobs(t, u) && EachOk(u.jobs, u.batches)
    requires u.batches == t.batches && u.batchIdemp == t.batchIdemp
    ensures TableOk(u)
  {
  }

  function Put(t: Table, job: Job): Table {
    t.(jobs := t.jobs[job.jobId := job])
  }

  /** A transition of one job keeps the table well formed when it keeps the job so. */
  lemma PutKeepsOk(t: Table, job: Job)
    requires TableOk(t) && job.jobId in t.jobs && SameIdentity(t.jobs[job.jobId], job)
    requires JobOk(job) && FitsBatch(t.batches, job)
    ensures TableOk(Put(t, job))
  {
  }

  // Lease operations: the table changes only for the holder of the lease

  datatype LeaseOp =
    | Extend(leaseUntil: int)
    | MarkRunning(leaseUntil: int)
    | Complete(result: string)
    | Fail(error: string, deadLetter: bool)
    | Retry(error: string, notBefore: int, resolved: string, fallback: Option<string>)
    | FinishCancel
    | Release(resolvedTo: Option<string>, decrement: bool)

  predicate Allowed(job: Job, owner: string, op: LeaseOp) {
    match op
    case Extend(_) => HoldsLease(job, owner)
    case MarkRunning(_) => job.state == Leased && job.leaseOwner == Some(owner)
    case Complete(_) => OwnsRunning(job, owner)
    case Fail(_, _) => OwnsRunning(job, owner)
    case Retry(_, _, _, _) => OwnsRunning(job, owner)
    case FinishCancel => HoldsLease(job, owner)
    case Release(_, _) => HoldsLease(job, owner)
  }

  function Effect(job: Job, op: LeaseOp, now: int): Job {
    match op
    case Extend(leaseUntil) => Extended(job, leaseUntil, now)
    case MarkRunning(leaseUntil) => Started(job, leaseUntil, now)
    case Complete(result) => Completed(job, result, now)
    case Fail(error, deadLetter) => FailedWith(job, error, deadLetter, now)
    case Retry(error, notBefore, resolved, fallback) => Waiting(job, error, notBefore, resolved, fallback, now)
    case FinishCancel => CancelledAt(job, now)
    case Release(resolved, decrement) => Released(job, resolved, decrement, now)
  }

  /** Whether the operation succeeds, and the table after it. */
  function ApplyLease(t: Table, id: Id, owner: string, op: LeaseOp, now: int): (Table, bool) {
    if id in t.jobs && Allowed(t.jobs[id], owner, op)
    then (t.(jobs := t.jobs[id := Effect(t.jobs[id], op, now)]), true)
    else (t, false)
  }

  lemma LeaseOpKeepsOk(t: Table, id: Id, owner: string, op: LeaseOp, now: int)
    requires TableOk(t)
    ensures TableOk(ApplyLease(t, id, owner, op, now).0)
  {
    if id in t.jobs && Allowed(t.jobs[id], owner, op) {
      RowOk(t, id);
      EffectStaysGood(t.jobs[id], owner, op, t.batches, now);
      hide TableOk, Effect, Allowed, JobOk, FitsBatch;
      PutKeepsOk(t, Effect(t.jobs[id], op, now));
    }
  }

  lemma RowOk(t: Table, id: Id)
    requires TableOk(t) && id in t.jobs
    ensures t.jobs[id].jobId == id && JobOk(t.jobs[id]) && FitsBatch(t.batches, t.jobs[id])
  {
  }

  lemma EffectStaysGood(job: Job, owner: string, op: LeaseOp, batches: map<Id, Batch>, now: int)
    requires Allowed(job, owner, op)
    ensures StaysGood(job, Effect(job, op, now), batches)
  {
  }

  // Sweeps over the whole table

  function Maintain(t: Table, now: int): Table {
    t.(jobs := map id | id in t.jobs :: Maintained(t.jobs[id], now))
  }

  lemma MaintainKeepsOk(t: Table, now: int)
    requires TableOk(t)
    ensures TableOk(Maintain(t, now))
  {
    hide Maintained;
    var u := Maintain(t, now);
    forall id | id in t.jobs ensures StaysGood(t.jobs[id], u.jobs[id], t.batches) {
      MaintainedStaysGood(t.jobs[id], t.batches, now);
    }
    SameJobsKeepOk(t, u);
  }

  /** The job keeps its identity, and stays well formed if it was. */
  predicate StaysGood(a: Job, b: Job, batches: map<Id, Batch>) {
    SameIdentity(a, b) && (JobOk(a) && FitsBatch(batches, a) ==> JobOk(b) && FitsBatch(batches, b))
  }

  lemma MaintainedStaysGood(job: Job, batches: map<Id, Batch>, now: int)
    ensures StaysGood(job, Maintained(job, now), batches)
  {
    hide Expired;
    if LeaseOver(job, now) {
      ExpiredStaysGood(job, batches, now);
    }
  }

  lemma ExpiredStaysGood(job: Job, batches: map<Id, Batch>, now: int)
    requires LeaseOver(job, now)
    ensures StaysGood(job, Expired(job, now), batches)
  {
  }

  lemma CancelInBatchStaysGood(job: Job, batches: map<Id, Batch>, batchId: Id, now: int)
    ensures StaysGood(job, CancelInBatch(job, batchId, now), batches)
  {
  }

  lemma ReleasedStaysGood(job: Job, batches: map<Id, Batch>, prefix: string, now: int)
    ensures StaysGood(job, ReleasedByPrefix(job, prefix, now), batches)
  {
  }

  lemma StageKeepsOk(t: Table, limits: Limits, batchId: Id, jobs: seq<Job>)
    requires TableOk(t) && Stageable(t, jobs)
    ensures TableOk(StageJobs(t, limits, batchId, jobs).0)
  {
  }

  /** Unlike cancelling one job, a running job already flagged is left alone. */
  function CancelInBatch(j: Job, batchId: Id, now: int): Job {
    if j.batchId != Some(batchId) || (j.state == Running && j.cancelRequested) then j else CancelRequest(j, now)
  }

  function CancelBatch(t: Table, batchId: Id, now: int): Table {
    t.(jobs := map id | id in t.jobs :: CancelInBatch(t.jobs[id], batchId, now))
  }

  /** The jobs among ids that cancelling the batch changes. */
  function Touched(jobs: map<Id, Job>, ids: set<Id>, batchId: Id, now: int): set<Id> {
    set id | id in ids && id in jobs && CancelInBatch(jobs[id], batchId, now) != jobs[id]
  }

  lemma TouchedGrows(jobs: map<Id, Job>, todo: set<Id>, id: Id, batchId: Id, now: int)
    requires id in todo && id in jobs
    ensures |Touched(jobs, jobs.Keys - (todo - {id}), batchId, now)|
      == |Touched(jobs, jobs.Keys - todo, batchId, now)| + if CancelInBatch(jobs[id], batchId, now) != jobs[id] then 1
        else 0
  {
    hide CancelInBatch;
    var before, after := Touched(jobs, jobs.Keys - todo, batchId, now),
      Touched(jobs, jobs.Keys - (todo - {id}), batchId, now);
    assert id !in before;
    if CancelInBatch(jobs[id], batchId, now) != jobs[id] {
      assert after == before + {id};
    } else {
      assert after == before;
    }
  }

  lemma TouchedEnds(jobs: map<Id, Job>, batchId: Id, now: int)
    ensures Touched(jobs, jobs.Keys - jobs.Keys, batchId, now) == {}
    ensures jobs.Keys - {} == jobs.Keys
  {
  }

  lemma CancelBatchKeepsOk(t: Table, batchId: Id, now: int)
    requires TableOk(t)
    ensures TableOk(CancelBatch(t, batchId, now))
  {
    hide CancelInBatch;
    var u := CancelBatch(t, batchId, now);
    forall id | id in t.jobs ensures StaysGood(t.jobs[id], u.jobs[id], t.batches) {
      CancelInBatchStaysGood(t.jobs[id], t.batches, batchId, now);
    }
    SameJobsKeepOk(t, u);
  }

  function ReleasedByPrefix(j: Job, prefix: string, now: int): Job {
    if Held(j.state) && j.leaseOwner.Some? && j.leaseOwner.value != "" && prefix <= j.leaseOwner.value
    then Released(j, None, true, now) else j
  }

  /** The leases among ids whose owner has the prefix. */
  function LeasedTo(jobs: map<Id, Job>, ids: set<Id>, prefix: string): set<Id> {
    set id | id in ids && id in jobs && Held(jobs[id].state) && jobs[id].leaseOwner.Some?
      && jobs[id].leaseOwner.value != ""
             && prefix <= jobs[id].leaseOwner.value
  }

  lemma LeasedToGrows(jobs: map<Id, Job>, todo: set<Id>, id: Id, prefix: string)
    requires id in todo && id in jobs
    ensures LeasedTo(jobs, jobs.Keys - (todo - {id}), prefix)
      == LeasedTo(jobs, jobs.Keys - todo, prefix) + LeasedTo(jobs, {id}, prefix)
  {
  }

  lemma NobodyLeased(jobs: map<Id, Job>, prefix: string)
    ensures LeasedTo(jobs, jobs.Keys - jobs.Keys, prefix) == {} && jobs.Keys - {} == jobs.Keys
  {
  }

  lemma OneRow(a: map<Id, Job>, b: map<Id, Job>, id: Id, prefix: string)
    requires id in a && id in b && a[id] == b[id]
    ensures LeasedTo(a, {id}, prefix) == LeasedTo(b, {id}, prefix)
  {
  }

  function ReleaseLeases(t: Table, prefix: string, now: int): Table {
    t.(jobs := map id | id in t.jobs :: ReleasedByPrefix(t.jobs[id], prefix, now))
  }

  lemma ReleaseLeasesKeepsOk(t: Table, prefix: string, now: int)
    requires TableOk(t)
    ensures TableOk(ReleaseLeases(t, prefix, now))
  {
    hide ReleasedByPrefix;
    var u := ReleaseLeases(t, prefix, now);
    forall id | id in t.jobs ensures StaysGood(t.jobs[id], u.jobs[id], t.batches) {
      ReleasedStaysGood(t.jobs[id], t.batches, prefix, now);
    }
    SameJobsKeepOk(t, u);
  }

  // Submission

  /** A job as the service builds it: queued on its own, staged inside a batch. */
  predicate NewJob(job: Job) {
    && job.state == (if job.batchId.None? then Queued else Staged)
    && job.attemptCount == 0 && job.maxAttempts >= 1 && job.leaseOwner.None? && job.leaseExpiresAt.None?
    && job.startedAt.None? && job.finishedAt.None? && job.notBefore.None? && job.result.None? && job.error.None?
    && !job.cancelRequested
  }

  function Depth(t: Table): nat {
    |set id | id in t.jobs && Incomplete(t.jobs[id].state)|
  }

  function ClientDepth(t: Table, client: string): nat {
    |set id | id in t.jobs && t.jobs[id].clientId == client && Incomplete(t.jobs[id].state)|
  }

  function Capacity(t: Table, limits: Limits, client: string, additional: nat): Option<Failure> {
    if Depth(t) + additional > limits.maxQueuedJobs then Some(QueueFull)
    else if ClientDepth(t, client) + additional > limits.maxActiveJobsPerClient then Some(ClientFull)
    else None
  }

  /** The unfinished jobs among ids, of one client or of all. */
  function Unfinished(jobs: map<Id, Job>, ids: set<Id>, client: Option<string>): set<Id> {
    set id | id in ids && id in jobs && Incomplete(jobs[id].state)
      && (client.None? || jobs[id].clientId == client.value)
  }

  lemma UnfinishedGrows(jobs: map<Id, Job>, todo: set<Id>, id: Id, client: Option<string>)
    requires id in todo && id in jobs
    ensures |Unfinished(jobs, jobs.Keys - (todo - {id}), client)| == |Unfinished(jobs, jobs.Keys - todo, client)|
      + if Incomplete(jobs[id].state) && (client.None? || jobs[id].clientId == client.value) then 1 else 0
  {
    var before, after := Unfinished(jobs, jobs.Keys - todo, client),
      Unfinished(jobs, jobs.Keys - (todo - {id}), client);
    assert id !in before;
    if Incomplete(jobs[id].state) && (client.None? || jobs[id].clientId == client.value) {
      assert after == before + {id};
    } else {
      assert after == before;
    }
  }

  lemma UnfinishedEnds(t: Table, client: string)
    ensures Unfinished(t.jobs, t.jobs.Keys - t.jobs.Keys, None)
      == Unfinished(t.jobs, t.jobs.Keys - t.jobs.Keys, Some(client)) == {}
    ensures t.jobs.Keys - {} == t.jobs.Keys
    ensures |Unfinished(t.jobs, t.jobs.Keys, None)| == Depth(t)
    ensures |Unfinished(t.jobs, t.jobs.Keys, Some(client))| == ClientDepth(t, client)
  {
    assert Unfinished(t.jobs, t.jobs.Keys, None) == set id | id in t.jobs && Incomplete(t.jobs[id].state);
    assert Unfinished(t.jobs, t.jobs.Keys, Some(client))
      == set id | id in t.jobs && t.jobs[id].clientId == client && Incomplete(t.jobs[id].state);
  }

  /** None when the key is new; otherwise the original, or a conflict. */
  function Existing(t: Table, job: Job): (r: Option<Result<Receipt>>)
    requires IdempExact(t)
  {
    var key := JobKey(job);
    if key.None? || key.value !in t.idemp then None
    else
      var current := t.jobs[t.idemp[key.value]];
      if current.idempotencyHash != job.idempotencyHash then Some(Err(Conflict(current.jobId)))
      else Some(Ok(Receipt(current, true)))
  }

  /** The answer to a job whose key a retained job has. */
  function ReplayOf(holder: Job, job: Job): Result<Receipt> {
    if holder.idempotencyHash == job.idempotencyHash then Ok(Receipt(holder, true)) else Err(Conflict(holder.jobId))
  }

  /** The key is new exactly when no retained job carries it; otherwise the answer is
      about the one job that does. */
  lemma ExistingIsTheHolder(t: Table, job: Job)
    requires TableOk(t)
    ensures Existing(t, job).None?
      <==> JobKey(job).None? || forall id :: id in t.jobs ==> JobKey(t.jobs[id]) != JobKey(job)
    ensures forall id :: id in t.jobs && JobKey(job).Some? && JobKey(t.jobs[id]) == JobKey(job) ==>
      Existing(t, job) == Some(ReplayOf(t.jobs[id], job))
  {
  }

  function Remember(t: Table, job: Job): Table {
    t.(jobs := t.jobs[job.jobId := job],
       idemp := if JobKey(job).Some? then t.idemp[JobKey(job).value := job.jobId] else t.idemp)
  }

  function Enqueue(t: Table, limits: Limits, job: Job): (Table, Result<Receipt>)
    requires IdempExact(t)
  {
    var existing := Existing(t, job);
    if existing.Some? then (t, existing.value)
    else
      var full := Capacity(t, limits, job.clientId, 1);
      if full.Some? then (t, Err(full.value)) else (Remember(t, job), Ok(Receipt(job, false)))
  }

  lemma RememberKeepsOk(t: Table, job: Job)
    requires TableOk(t) && job.jobId !in t.jobs && JobOk(job) && FitsBatch(t.batches, job)
    requires JobKey(job).Some? ==> JobKey(job).value !in t.idemp
    ensures TableOk(Remember(t, job))
  {
  }

  lemma EnqueueKeepsOk(t: Table, limits: Limits, job: Job)
    requires TableOk(t) && NewJob(job) && job.batchId.None? && job.jobId !in t.jobs
    ensures TableOk(Enqueue(t, limits, job).0)
  {
    if Existing(t, job).None? && Capacity(t, limits, job.clientId, 1).None? {
      RememberKeepsOk(t, job);
    }
  }

  // Batches

  function BeginBatch(t: Table, limits: Limits, batch: Batch): (Table, Result<BatchReceipt>)
    requires BatchesOk(t)
  {
    var key := BatchKey(batch);
    if key.Some? && key.value in t.batchIdemp then
      var current := t.batches[t.batchIdemp[key.value]];
      if current.idempotencyHash != batch.idempotencyHash then (t, Err(Conflict(current.batchId)))
      else (t, Ok(BatchReceipt(current, true)))
    else if batch.jobCount > limits.maxBatchSize then (t, Err(BatchTooLarge))
    else
      var stored := batch.(idempotencyKey := None, idempotencyHash := None);
      (t.(batches := t.batches[batch.batchId := stored]), Ok(BatchReceipt(stored, false)))
  }

  lemma BeginKeepsOk(t: Table, limits: Limits, batch: Batch)
    requires TableOk(t) && batch.status == Staging && batch.batchId !in t.batches
    ensures TableOk(BeginBatch(t, limits, batch).0)
  {
  }

  /** A chunk of new jobs with new, distinct ids. */
  ghost predicate Stageable(t: Table, jobs: seq<Job>) {
    && (forall i :: 0 <= i < |jobs| ==> NewJob(jobs[i]) && jobs[i].jobId !in t.jobs)
    && (forall i, j :: 0 <= i < j < |jobs| ==> jobs[i].jobId != jobs[j].jobId)
  }

  /** Why a job cannot join the batch, if it cannot. */
  function StageFailure(t: Table, batchId: Id, job: Job): Option<Failure>
    requires IdempExact(t)
  {
    if job.batchId != Some(batchId) || job.state != Staged then Some(Invalid)
    else
      var existing := Existing(t, job);
      if existing.None? then None
      else if existing.value.Ok? then Some(Conflict(existing.value.value.job.jobId))
      else Some(existing.value.error)
  }

  /** Chunks are not atomic in memory: the jobs before a bad one stay. */
  function StageEach(t: Table, batchId: Id, jobs: seq<Job>): (r: (Table, Option<Failure>))
    requires TableOk(t) && batchId in t.batches && t.batches[batchId].status == Staging
    requires Stageable(t, jobs)
    ensures TableOk(r.0) && r.0.batches == t.batches
    decreases |jobs|
  {
    if jobs == [] then (t, None)
    else
      var failure := StageFailure(t, batchId, jobs[0]);
      if failure.Some? then (t, failure)
      else
        RememberKeepsOk(t, jobs[0]);
        StageEach(Remember(t, jobs[0]), batchId, jobs[1..])
  }

  lemma StageStepOk(t: Table, batchId: Id, jobs: seq<Job>)
    requires TableOk(t) && batchId in t.batches && t.batches[batchId].status == Staging && Stageable(t, jobs)
    requires jobs != [] && StageFailure(t, batchId, jobs[0]).None?
    ensures TableOk(Remember(t, jobs[0])) && Stageable(Remember(t, jobs[0]), jobs[1..])
  {
    RememberKeepsOk(t, jobs[0]);
  }

  function StageJobs(t: Table, limits: Limits, batchId: Id, jobs: seq<Job>): (r: (Table, Result<nat>))
    requires TableOk(t) && Stageable(t, jobs)
  {
    if batchId !in t.batches then (t, Err(NotFound))
    else if t.batches[batchId].status != Staging then (t, Err(Invalid))
    else if t.batches[batchId].jobCount + |jobs| > limits.maxBatchSize then (t, Err(BatchTooLarge))
    else
      var full := if jobs == [] then None else Capacity(t, limits, jobs[0].clientId, |jobs|);
      if full.Some? then (t, Err(full.value))
      else
        var (staged, failure) := StageEach(t, batchId, jobs);
        if failure.Some? then (staged, Err(failure.value))
        else
          var batch := t.batches[batchId];
          var counted := batch.(jobCount := batch.jobCount + |jobs|);
          (staged.(batches := staged.batches[batchId := counted]), Ok(counted.jobCount))
  }

  function OfBatch(t: Table, batchId: Id): set<Id> {
    set id | id in t.jobs && t.jobs[id].batchId == Some(batchId)
  }

  function ForgetAll(t: Table, ids: set<Id>): Table {
    t.(jobs := t.jobs - ids, idemp := map k | k in t.idemp && t.idemp[k] !in ids :: t.idemp[k])
  }

  lemma ForgetKeepsOk(t: Table, ids: set<Id>)
    requires TableOk(t)
    ensures TableOk(ForgetAll(t, ids))
  {
  }

  /** Only a staging batch can be aborted; its jobs and their keys are forgotten. */
  function AbortBatch(t: Table, batchId: Id): Table {
    if batchId !in t.batches || t.batches[batchId].status != Staging then t
    else
      var u := ForgetAll(t, OfBatch(t, batchId));
      u.(batches := t.batches[batchId := t.batches[batchId].(status := Aborted, jobCount := 0)])
  }

  lemma AbortKeepsOk(t: Table, batchId: Id)
    requires TableOk(t)
    ensures TableOk(AbortBatch(t, batchId))
  {
  }

  /** Makes the batch active and its staged jobs queued in one step. */
  function Activated(t: Table, batchId: Id, key: Option<string>, hash: Option<string>, now: int): Table
    requires batchId in t.batches
  {
    var batch := t.batches[batchId];
    var k := KeyOf(batch.clientId, key);
    Table(
      WithQueued(t.jobs, batchId, now),
      t.batches[batchId := batch.(status := Active, activatedAt := Some(now),
                                  idempotencyKey := if k.Some? then key else batch.idempotencyKey,
                                  idempotencyHash := if k.Some? then hash else batch.idempotencyHash)],
      t.idemp,
      if k.Some? then t.batchIdemp[k.value := batchId] else t.batchIdemp)
  }

  function WithQueued(jobs: map<Id, Job>, batchId: Id, now: int): map<Id, Job> {
    map id | id in jobs :: ActivatedJob(jobs[id], batchId, now)
  }

  function ActivatedJob(job: Job, batchId: Id, now: int): Job {
    if job.batchId == Some(batchId) && job.state == Staged then Queueing(job, now) else job
  }

  function ActivateBatch(t: Table, batchId: Id, key: Option<string>, hash: Option<string>,
                         now: int): (Table, Result<BatchReceipt>)
    requires BatchesOk(t)
  {
    if batchId !in t.batches then (t, Err(NotFound))
    else
      var batch := t.batches[batchId];
      var k := KeyOf(batch.clientId, key);
      if k.Some? && k.value in t.batchIdemp && t.batchIdemp[k.value] != batchId then
        var other := t.batches[t.batchIdemp[k.value]];
        if other.idempotencyHash != hash then (t, Err(Conflict(other.batchId)))
        else (AbortBatch(t, batchId), Ok(BatchReceipt(other, true)))
      else if batch.status == Active then (t, Ok(BatchReceipt(batch, false)))
      else if batch.status != Staging then (t, Err(Invalid))
      else
        var u := Activated(t, batchId, key, hash, now);
        (u, Ok(BatchReceipt(u.batches[batchId], false)))
  }

  lemma ActivatedKeepsOk(t: Table, batchId: Id, key: Option<string>, hash: Option<string>, now: int)
    requires TableOk(t) && batchId in t.batches && t.batches[batchId].status == Staging
    requires var k := KeyOf(t.batches[batchId].clientId, key); k.Some? ==> k.value !in t.batchIdemp
    ensures TableOk(Activated(t, batchId, key, hash, now))
  {
    var u := Activated(t, batchId, key, hash, now);
    forall id | id in t.jobs
      ensures SameIdentity(t.jobs[id], u.jobs[id]) && JobOk(u.jobs[id]) && FitsBatch(u.batches, u.jobs[id])
    {
      ActivatedJobFits(t, u, id, batchId, now);
    }
    SameJobsKeepIdemp(t, u);
    ActivatedBatchesOk(t, batchId, key, hash, now);
  }

  lemma ActivatedJobFits(t: Table, u: Table, id: Id, batchId: Id, now: int)
    requires JobsOk(t) && id in t.jobs && batchId in t.batches && t.batches[batchId].status == Staging
    requires batchId in u.batches && u.batches == t.batches[batchId := u.batches[batchId]]
      && u.batches[batchId].status == Active
    ensures var job := ActivatedJob(t.jobs[id], batchId, now);
      SameIdentity(t.jobs[id], job) && JobOk(job) && FitsBatch(u.batches, job)
  {
  }

  lemma ActivatedBatchesOk(t: Table, batchId: Id, key: Option<string>, hash: Option<string>, now: int)
    requires BatchesOk(t) && batchId in t.batches && t.batches[batchId].status == Staging
    requires var k := KeyOf(t.batches[batchId].clientId, key); k.Some? ==> k.value !in t.batchIdemp
    ensures BatchesOk(Activated(t, batchId, key, hash, now))
  {
  }

  lemma ActivateKeepsOk(t: Table, batchId: Id, key: Option<string>, hash: Option<string>, now: int)
    requires TableOk(t)
    ensures TableOk(ActivateBatch(t, batchId, key, hash, now).0)
  {
    hide Activated, AbortBatch;
    AbortKeepsOk(t, batchId);
    if batchId in t.batches && t.batches[batchId].status == Staging {
      var k := KeyOf(t.batches[batchId].clientId, key);
      if !(k.Some? && k.value in t.batchIdemp) {
        ActivatedKeepsOk(t, batchId, key, hash, now);
      } else {
        assert t.batches[t.batchIdemp[k.value]].status == Active;
      }
    }
  }

  // Retention and requeue

  predicate Stale(job: Job, successBefore: int, failureBefore: int) {
    !Incomplete(job.state) && job.finishedAt.Some?
    && job.finishedAt.value < (if job.state == Succeeded then successBefore else failureBefore)
  }

  function StaleIds(t: Table, successBefore: int, failureBefore: int): set<Id> {
    set id | id in t.jobs && Stale(t.jobs[id], successBefore, failureBefore)
  }

  function Cleanup(t: Table, successBefore: int, failureBefore: int): Table {
    ForgetAll(t, StaleIds(t, successBefore, failureBefore))
  }

  function Requeue(t: Table, id: Id, now: int): (Table, Result<Job>) {
    if id !in t.jobs then (t, Err(NotFound))
    else if t.jobs[id].state != Failed && t.jobs[id].state != DeadLetter then (t, Err(Invalid))
    else
      var job := StartedOver(t.jobs[id], now);
      (t.(jobs := t.jobs[id := job]), Ok(job))
  }

  lemma CleanupKeepsOk(t: Table, successBefore: int, failureBefore: int)
    requires TableOk(t)
    ensures TableOk(Cleanup(t, successBefore, failureBefore))
  {
  }

  lemma RequeueKeepsOk(t: Table, id: Id, now: int)
    requires TableOk(t)
    ensures TableOk(Requeue(t, id, now).0)
  {
  }

  function Cancel(t: Table, id: Id, now: int): (Table, Result<Job>) {
    if id !in t.jobs then (t, Err(NotFound))
    else
      var job := CancelRequest(t.jobs[id], now);
      (t.(jobs := t.jobs[id := job]), Ok(job))
  }

  lemma CancelKeepsOk(t: Table, id: Id, now: int)
    requires TableOk(t)
    ensures TableOk(Cancel(t, id, now).0)
  {
    if id in t.jobs {
      PutKeepsOk(t, CancelRequest(t.jobs[id], now));
    }
  }

  function Claim(t: Table, id: Id, owner: string, leaseUntil: int, now: int): (Table, bool) {
    if id in t.jobs && Claimable(t.jobs[id], now, BatchActive(t.batches, t.jobs[id].batchId))
    then (t.(jobs := t.jobs[id := Claimed(t.jobs[id], owner, leaseUntil, now)]), true)
    else (t, false)
  }

  function ClaimableIds(t: Table, now: int): set<Id> {
    set id | id in t.jobs && Claimable(t.jobs[id], now, BatchActive(t.batches, t.jobs[id].batchId))
  }

  lemma ClaimKeepsOk(t: Table, id: Id, owner: string, leaseUntil: int, now: int)
    requires TableOk(t)
    ensures TableOk(Claim(t, id, owner, leaseUntil, now).0)
  {
  }
}
