/** Records shared by the scheduler, the backends and the service. Instants are
    whole milliseconds, the resolution of the queue's fixed-width timestamps. */
module Types {
  datatype Option<+T> = None | Some(value: T)

  type Id = string

  /** The four classes, highest first. */
  datatype SchedulingClass = Interactive | Normal | Batched | Bulk

  const CLASS_COUNT: nat := 4

  function Rank(c: SchedulingClass): nat {
    match c
    case Interactive => 0
    case Normal => 1
    case Batched => 2
    case Bulk => 3
  }

  function ClassAt(k: nat): (c: SchedulingClass)
    requires k < CLASS_COUNT
    ensures Rank(c) == k
  {
    if k == 0 then Interactive else if k == 1 then Normal else if k == 2 then Batched else Bulk
  }

  datatype JobState = Staged | Queued | Leased | Running | Succeeded | RetryWait | Failed | DeadLetter | Cancelled

  predicate Terminal(s: JobState) {
    s == Succeeded || s == Failed || s == DeadLetter || s == Cancelled
  }

  predicate Incomplete(s: JobState) {
    !Terminal(s)
  }

  /** Claimed by a worker. */
  predicate Held(s: JobState) {
    s == Leased || s == Running
  }

  /** Cancelled at once when the caller asks. */
  predicate Cancellable(s: JobState) {
    s == Queued || s == RetryWait || s == Staged || s == Leased
  }

  /** Result payloads, errors, fallback notes and hashes are opaque tokens. */
  datatype Job = Job(
    jobId: Id,
    batchId: Option<Id>,
    batchOrdinal: Option<nat>,
    idempotencyKey: Option<string>,
    idempotencyHash: Option<string>,
    clientId: string,
    createdAt: int,
    updatedAt: int,
    startedAt: Option<int>,
    finishedAt: Option<int>,
    notBefore: Option<int>,
    priority: int,
    schedulingClass: SchedulingClass,
    requestedModel: string,
    resolvedModel: string,
    state: JobState,
    questionsHash: string,
    attemptCount: int,
    maxAttempts: int,
    leaseOwner: Option<string>,
    leaseExpiresAt: Option<int>,
    deadlineAt: Option<int>,
    result: Option<string>,
    error: Option<string>,
    cancelRequested: bool,
    fallback: Option<string>)

  datatype BatchStatus = Staging | Active | Aborted

  datatype Batch = Batch(
    batchId: Id,
    clientId: string,
    status: BatchStatus,
    jobCount: nat,
    createdAt: int,
    activatedAt: Option<int>,
    idempotencyKey: Option<string>,
    idempotencyHash: Option<string>)

  /** The scheduling view of a job. */
  datatype Candidate = Candidate(
    jobId: Id,
    schedulingClass: SchedulingClass,
    priority: int,
    createdAt: real,
    clientId: string,
    model: string,
    questionsHash: string)

  datatype SchedulerSettings = SchedulerSettings(
    classWeights: map<SchedulingClass, real>,
    starvationSeconds: real,
    starvationBoostCap: real,
    clientSkipWeight: real,
    priorityWeight: real,
    ageWeight: real,
    diskCandidatesPerClass: nat)

  const DEFAULTS := SchedulerSettings(map[Interactive := 8.0, Normal := 4.0, Batched := 2.0, Bulk := 1.0],
                                      10.0, 8.0, 25.0, 100.0, 1.0, 32)

  function Members(ids: seq<Id>): set<Id> {
    set id | id in ids
  }

  function Epoch(instant: int): real {
    instant as real / 1000.0
  }

  function Max(a: real, b: real): real {
    if a >= b then a else b
  }

  function Min(a: real, b: real): real {
    if a <= b then a else b
  }
}
