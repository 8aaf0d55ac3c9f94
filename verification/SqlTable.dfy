/** Where the SQLite store's transactions differ from the in-memory transitions,
    and exactly when they do not. */
module SqlTables {
  import opened Types
  import opened JobTables

  /** A transaction that raises is rolled back: a chunk is staged whole or not at all. */
  function StageWhole(t: Table, limits: Limits, batchId: Id, jobs: seq<Job>): (Table, Result<nat>)
    requires TableOk(t) && Stageable(t, jobs)
  {
    var (u, r) := StageJobs(t, limits, batchId, jobs);
    if r.Ok? then (u, r) else (t, r)
  }

  lemma StageWholeKeepsOk(t: Table, limits: Limits, batchId: Id, jobs: seq<Job>)
    requires TableOk(t) && Stageable(t, jobs)
    ensures TableOk(StageWhole(t, limits, batchId, jobs).0)
  {
    hide TableOk, Stageable, StageJobs;
    StageKeepsOk(t, limits, batchId, jobs);
  }

  /** A new batch starts empty, whatever count its record claims. */
  function BeginEmpty(t: Table, batch: Batch): (Table, Result<BatchReceipt>)
    requires BatchesOk(t)
  {
    var key := BatchKey(batch);
    if key.Some? && key.value in t.batchIdemp then
      var current := t.batches[t.batchIdemp[key.value]];
      if current.idempotencyHash != batch.idempotencyHash then (t, Err(Conflict(current.batchId)))
      else (t, Ok(BatchReceipt(current, true)))
    else
      var stored := batch.(jobCount := 0, activatedAt := None, idempotencyKey := None, idempotencyHash := None);
      (t.(batches := t.batches[batch.batchId := stored]), Ok(BatchReceipt(stored, false)))
  }

  lemma BeginEmptyKeepsOk(t: Table, batch: Batch)
    requires TableOk(t) && batch.status == Staging && batch.batchId !in t.batches
    ensures TableOk(BeginEmpty(t, batch).0)
  {
  }

  lemma BeginAgrees(t: Table, limits: Limits, batch: Batch)
    requires BatchesOk(t) && limits.maxBatchSize >= 0
    ensures BeginEmpty(t, batch) == BeginBatch(t, limits, batch.(jobCount := 0, activatedAt := None))
    ensures batch.jobCount == 0 && batch.activatedAt.None? ==> BeginEmpty(t, batch) == BeginBatch(t, limits, batch)
  {
    assert batch.jobCount == 0 && batch.activatedAt.None? ==> batch.(jobCount := 0, activatedAt := None) == batch;
  }

  /** The record the activation writes: the rows of the batch counted, and key and
      payload as given, empty or not. */
  lemma SqlActivationRecords(t: Table, batchId: Id, key: Option<string>, hash: Option<string>, now: int)
    requires TableOk(t) && batchId in t.batches && t.batches[batchId].status == Staging
    ensures var (u, r) := ActivateSql(t, batchId, key, hash, now);
      r.Ok? && !r.value.replayed ==>
        && batchId in u.batches && r.value.batch == u.batches[batchId]
        && r.value.batch.status == Active && r.value.batch.activatedAt == Some(now)
        && r.value.batch.idempotencyKey == key && r.value.batch.idempotencyHash == hash
        && r.value.batch.jobCount == |set id | id in t.jobs && t.jobs[id].batchId == Some(batchId)|
  {
    hide JobsOk, IdempExact, AbortRows, BlankTaken;
    assert OfBatch(t, batchId) == set id | id in t.jobs && t.jobs[id].batchId == Some(batchId);
  }

  /** A running job already flagged is not touched again. */
  function CancelRow(job: Job, now: int): Job {
    if job.state == Running && job.cancelRequested then job else CancelRequest(job, now)
  }

  function CancelSql(t: Table, id: Id, now: int): (Table, Result<Job>) {
    if id !in t.jobs then (t, Err(NotFound))
    else (t.(jobs := t.jobs[id := CancelRow(t.jobs[id], now)]), Ok(CancelRow(t.jobs[id], now)))
  }

  lemma CancelSqlKeepsOk(t: Table, id: Id, now: int)
    requires TableOk(t)
    ensures TableOk(CancelSql(t, id, now).0)
  {
    if id in t.jobs {
      RowOk(t, id);
      CancelRowStaysGood(t.jobs[id], t.batches, now);
      hide TableOk, CancelRow, JobOk, FitsBatch;
      PutKeepsOk(t, CancelRow(t.jobs[id], now));
    }
  }

  lemma CancelRowStaysGood(job: Job, batches: map<Id, Batch>, now: int)
    ensures StaysGood(job, CancelRow(job, now), batches)
  {
  }

  /** The stores cancel alike except for the update time of a repeated request. */
  lemma CancelAgreesWhen(job: Job, now: int)
    ensures CancelRow(job, now) == CancelRequest(job, now)
      <==> !(job.state == Running && job.cancelRequested && job.updatedAt != now)
    ensures CancelRow(job, now).(updatedAt := now) == CancelRequest(job, now).(updatedAt := now)
  {
  }

  // Activation

  /** Drops a batch whatever its status. */
  function AbortRows(t: Table, batchId: Id): Table
    requires batchId in t.batches
  {
    var u := ForgetAll(t, OfBatch(t, batchId));
    Table(u.jobs,
          t.batches[batchId := t.batches[batchId].(status := Aborted, jobCount := 0, idempotencyKey := None,
                                                   idempotencyHash := None)],
          u.idemp,
          map k | k in t.batchIdemp && t.batchIdemp[k] != batchId :: t.batchIdemp[k])
  }

  lemma AbortRowsKeepsOk(t: Table, batchId: Id)
    requires TableOk(t) && batchId in t.batches
    ensures TableOk(AbortRows(t, batchId))
  {
  }

  /** The row of another batch under the same empty key, which the unique index
      counts as a key although the code does not. */
  predicate BlankTaken(batches: map<Id, Batch>, client: string, key: Option<string>) {
    key == Some("") && exists b :: b in batches && BlankOf(batches[b], client)
  }

  predicate BlankOf(batch: Batch, client: string) {
    batch.clientId == client && batch.idempotencyKey == Some("")
  }

  ghost predicate BlankUnique(batches: map<Id, Batch>) {
    forall a, b :: a in batches && b in batches ==>
      BlankOf(batches[a], batches[a].clientId) && BlankOf(batches[b], batches[a].clientId) ==> a == b
  }

  ghost function BlankHolder(batches: map<Id, Batch>, client: string): (b: Id)
    requires exists b :: b in batches && BlankOf(batches[b], client)
    ensures b in batches && BlankOf(batches[b], client)
  {
    var b :| b in batches && BlankOf(batches[b], client);
    b
  }

  /** The key and hash are stored as given, and the count is that of the rows. */
  function ActivatedRows(t: Table, batchId: Id, key: Option<string>, hash: Option<string>, now: int): Table
    requires batchId in t.batches
  {
    var k := KeyOf(t.batches[batchId].clientId, key);
    Table(
      WithQueued(t.jobs, batchId, now),
      t.batches[batchId := t.batches[batchId].(status := Active, activatedAt := Some(now), idempotencyKey := key,
                                               idempotencyHash := hash,
                                               jobCount := |OfBatch(t, batchId)|)],
      t.idemp,
      if k.Some? then t.batchIdemp[k.value := batchId] else t.batchIdemp)
  }

  ghost function ActivateSql(t: Table, batchId: Id, key: Option<string>, hash: Option<string>,
                             now: int): (Table, Result<BatchReceipt>)
    requires BatchesOk(t)
  {
    if batchId !in t.batches then (t, Err(NotFound))
    else
      var batch := t.batches[batchId];
      var k := KeyOf(batch.clientId, key);
      if k.Some? && k.value in t.batchIdemp && t.batchIdemp[k.value] != batchId then
        var other := t.batches[t.batchIdemp[k.value]];
        if other.idempotencyHash != hash then (t, Err(Conflict(other.batchId)))
        else (AbortRows(t, batchId), Ok(BatchReceipt(other, true)))
      else if batch.status == Active then (t, Ok(BatchReceipt(batch, false)))
      else if batch.status != Staging then (t, Err(Invalid))
      else if BlankTaken(t.batches, batch.clientId, key) then
        var other := t.batches[BlankHolder(t.batches, batch.clientId)];
        if other.idempotencyHash != hash then (t, Err(Conflict(other.batchId)))
        else (AbortRows(t, batchId), Ok(BatchReceipt(other, true)))
      else
        var u := ActivatedRows(t, batchId, key, hash, now);
        (u, Ok(BatchReceipt(u.batches[batchId], false)))
  }

  lemma ActivatedRowsKeepsOk(t: Table, batchId: Id, key: Option<string>, hash: Option<string>, now: int)
    requires TableOk(t) && batchId in t.batches && t.batches[batchId].status == Staging
    requires var k := KeyOf(t.batches[batchId].clientId, key); k.Some? ==> k.value !in t.batchIdemp
    ensures TableOk(ActivatedRows(t, batchId, key, hash, now))
  {
    var u := ActivatedRows(t, batchId, key, hash, now);
    forall id | id in t.jobs
      ensures SameIdentity(t.jobs[id], u.jobs[id]) && JobOk(u.jobs[id]) && FitsBatch(u.batches, u.jobs[id])
    {
      ActivatedJobFits(t, u, id, batchId, now);
    }
    SameJobsKeepIdemp(t, u);
    ActivatedRowsBatchesOk(t, batchId, key, hash, now);
  }

  lemma ActivatedRowsBatchesOk(t: Table, batchId: Id, key: Option<string>, hash: Option<string>, now: int)
    requires BatchesOk(t) && batchId in t.batches && t.batches[batchId].status == Staging
    requires var k := KeyOf(t.batches[batchId].clientId, key); k.Some? ==> k.value !in t.batchIdemp
    ensures BatchesOk(ActivatedRows(t, batchId, key, hash, now))
  {
  }

  lemma ActivateSqlKeepsOk(t: Table, batchId: Id, key: Option<string>, hash: Option<string>, now: int)
    requires TableOk(t)
    ensures TableOk(ActivateSql(t, batchId, key, hash, now).0)
  {
    hide JobsOk, IdempExact, AbortRows, ActivatedRows, BlankTaken;
    if batchId in t.batches {
      AbortRowsKeepsOk(t, batchId);
      if t.batches[batchId].status == Staging {
        var k := KeyOf(t.batches[batchId].clientId, key);
        if !(k.Some? && k.value in t.batchIdemp) {
          ActivatedRowsKeepsOk(t, batchId, key, hash, now);
        } else {
          assert t.batches[t.batchIdemp[k.value]].status == Active;
        }
      }
    }
  }

  lemma ActivateSqlKeepsBlank(t: Table, batchId: Id, key: Option<string>, hash: Option<string>, now: int)
    requires BatchesOk(t) && BlankUnique(t.batches)
    ensures BlankUnique(ActivateSql(t, batchId, key, hash, now).0.batches)
  {
  }

  ghost predicate AlikeButRecords(t: Table, u: Table) {
    && t.jobs == u.jobs && t.idemp == u.idemp && t.batchIdemp == u.batchIdemp && t.batches.Keys == u.batches.Keys
    && forall b :: b in t.batches ==>
      t.batches[b].status == u.batches[b].status && BatchKey(t.batches[b]) == BatchKey(u.batches[b])
  }

  predicate SameAnswer(r: Result<BatchReceipt>, s: Result<BatchReceipt>) {
    match r
    case Err(_) => s == r
    case Ok(receipt) =>
      s.Ok? && s.value.replayed == receipt.replayed && s.value.batch.batchId == receipt.batch.batchId
      && s.value.batch.status == receipt.batch.status && (receipt.replayed ==> s == r)
  }

  lemma NoKeyWhileStaging(t: Table, batchId: Id)
    requires BatchesOk(t) && batchId in t.batches && t.batches[batchId].status == Staging
    ensures t.batches[batchId].idempotencyKey.None? && t.batches[batchId].batchId == batchId
    ensures forall k :: k in t.batchIdemp ==> t.batchIdemp[k] != batchId
  {
  }

  lemma AlikeToItself(t: Table)
    ensures AlikeButRecords(t, t)
  {
  }

  lemma AbortsAlike(t: Table, batchId: Id)
    requires batchId in t.batches && t.batches[batchId].status == Staging && t.batches[batchId].idempotencyKey.None?
    requires forall k :: k in t.batchIdemp ==> t.batchIdemp[k] != batchId
    ensures AlikeButRecords(AbortBatch(t, batchId), AbortRows(t, batchId))
  {
  }

  lemma ActivatesAlike(t: Table, batchId: Id, key: Option<string>, hash: Option<string>, now: int)
    requires batchId in t.batches && t.batches[batchId].idempotencyKey.None?
    requires t.batches[batchId].batchId == batchId
    ensures var u, v := Activated(t, batchId, key, hash, now), ActivatedRows(t, batchId, key, hash, now);
      && AlikeButRecords(u, v) && u.batches[batchId].batchId == v.batches[batchId].batchId
      && batchId in v.batches && u.batches[batchId].status == v.batches[batchId].status
  {
  }

  /** Another batch has the key, with the same payload. */
  predicate HeldElsewhere(t: Table, batchId: Id, key: Option<string>, hash: Option<string>)
    requires batchId in t.batches
  {
    var k := KeyOf(t.batches[batchId].clientId, key);
    k.Some? && k.value in t.batchIdemp && t.batchIdemp[k.value] != batchId
    && t.batchIdemp[k.value] in t.batches && t.batches[t.batchIdemp[k.value]].idempotencyHash == hash
  }

  /** Where the stores part: a batch being staged while another of the client holds
      the same empty key, or an active batch asked to activate under the key, and
      with the payload, of another. */
  predicate StoresPart(t: Table, batchId: Id, key: Option<string>, hash: Option<string>) {
    batchId in t.batches
    && ((t.batches[batchId].status == Staging && BlankTaken(t.batches, t.batches[batchId].clientId, key))
        || (t.batches[batchId].status == Active && HeldElsewhere(t, batchId, key, hash)))
  }

  /** Everywhere else, and nowhere else, they activate alike, up to what their batch
      records count and keep. */
  lemma ActivationAgrees(t: Table, batchId: Id, key: Option<string>, hash: Option<string>, now: int)
    requires TableOk(t)
    ensures AlikeButRecords(ActivateBatch(t, batchId, key, hash, now).0, ActivateSql(t, batchId, key, hash, now).0)
            && SameAnswer(ActivateBatch(t, batchId, key, hash, now).1, ActivateSql(t, batchId, key, hash, now).1)
            <==> !StoresPart(t, batchId, key, hash)
  {
    hide AlikeButRecords, SameAnswer, ActivateBatch, ActivateSql, TableOk, BlankTaken;
    if batchId in t.batches && t.batches[batchId].status == Staging {
      StagedActivationAgrees(t, batchId, key, hash, now);
    } else {
      OtherActivationAgrees(t, batchId, key, hash, now);
    }
  }

  lemma OtherActivationAgrees(t: Table, batchId: Id, key: Option<string>, hash: Option<string>, now: int)
    requires TableOk(t) && (batchId in t.batches ==> t.batches[batchId].status != Staging)
    ensures AlikeButRecords(ActivateBatch(t, batchId, key, hash, now).0, ActivateSql(t, batchId, key, hash, now).0)
            && SameAnswer(ActivateBatch(t, batchId, key, hash, now).1, ActivateSql(t, batchId, key, hash, now).1)
            <==> !(batchId in t.batches && t.batches[batchId].status == Active && HeldElsewhere(t, batchId, key, hash))
  {
    hide JobsOk, IdempExact, BlankTaken, AbortRows, AlikeButRecords, Activated, ActivatedRows;
    AlikeToItself(t);
    if batchId in t.batches {
      DroppingIsSeen(t, batchId);
    }
  }

  /** Dropping a batch is seen exactly when it was not dropped before. */
  lemma DroppingIsSeen(t: Table, batchId: Id)
    requires TableOk(t) && batchId in t.batches
    ensures AlikeButRecords(t, AbortRows(t, batchId)) <==> t.batches[batchId].status == Aborted
  {
  }

  lemma StagedActivationAgrees(t: Table, batchId: Id, key: Option<string>, hash: Option<string>, now: int)
    requires TableOk(t) && batchId in t.batches && t.batches[batchId].status == Staging
    ensures AlikeButRecords(ActivateBatch(t, batchId, key, hash, now).0, ActivateSql(t, batchId, key, hash, now).0)
            && SameAnswer(ActivateBatch(t, batchId, key, hash, now).1, ActivateSql(t, batchId, key, hash, now).1)
            <==> !BlankTaken(t.batches, t.batches[batchId].clientId, key)
  {
    NoKeyWhileStaging(t, batchId);
    if BlankTaken(t.batches, t.batches[batchId].clientId, key) {
      OnlyMemoryActivates(t, batchId, key, hash, now);
    } else {
      hide AlikeButRecords, AbortBatch, AbortRows, Activated, ActivatedRows, JobsOk, IdempExact, BlankTaken;
      AbortsAlike(t, batchId);
      ActivatesAlike(t, batchId, key, hash, now);
      AlikeToItself(t);
    }
  }

  lemma OnlyMemoryActivates(t: Table, batchId: Id, key: Option<string>, hash: Option<string>, now: int)
    requires BatchesOk(t) && batchId in t.batches && t.batches[batchId].status == Staging
    requires BlankTaken(t.batches, t.batches[batchId].clientId, key)
    ensures ActivateBatch(t, batchId, key, hash, now).0.batches[batchId].status == Active
    ensures ActivateSql(t, batchId, key, hash, now).0.batches[batchId].status != Active
    ensures !AlikeButRecords(ActivateBatch(t, batchId, key, hash, now).0, ActivateSql(t, batchId, key, hash, now).0)
  {
  }

  /** What SQLite does then: the client's second batch under the empty key is dropped
      for the first, or refused when its payload differs. */
  lemma EmptyKeyReplaysTheFirst(t: Table, first: Id, second: Id, hash: Option<string>, now: int)
    requires TableOk(t) && BlankUnique(t.batches) && first in t.batches && second in t.batches
    requires t.batches[second].status == Staging && BlankOf(t.batches[first], t.batches[second].clientId)
    ensures ActivateSql(t, second, Some(""), hash, now)
      == if t.batches[first].idempotencyHash == hash
        then (AbortRows(t, second), Ok(BatchReceipt(t.batches[first], true)))
         else (t, Err(Conflict(first)))
  {
  }

  /** Asked to activate a batch that is active already under a key another batch
      has, SQLite drops the active batch's rows; the store in memory keeps them. */
  lemma ReactivationDropsRows(t: Table, first: Id, second: Id, key: string, hash: Option<string>, now: int)
    requires TableOk(t) && first in t.batches && second in t.batches && first != second
    requires key != "" && BatchKey(t.batches[first]) == Some((t.batches[second].clientId, key))
    requires t.batches[first].idempotencyHash == hash
    requires t.batches[second].status == Active
    ensures ActivateSql(t, second, Some(key), hash, now)
      == (AbortRows(t, second), Ok(BatchReceipt(t.batches[first], true)))
    ensures ActivateBatch(t, second, Some(key), hash, now) == (t, Ok(BatchReceipt(t.batches[first], true)))
  {
  }

  // A crash and a restart

  function StagingBatches(t: Table): set<Id> {
    set b | b in t.batches && t.batches[b].status == Staging
  }

  function OfBatches(t: Table, ids: set<Id>): set<Id> {
    set id | id in t.jobs && t.jobs[id].batchId.Some? && t.jobs[id].batchId.value in ids
  }

  /** The table after the batches in ids have been dropped. */
  function AbortSome(t: Table, ids: set<Id>): Table {
    var u := ForgetAll(t, OfBatches(t, ids));
    Table(u.jobs,
          map b | b in t.batches ::
            if b in ids
            then t.batches[b].(status := Aborted, jobCount := 0, idempotencyKey := None, idempotencyHash := None)
            else t.batches[b],
          u.idemp,
          map k | k in t.batchIdemp && t.batchIdemp[k] !in ids :: t.batchIdemp[k])
  }

  lemma AbortEnds(t: Table, ids: set<Id>)
    ensures AbortSome(t, ids - ids) == t && ids - {} == ids
  {
  }

  lemma AbortStep(t: Table, ids: set<Id>, todo: set<Id>, batchId: Id)
    requires batchId in todo && todo <= ids && batchId in t.batches
    ensures batchId in AbortSome(t, ids - todo).batches
    ensures AbortRows(AbortSome(t, ids - todo), batchId) == AbortSome(t, ids - (todo - {batchId}))
  {
    hide AbortSome, AbortRows;
    AbortOneMore(t, ids - todo, batchId);
    assert ids - todo + {batchId} == ids - (todo - {batchId});
  }

  lemma AbortOneMore(t: Table, ids: set<Id>, batchId: Id)
    requires batchId in t.batches && batchId !in ids
    ensures batchId in AbortSome(t, ids).batches
    ensures AbortRows(AbortSome(t, ids), batchId) == AbortSome(t, ids + {batchId})
  {
    var u := AbortSome(t, ids);
    var v, w := AbortRows(u, batchId), AbortSome(t, ids + {batchId});
    assert OfBatch(u, batchId) == OfBatch(t, batchId);
    assert OfBatches(t, ids + {batchId}) == OfBatches(t, ids) + OfBatch(t, batchId);
    hide OfBatch, OfBatches;
    assert v.jobs == w.jobs && v.idemp == w.idemp;
    assert v.batches == w.batches && v.batchIdemp == w.batchIdemp;
  }

  /** What the store runs when it is opened. */
  function AbortOrphans(t: Table): Table {
    AbortSome(t, StagingBatches(t))
  }

  lemma OrphansKeepOk(t: Table)
    requires TableOk(t)
    ensures TableOk(AbortOrphans(t))
  {
  }

  /** After a crash between transactions and a restart, every retained job belongs
      to an active batch or to none, and nothing else has changed. */
  lemma RestartLeavesNoOrphans(t: Table)
    requires TableOk(t)
    ensures var u := AbortOrphans(t);
      && StagingBatches(u) == {}
      && (forall id :: id in u.jobs ==> BatchActive(u.batches, u.jobs[id].batchId))
      && (forall id :: id in u.jobs <==> id in t.jobs && BatchActive(t.batches, t.jobs[id].batchId))
      && (forall id :: id in u.jobs ==> u.jobs[id] == t.jobs[id])
      && (forall b :: b in t.batches && t.batches[b].status != Staging ==> u.batches[b] == t.batches[b])
      && u.batchIdemp == t.batchIdemp
  {
  }
}
