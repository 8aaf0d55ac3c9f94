/** Submitting a batch in chunks: in the end every input is a row of an active
    batch, in order, or nothing of the batch is left. */
module Submissions {
  import opened Types
  import opened JobTables
  import opened MemoryBackends
  import opened Outcomes

  const CHUNK: nat := 500

  // What staging leaves behind

  /** The table has gained rows, and keys, of the batch only. */
  ghost predicate Gained(before: Table, after: Table, batchId: Id) {
    && (forall id :: id in before.jobs ==> id in after.jobs && after.jobs[id] == before.jobs[id])
    && (forall id :: id in after.jobs && id !in before.jobs ==> after.jobs[id].batchId == Some(batchId))
    && (forall k :: k in before.idemp ==> k in after.idemp && after.idemp[k] == before.idemp[k])
    && (forall k :: k in after.idemp && k !in before.idemp ==> after.idemp[k] !in before.jobs)
    && after.batchIdemp == before.batchIdemp
    && batchId in after.batches && after.batches - {batchId} == before.batches - {batchId}
  }

  /** And those rows are exactly the given jobs. */
  ghost predicate Holds(before: Table, after: Table, jobs: seq<Job>) {
    && (forall i :: 0 <= i < |jobs| ==> jobs[i].jobId in after.jobs && after.jobs[jobs[i].jobId] == jobs[i])
    && (forall id :: id in after.jobs && id !in before.jobs ==> exists i :: 0 <= i < |jobs| && jobs[i].jobId == id)
  }

  lemma {:induction false} StagingGains(before: Table, t: Table, batchId: Id, chunk: seq<Job>)
    requires TableOk(t) && batchId in t.batches && t.batches[batchId].status == Staging && Stageable(t, chunk)
    requires Gained(before, t, batchId)
    ensures Gained(before, StageEach(t, batchId, chunk).0, batchId)
    decreases |chunk|
  {
    if chunk != [] && StageFailure(t, batchId, chunk[0]).None? {
      RememberKeepsOk(t, chunk[0]);
      RememberGains(before, t, batchId, chunk[0]);
      StagingGains(before, Remember(t, chunk[0]), batchId, chunk[1..]);
    }
  }

  lemma RememberGains(before: Table, t: Table, batchId: Id, job: Job)
    requires Gained(before, t, batchId) && IdempExact(t) && StageFailure(t, batchId, job).None? && job.jobId !in t.jobs
    ensures Gained(before, Remember(t, job), batchId)
  {
  }

  lemma {:induction false} StagingHolds(before: Table, t: Table, batchId: Id, sofar: seq<Job>, chunk: seq<Job>)
    requires TableOk(t) && batchId in t.batches && t.batches[batchId].status == Staging && Stageable(t, chunk)
    requires Holds(before, t, sofar) && StageEach(t, batchId, chunk).1.None?
    ensures Holds(before, StageEach(t, batchId, chunk).0, sofar + chunk)
    decreases |chunk|
  {
    hide StageFailure, Remember, NewJob, JobsOk, IdempExact, BatchesOk, Holds;
    if chunk == [] {
      assert sofar + chunk == sofar;
    } else {
      StageStepOk(t, batchId, chunk);
      RememberHolds(before, t, sofar, chunk[0]);
      StagingHolds(before, Remember(t, chunk[0]), batchId, sofar + [chunk[0]], chunk[1..]);
      assert sofar + [chunk[0]] + chunk[1..] == sofar + chunk;
    }
  }

  lemma RememberHolds(before: Table, t: Table, sofar: seq<Job>, job: Job)
    requires Holds(before, t, sofar) && job.jobId !in t.jobs
    ensures Holds(before, Remember(t, job), sofar + [job])
  {
    var u, more := Remember(t, job), sofar + [job];
    forall id | id in u.jobs && id !in before.jobs ensures exists i :: 0 <= i < |more| && more[i].jobId == id {
      if id == job.jobId {
        assert more[|sofar|].jobId == id;
      } else {
        var i :| 0 <= i < |sofar| && sofar[i].jobId == id;
        assert more[i].jobId == id;
      }
    }
  }

  /** Nothing but the record of the batch, marked aborted, is left. */
  ghost predicate Untouched(before: Table, after: Table, batchId: Id) {
    && after.jobs == before.jobs && after.idemp == before.idemp && after.batchIdemp == before.batchIdemp
    && after.batches - {batchId} == before.batches - {batchId}
    && (batchId in after.batches ==> after.batches[batchId].status == Aborted)
  }

  lemma AbortRestores(before: Table, t: Table, batchId: Id)
    requires TableOk(before) && batchId !in before.batches && Gained(before, t, batchId) && IdempExact(t)
    requires t.batches[batchId].status == Staging
    ensures Untouched(before, AbortBatch(t, batchId), batchId)
  {
    RowsAddedGo(before, t, batchId);
    KeysAddedGo(before, t, batchId);
    hide Gained, JobsOk, IdempExact;
    assert AbortBatch(t, batchId).batches - {batchId} == t.batches - {batchId};
    OnlyThisBatch(before, t, batchId);
  }

  lemma OnlyThisBatch(before: Table, t: Table, batchId: Id)
    requires Gained(before, t, batchId)
    ensures t.batches - {batchId} == before.batches - {batchId} && t.batchIdemp == before.batchIdemp
  {
  }

  lemma RowsAddedGo(before: Table, t: Table, batchId: Id)
    requires TableOk(before) && batchId !in before.batches && Gained(before, t, batchId)
    ensures forall id :: id in t.jobs ==> (id in OfBatch(t, batchId) <==> id !in before.jobs)
    ensures ForgetAll(t, OfBatch(t, batchId)).jobs == before.jobs
  {
    forall id | id in t.jobs ensures id in OfBatch(t, batchId) <==> id !in before.jobs {
      if id in before.jobs { RowOk(before, id); }
    }
  }

  lemma KeysAddedGo(before: Table, t: Table, batchId: Id)
    requires TableOk(before) && batchId !in before.batches && Gained(before, t, batchId) && IdempExact(t)
    ensures ForgetAll(t, OfBatch(t, batchId)).idemp == before.idemp
  {
    RowsAddedGo(before, t, batchId);
    var u := ForgetAll(t, OfBatch(t, batchId));
    hide OfBatch;
    forall k ensures k in u.idemp <==> k in before.idemp {
      if k in before.idemp { assert before.idemp[k] in before.jobs; }
    }
    assert u.idemp == before.idemp;
  }

  /** Every input is a queued row of the active batch. */
  ghost predicate Landed(before: Table, after: Table, batchId: Id, jobs: seq<Job>, now: int) {
    && batchId in after.batches && after.batches[batchId].status == Active
    && after.batches - {batchId} == before.batches - {batchId}
    && (forall id :: id in before.jobs ==> id in after.jobs && after.jobs[id] == before.jobs[id])
    && (forall i :: 0 <= i < |jobs| ==>
        jobs[i].jobId in after.jobs && after.jobs[jobs[i].jobId] == Queueing(jobs[i], now))
    && (forall id :: id in after.jobs && id !in before.jobs ==> exists i :: 0 <= i < |jobs| && jobs[i].jobId == id)
  }

  /** The record of an activated batch. */
  predicate Recorded(b: Batch, client: string, count: nat, key: Option<string>, hash: Option<string>, now: int) {
    && b.status == Active && b.clientId == client && b.jobCount == count && b.activatedAt == Some(now)
    && (if key.Some? && key.value != "" then b.idempotencyKey == key && b.idempotencyHash == hash
        else b.idempotencyKey.None?)
  }

  // The submission

  /** An input is a job the service could build, or none when it refused to. */
  ghost predicate Inputs(inputs: seq<Option<Job>>, batchId: Id, issued: set<Id>) {
    && (forall i :: 0 <= i < |inputs| && inputs[i].Some? ==>
          NewJob(inputs[i].value) && inputs[i].value.batchId == Some(batchId) && inputs[i].value.batchOrdinal == Some(i)
          && inputs[i].value.jobId !in issued)
    && forall i, j :: 0 <= i < j < |inputs| && inputs[i].Some? && inputs[j].Some? ==>
      inputs[i].value.jobId != inputs[j].value.jobId
  }

  /** The jobs of the first n inputs, all of which could be built. */
  function Jobs(inputs: seq<Option<Job>>, n: nat): (r: seq<Job>)
    requires n <= |inputs| && forall i :: 0 <= i < n ==> inputs[i].Some?
    ensures |r| == n && forall i :: 0 <= i < n ==> r[i] == inputs[i].value
  {
    seq(n, i requires 0 <= i < n && inputs[i].Some? => inputs[i].value)
  }

  /** The first n jobs are staged, and so far nothing else has changed. */
  ghost predicate Underway(before: Table, after: Table, batchId: Id, inputs: seq<Option<Job>>, n: nat) {
    && n <= |inputs| && (forall i :: 0 <= i < n ==> inputs[i].Some?)
    && Gained(before, after, batchId) && after.batches[batchId].status == Staging
    && after.batches[batchId].jobCount == n && Holds(before, after, Jobs(inputs, n))
  }

  /** The ids of the first n inputs. */
  ghost function InputIds(inputs: seq<Option<Job>>, n: nat): set<Id>
    requires n <= |inputs|
  {
    set i | 0 <= i < n && inputs[i].Some? :: inputs[i].value.jobId
  }

  /** The chunk is the inputs from n to m. */
  ghost predicate IsChunk(inputs: seq<Option<Job>>, n: nat, m: nat, chunk: seq<Job>) {
    n <= m <= |inputs| && (forall i :: 0 <= i < m ==> inputs[i].Some?) && chunk == Jobs(inputs, m)[n..]
  }

  // When a batch is accepted

  /** No job uses the key of one retained, or of one before it. */
  ghost predicate KeysFree(retained: map<Id, Job>, jobs: seq<Job>) {
    && (forall i, id :: 0 <= i < |jobs| && id in retained ==> !SameKey(retained[id], jobs[i]))
    && forall i, j :: 0 <= i < j < |jobs| ==> !SameKey(jobs[i], jobs[j])
  }

  function IdsOf(jobs: seq<Job>, client: Option<string>): set<Id> {
    set job | job in jobs && (client.Some? ==> job.clientId == client.value) :: job.jobId
  }

  predicate IsStart(n: nat) {
    n % 500 == 0
  }

  function ChunkEnd(inputs: seq<Option<Job>>, n: nat): nat {
    if n + 500 <= |inputs| then n + 500 else |inputs|
  }

  /** There is room for the chunk from n to m after the inputs before it. The limit of a
      client is checked for the client of the chunk's first job alone. */
  ghost predicate RoomFor(before: Table, limits: Limits, inputs: seq<Option<Job>>, n: nat, m: nat)
    requires n < m <= |inputs| && forall i :: 0 <= i < m ==> inputs[i].Some?
  {
    var client := inputs[n].value.clientId;
    && |Unended(before.jobs, None)| + m <= limits.maxQueuedJobs
    && |Unended(before.jobs, Some(client))| + |IdsOf(Jobs(inputs, n), Some(client))| + m - n
      <= limits.maxActiveJobsPerClient
  }

  ghost predicate RoomUpTo(before: Table, limits: Limits, inputs: seq<Option<Job>>, n: nat)
    requires n <= |inputs| && forall i :: 0 <= i < n ==> inputs[i].Some?
  {
    forall k: nat :: k < n && IsStart(k) && ChunkEnd(inputs, k) <= n ==>
      RoomFor(before, limits, inputs, k, ChunkEnd(inputs, k))
  }

  /** Inputs that can all be staged: some, not too many, all of them jobs, with keys of
      their own and room for each chunk. */
  ghost predicate CanStage(before: Table, limits: Limits, inputs: seq<Option<Job>>) {
    && 0 < |inputs| <= limits.maxBatchSize && (forall i :: 0 <= i < |inputs| ==> inputs[i].Some?)
    && KeysFree(before.jobs, Jobs(inputs, |inputs|)) && RoomUpTo(before, limits, inputs, |inputs|)
  }

  /** As far as the first n inputs are concerned they can. */
  ghost predicate CanStageSoFar(before: Table, limits: Limits, inputs: seq<Option<Job>>, n: nat) {
    && n <= |inputs| && (forall i :: 0 <= i < n ==> inputs[i].Some?)
    && KeysFree(before.jobs, Jobs(inputs, n)) && RoomUpTo(before, limits, inputs, n)
  }

  lemma {:induction false} StagedIffKeysFree(t: Table, batchId: Id, chunk: seq<Job>)
    requires TableOk(t) && batchId in t.batches && t.batches[batchId].status == Staging && Stageable(t, chunk)
    requires forall i :: 0 <= i < |chunk| ==> chunk[i].batchId == Some(batchId)
    ensures StageEach(t, batchId, chunk).1.None? <==> KeysFree(t.jobs, chunk)
    decreases |chunk|
  {
    hide JobsOk, IdempExact, BatchesOk, NewJob, StageFailure, SameKey, Remember, KeysFree;
    if chunk == [] {
      NoKeys(t.jobs);
    } else {
      OneIsStaged(t, batchId, chunk);
      KeysFreeOneByOne(t.jobs, chunk);
      if StageFailure(t, batchId, chunk[0]).None? {
        StageStepOk(t, batchId, chunk);
        RememberedRows(t, chunk[0]);
        StagedIffKeysFree(Remember(t, chunk[0]), batchId, chunk[1..]);
      }
    }
  }

  lemma NoKeys(retained: map<Id, Job>)
    ensures KeysFree(retained, [])
  {
  }

  lemma RememberedRows(t: Table, job: Job)
    ensures Remember(t, job).jobs == t.jobs[job.jobId := job] && Remember(t, job).batches == t.batches
  {
  }

  lemma OneIsStaged(t: Table, batchId: Id, chunk: seq<Job>)
    requires TableOk(t) && Stageable(t, chunk) && chunk != [] && chunk[0].batchId == Some(batchId)
    ensures StageFailure(t, batchId, chunk[0]).None? <==> forall id :: id in t.jobs ==> !SameKey(t.jobs[id], chunk[0])
  {
    ExistingIsTheHolder(t, chunk[0]);
  }

  lemma KeysFreeOneByOne(retained: map<Id, Job>, jobs: seq<Job>)
    requires jobs != [] && jobs[0].jobId !in retained
    ensures KeysFree(retained, jobs)
      <==> (forall id :: id in retained ==> !SameKey(retained[id], jobs[0]))
           && KeysFree(retained[jobs[0].jobId := jobs[0]], jobs[1..])
  {
    hide SameKey;
    var more, rest := retained[jobs[0].jobId := jobs[0]], jobs[1..];
    if KeysFree(retained, jobs) {
      assert forall i :: 0 <= i < |rest| ==> rest[i] == jobs[i + 1];
    }
    if (forall id :: id in retained ==> !SameKey(retained[id], jobs[0])) && KeysFree(more, rest) {
      assert forall id :: id in retained ==> more[id] == retained[id];
      forall i, j | 0 <= i < j < |jobs| ensures !SameKey(jobs[i], jobs[j]) {
        assert jobs[j] == rest[j - 1];
        assert jobs[0].jobId in more;
        if i > 0 { assert jobs[i] == rest[i - 1]; }
      }
      forall i, id | 0 <= i < |jobs| && id in retained ensures !SameKey(retained[id], jobs[i]) {
        if i > 0 { assert jobs[i] == rest[i - 1] && id in more; }
      }
    }
  }

  /** With the first jobs staged, the rest are free of keys in the table if and only if
      they would have been free after those. */
  lemma KeysFreeOnTop(before: Table, t: Table, jobs: seq<Job>, n: nat)
    requires n <= |jobs| && Holds(before, t, jobs[..n]) && KeysFree(before.jobs, jobs[..n])
    requires forall id :: id in before.jobs ==> id in t.jobs && t.jobs[id] == before.jobs[id]
    ensures KeysFree(before.jobs, jobs) <==> KeysFree(t.jobs, jobs[n..])
  {
    hide SameKey;
    var first, rest := jobs[..n], jobs[n..];
    if KeysFree(before.jobs, jobs) {
      forall i, id | 0 <= i < |rest| && id in t.jobs ensures !SameKey(t.jobs[id], rest[i]) {
        assert rest[i] == jobs[n + i];
        if id !in before.jobs {
          var k :| 0 <= k < |first| && first[k].jobId == id;
          assert first[k] == jobs[k] && t.jobs[id] == jobs[k];
        }
      }
      assert forall i :: 0 <= i < |rest| ==> rest[i] == jobs[n + i];
    }
    if KeysFree(t.jobs, rest) {
      forall i, j | 0 <= i < j < |jobs| ensures !SameKey(jobs[i], jobs[j]) {
        if j < n {
          assert jobs[i] == first[i] && jobs[j] == first[j];
        } else {
          assert jobs[j] == rest[j - n];
          if i < n {
            assert first[i] == jobs[i] && first[i].jobId in t.jobs && t.jobs[first[i].jobId] == first[i];
          } else {
            assert jobs[i] == rest[i - n];
          }
        }
      }
      forall i, id | 0 <= i < |jobs| && id in before.jobs ensures !SameKey(before.jobs[id], jobs[i]) {
        if i < n { assert jobs[i] == first[i]; } else { assert jobs[i] == rest[i - n] && id in t.jobs; }
      }
    }
  }

  lemma KeysFreePrefix(retained: map<Id, Job>, jobs: seq<Job>, n: nat)
    requires n <= |jobs| && KeysFree(retained, jobs)
    ensures KeysFree(retained, jobs[..n])
  {
    hide SameKey;
    assert forall i :: 0 <= i < n ==> jobs[..n][i] == jobs[i];
  }

  lemma UnendedGrows(before: Table, t: Table, jobs: seq<Job>, client: Option<string>)
    requires Holds(before, t, jobs) && forall id :: id in before.jobs ==> id in t.jobs && t.jobs[id] == before.jobs[id]
    requires forall i :: 0 <= i < |jobs| ==> jobs[i].jobId !in before.jobs && jobs[i].state == JobState.Staged
    ensures |Unended(t.jobs, client)| == |Unended(before.jobs, client)| + |IdsOf(jobs, client)|
  {
    var a, b := Unended(before.jobs, client), IdsOf(jobs, client);
    forall id ensures id in b ==> id in t.jobs && id !in before.jobs {
    }
    hide Holds, IdsOf;
    forall id | id in t.jobs && id !in before.jobs ensures id in Unended(t.jobs, client) <==> id in b {
      NewIsUnended(before, t, jobs, client, id);
    }
    forall id | id in before.jobs ensures id in Unended(t.jobs, client) <==> id in a {
    }
    hide Unended;
    UnendedAreThere(before.jobs, client);
    UnendedAreThere(t.jobs, client);
    assert Unended(t.jobs, client) == a + b && a !! b;
  }

  lemma UnendedAreThere(jobs: map<Id, Job>, client: Option<string>)
    ensures Unended(jobs, client) <= jobs.Keys
  {
  }

  lemma NewIsUnended(before: Table, t: Table, jobs: seq<Job>, client: Option<string>, id: Id)
    requires Holds(before, t, jobs) && id in t.jobs && id !in before.jobs
    requires forall i :: 0 <= i < |jobs| ==> jobs[i].state == JobState.Staged
    ensures id in Unended(t.jobs, client) <==> id in IdsOf(jobs, client)
  {
    var k :| 0 <= k < |jobs| && jobs[k].jobId == id;
    assert t.jobs[id] == jobs[k] && jobs[k] in jobs;
    assert forall job :: job in jobs && job.jobId == id ==> job == t.jobs[id];
  }

  lemma {:induction false} DistinctIdsCount(jobs: seq<Job>)
    requires forall i, j :: 0 <= i < j < |jobs| ==> jobs[i].jobId != jobs[j].jobId
    ensures |IdsOf(jobs, None)| == |jobs|
  {
    if jobs != [] {
      var n := |jobs| - 1;
      DistinctIdsCount(jobs[..n]);
      assert jobs == jobs[..n] + [jobs[n]];
      assert IdsOf(jobs, None) == IdsOf(jobs[..n], None) + {jobs[n].jobId};
      assert jobs[n].jobId !in IdsOf(jobs[..n], None);
    }
  }

  /** A chunk is staged if and only if there is room for it and its keys are free. */
  lemma ChunkIsStagedExactlyWhen(t: Table, limits: Limits, before: Table, batchId: Id, inputs: seq<Option<Job>>,
                                 issued: set<Id>, n: nat, m: nat, chunk: seq<Job>)
    requires TableOk(t) && Stageable(t, chunk) && IsChunk(inputs, n, m, chunk) && n < m
    requires Underway(before, t, batchId, inputs, n) && Inputs(inputs, batchId, issued) && before.jobs.Keys <= issued
    requires KeysFree(before.jobs, Jobs(inputs, n))
    ensures JobTables.StageJobs(t, limits, batchId, chunk).1.Ok?
      <==> m <= limits.maxBatchSize && RoomFor(before, limits, inputs, n, m) && KeysFree(before.jobs, Jobs(inputs, m))
  {
    var client := inputs[n].value.clientId;
    ChunkFacts(inputs, batchId, issued, n, m, chunk);
    assert Jobs(inputs, m)[..n] == Jobs(inputs, n);
    KeysFreeOnTop(before, t, Jobs(inputs, m), n);
    StagedIffKeysFree(t, batchId, chunk);
    RoomInFields(t, limits, client, |chunk|);
    RoomOnTop(t, limits, before, batchId, inputs, issued, n, m);
    hide TableOk, Stageable, StageEach, Capacity, HasRoom, RoomFor, KeysFree, Gained, Holds, Inputs, IsChunk;
  }

  lemma ChunkFacts(inputs: seq<Option<Job>>, batchId: Id, issued: set<Id>, n: nat, m: nat, chunk: seq<Job>)
    requires IsChunk(inputs, n, m, chunk) && n < m && Inputs(inputs, batchId, issued)
    ensures |chunk| == m - n && chunk == Jobs(inputs, m)[n..] && chunk[0] == inputs[n].value
    ensures forall i :: 0 <= i < |chunk| ==> chunk[i].batchId == Some(batchId)
  {
    forall i | 0 <= i < |chunk| ensures chunk[i].batchId == Some(batchId) {
      assert chunk[i] == inputs[n + i].value;
    }
  }

  lemma RoomOnTop(t: Table, limits: Limits, before: Table, batchId: Id, inputs: seq<Option<Job>>, issued: set<Id>,
                  n: nat, m: nat)
    requires n < m <= |inputs| && forall i :: 0 <= i < m ==> inputs[i].Some?
    requires Underway(before, t, batchId, inputs, n) && Inputs(inputs, batchId, issued) && before.jobs.Keys <= issued
    ensures HasRoom(t.jobs, limits, inputs[n].value.clientId, m - n) <==> RoomFor(before, limits, inputs, n, m)
  {
    hide Unended;
    var jobs := Jobs(inputs, n);
    assert forall i :: 0 <= i < |jobs| ==> jobs[i].jobId !in before.jobs && jobs[i].state == JobState.Staged;
    UnendedGrows(before, t, jobs, None);
    UnendedGrows(before, t, jobs, Some(inputs[n].value.clientId));
    DistinctIdsCount(jobs);
  }

  /** Stages one full or final chunk. */
  method StageChunk(backend: MemoryBackend, batchId: Id, inputs: seq<Option<Job>>, ghost before: Table,
                    ghost issued: set<Id>, ghost n: nat, ghost m: nat, chunk: seq<Job>)
    returns (failure: Option<Failure>)
    requires backend.Valid() && Inputs(inputs, batchId, issued) && IsChunk(inputs, n, m, chunk)
    requires Underway(before, backend.Rows(), batchId, inputs, n) && backend.issued <= issued + InputIds(inputs, n)
    requires IsStart(n) && n < m == ChunkEnd(inputs, n) && before.jobs.Keys <= issued
    requires CanStageSoFar(before, backend.limits, inputs, n)
    modifies backend`jobs, backend`idemp, backend`issued, backend`batches, backend.index
    ensures backend.Valid() && Gained(before, backend.Rows(), batchId) && backend.batches[batchId].status == Staging
    ensures failure.None? ==>
      Underway(before, backend.Rows(), batchId, inputs, m) && backend.issued <= issued + InputIds(inputs, m)
    ensures batchId in backend.batches && backend.batches[batchId].clientId == old(backend.batches[batchId]).clientId
    ensures if failure.None? then m <= backend.limits.maxBatchSize && CanStageSoFar(before, backend.limits, inputs, m)
            else !CanStage(before, backend.limits, inputs)
    ensures m == n + CHUNK ==> IsStart(m)
  {
    hide RoomFor, KeysFree;
    ChunkIsJobs(inputs, n, m, chunk);
    ChunkDecides(before, backend.limits, inputs, n, m);
    hide RoomUpTo, CanStage, IsStart;
    ChunkIsNew(backend, batchId, inputs, issued, n, m, chunk);
    ChunkIsStagedExactlyWhen(backend.Rows(), backend.limits, before, batchId, inputs, issued, n, m, chunk);
    StageKeepsGoing(backend.Rows(), backend.limits, before, batchId, inputs, n, m, chunk);
    hide MemoryBackend.Valid, Underway, Gained, Inputs, InputIds, JobTables.StageJobs, Stageable, TableOk;
    var r := backend.StageJobs(batchId, chunk);
    failure := if r.Ok? then None else Some(r.error);
  }

  lemma ChunkIsNew(backend: MemoryBackend, batchId: Id, inputs: seq<Option<Job>>, issued: set<Id>, n: nat, m: nat,
                   chunk: seq<Job>)
    requires backend.Valid() && Inputs(inputs, batchId, issued) && IsChunk(inputs, n, m, chunk)
    requires backend.issued <= issued + InputIds(inputs, n)
    ensures forall i :: 0 <= i < |chunk| ==> NewJob(chunk[i]) && chunk[i].jobId !in backend.issued
    ensures forall i, j :: 0 <= i < j < |chunk| ==> chunk[i].jobId != chunk[j].jobId
    ensures Stageable(backend.Rows(), chunk) && TableOk(backend.Rows())
    ensures issued + InputIds(inputs, n) + (set job | job in chunk :: job.jobId) <= issued + InputIds(inputs, m)
  {
  }

  lemma StageKeepsGoing(t: Table, limits: Limits, before: Table, batchId: Id, inputs: seq<Option<Job>>, n: nat, m: nat,
                        chunk: seq<Job>)
    requires TableOk(t) && Stageable(t, chunk) && IsChunk(inputs, n, m, chunk)
    requires Underway(before, t, batchId, inputs, n)
    ensures var (u, r) := JobTables.StageJobs(t, limits, batchId, chunk);
      && Gained(before, u, batchId) && u.batches[batchId].status == Staging
      && u.batches[batchId].clientId == t.batches[batchId].clientId
      && (r.Ok? ==> Underway(before, u, batchId, inputs, m))
  {
    hide Capacity, TableOk, Stageable, StageEach, Holds;
    StagingGains(before, t, batchId, chunk);
    assert Jobs(inputs, n) + chunk == Jobs(inputs, m);
    if StageEach(t, batchId, chunk).1.None? {
      StagingHolds(before, t, batchId, Jobs(inputs, n), chunk);
      HoldsWhateverTheBatches(before, StageEach(t, batchId, chunk).0, JobTables.StageJobs(t, limits, batchId, chunk).0,
                              Jobs(inputs, m));
    }
  }

  lemma HoldsWhateverTheBatches(before: Table, t: Table, u: Table, jobs: seq<Job>)
    ensures t.jobs == u.jobs && Holds(before, t, jobs) ==> Holds(before, u, jobs)
  {
  }

  lemma ChunkGrows(inputs: seq<Option<Job>>, n: nat, m: nat, chunk: seq<Job>)
    requires IsChunk(inputs, n, m, chunk) && m < |inputs| && inputs[m].Some?
    ensures IsChunk(inputs, n, m + 1, chunk + [inputs[m].value])
    ensures IsChunk(inputs, m, m, [])
  {
  }

  /** Builds and stages every input, a chunk at a time. */
  method StageAll(backend: MemoryBackend, batchId: Id, inputs: seq<Option<Job>>, ghost before: Table,
                  ghost issued: set<Id>)
    returns (failure: Option<Failure>)
    requires backend.Valid() && Inputs(inputs, batchId, issued)
    requires Underway(before, backend.Rows(), batchId, inputs, 0) && backend.issued <= issued
      && before.jobs.Keys <= issued
    modifies backend`jobs, backend`idemp, backend`issued, backend`batches, backend.index
    ensures backend.Valid() && Gained(before, backend.Rows(), batchId) && backend.batches[batchId].status == Staging
    ensures failure.None? ==> inputs != [] && Underway(before, backend.Rows(), batchId, inputs, |inputs|)
    ensures backend.batches[batchId].clientId == old(backend.batches[batchId]).clientId
    ensures failure.None? <==> CanStage(before, backend.limits, inputs)
  {
    var chunk: seq<Job> := [];
    NoneStaged(inputs, issued);
    ghost var n: nat := 0;
    NoneDecided(before, backend.limits, inputs);
    BatchIsThere(before, backend.Rows(), batchId, inputs, 0);
    hide MemoryBackend.Valid, Gained, Holds, Inputs, InputIds, IsChunk, Underway, CanStageSoFar, IsStart, CanStage;
    for ordinal := 0 to |inputs|
      invariant n <= ordinal && backend.Valid() && IsChunk(inputs, n, ordinal, chunk)
      invariant Underway(before, backend.Rows(), batchId, inputs, n) && backend.issued <= issued + InputIds(inputs, n)
      invariant |chunk| == 0 ==> n == ordinal
      invariant batchId in backend.batches
        && backend.batches[batchId].clientId == old(backend.batches[batchId]).clientId
      invariant IsStart(n) && ordinal == n + |chunk| && |chunk| < CHUNK && ordinal <= Max0(backend.limits.maxBatchSize)
      invariant CanStageSoFar(before, backend.limits, inputs, n)
    {
      BatchIsThere(before, backend.Rows(), batchId, inputs, n);
      if inputs[ordinal].None? {
        AllMustBeJobs(before, backend.limits, inputs, ordinal);
        return Some(Invalid);
      }
      ChunkGrows(inputs, n, ordinal, chunk);
      chunk := chunk + [inputs[ordinal].value];
      if |chunk| >= CHUNK {
        failure := StageChunk(backend, batchId, inputs, before, issued, n, ordinal + 1, chunk);
        if failure.Some? {
          return;
        }
        EmptyChunk(inputs, n, ordinal + 1, chunk);
        chunk, n := [], ordinal + 1;
      }
      if ordinal + 1 > backend.limits.maxBatchSize {
        TooManyCannotStage(before, backend.limits, inputs, ordinal);
        return Some(BatchTooLarge);
      }
    }
    if chunk != [] {
      failure := StageChunk(backend, batchId, inputs, before, issued, n, |inputs|, chunk);
      if failure.Some? {
        return;
      }
    }
    BatchIsThere(before, backend.Rows(), batchId, inputs, |inputs|);
    StagedToTheEnd(before, backend.limits, inputs);
    return if |inputs| == 0 then Some(Invalid) else None;
  }

  lemma ChunkIsJobs(inputs: seq<Option<Job>>, n: nat, m: nat, chunk: seq<Job>)
    requires IsChunk(inputs, n, m, chunk)
    ensures m <= |inputs| && forall i :: 0 <= i < m ==> inputs[i].Some?
  {
  }

  function Max0(n: int): nat {
    if n >= 0 then n else 0
  }

  lemma BatchIsThere(before: Table, t: Table, batchId: Id, inputs: seq<Option<Job>>, n: nat)
    requires Underway(before, t, batchId, inputs, n)
    ensures Gained(before, t, batchId) && batchId in t.batches && t.batches[batchId].status == Staging
  {
  }

  lemma NoneDecided(before: Table, limits: Limits, inputs: seq<Option<Job>>)
    ensures IsStart(0) && CanStageSoFar(before, limits, inputs, 0)
  {
  }

  lemma AllMustBeJobs(before: Table, limits: Limits, inputs: seq<Option<Job>>, i: nat)
    requires i < |inputs| && inputs[i].None?
    ensures !CanStage(before, limits, inputs)
  {
  }

  lemma TooManyCannotStage(before: Table, limits: Limits, inputs: seq<Option<Job>>, i: nat)
    requires i < |inputs| && limits.maxBatchSize < i + 1
    ensures !CanStage(before, limits, inputs)
  {
  }

  lemma StagedToTheEnd(before: Table, limits: Limits, inputs: seq<Option<Job>>)
    requires |inputs| <= Max0(limits.maxBatchSize) && CanStageSoFar(before, limits, inputs, |inputs|)
    ensures CanStage(before, limits, inputs) <==> inputs != []
  {
  }

  /** A chunk that is refused is refused for all the inputs; one that is staged leaves
      room and keys as they have to be. */
  lemma ChunkDecides(before: Table, limits: Limits, inputs: seq<Option<Job>>, n: nat, m: nat)
    requires n < m <= |inputs| && (forall i :: 0 <= i < m ==> inputs[i].Some?)
    requires IsStart(n) && m == ChunkEnd(inputs, n) && RoomUpTo(before, limits, inputs, n)
    ensures var fits := m <= limits.maxBatchSize && RoomFor(before, limits, inputs, n, m)
              && KeysFree(before.jobs, Jobs(inputs, m));
      if fits then RoomUpTo(before, limits, inputs, m) && (m == n + CHUNK ==> IsStart(m))
        else !CanStage(before, limits, inputs)
  {
    hide KeysFree, RoomFor;
    NextStart(n, m);
    if forall i :: 0 <= i < |inputs| ==> inputs[i].Some? {
      assert Jobs(inputs, |inputs|)[..m] == Jobs(inputs, m);
      if KeysFree(before.jobs, Jobs(inputs, |inputs|)) {
        KeysFreePrefix(before.jobs, Jobs(inputs, |inputs|), m);
      }
    }
  }

  lemma NextStart(n: nat, m: nat)
    requires IsStart(n) && n < m <= n + CHUNK
    ensures forall k: nat :: n < k < m ==> !IsStart(k)
    ensures m == n + CHUNK ==> IsStart(m)
    ensures forall k: nat :: k < n && IsStart(k) ==> k + CHUNK <= n
  {
  }

  lemma NoneStaged(inputs: seq<Option<Job>>, issued: set<Id>)
    ensures IsChunk(inputs, 0, 0, []) && issued + InputIds(inputs, 0) == issued
  {
  }

  lemma EmptyChunk(inputs: seq<Option<Job>>, n: nat, m: nat, chunk: seq<Job>)
    requires IsChunk(inputs, n, m, chunk)
    ensures IsChunk(inputs, m, m, [])
  {
  }

  lemma BatchBegins(t: Table, u: Table, limits: Limits, batch: Batch, inputs: seq<Option<Job>>)
    requires BatchesOk(t) && batch.batchId !in t.batches && batch.status == Staging && batch.idempotencyKey.None?
    requires batch.jobCount == 0
    requires (u, BeginBatch(t, limits, batch).1) == BeginBatch(t, limits, batch)
    ensures BeginBatch(t, limits, batch).1.Ok? <==> limits.maxBatchSize >= 0
    ensures BeginBatch(t, limits, batch).1.Err? ==> Untouched(t, u, batch.batchId)
    ensures BeginBatch(t, limits, batch).1.Ok? ==>
      Underway(t, u, batch.batchId, inputs, 0) && u.batches[batch.batchId].clientId == batch.clientId
  {
  }

  lemma ActivationEnds(before: Table, t: Table, batchId: Id, inputs: seq<Option<Job>>, issued: set<Id>,
                       key: Option<string>, hash: Option<string>, now: int)
    requires TableOk(before) && TableOk(t) && batchId !in before.batches
    requires Underway(before, t, batchId, inputs, |inputs|) && Inputs(inputs, batchId, issued)
    ensures var (u, r) := ActivateBatch(t, batchId, key, hash, now);
      && (r.Ok? && !r.value.replayed ==>
            Landed(before, u, batchId, Jobs(inputs, |inputs|), now)
            && batchId in u.batches && r.value.batch == u.batches[batchId])
      && (r.Ok? && !r.value.replayed ==>
            Recorded(r.value.batch, t.batches[batchId].clientId, |inputs|, key, hash, now))
      && (r.Ok? && r.value.replayed ==>
            Untouched(before, u, batchId) && key.Some? && key.value != ""
            && r.value.batch.idempotencyHash == hash && r.value.batch.batchId in before.batches)
      && (r.Err? ==> u == t)
      && (r.Ok? && !r.value.replayed <==> KeyIsFree(before.batches, t.batches[batchId].clientId, key))
      && (r.Ok? && r.value.replayed <==> KeyHeldWith(before.batches, t.batches[batchId].clientId, key, hash))
  {
    HolderDecides(before, t, batchId, key, hash, now);
    ActivationRecords(t, batchId, key, hash, now);
    hide KeyIsFree, KeyHeldWith;
    hide Landed, Untouched, Gained, Holds, Activated, AbortBatch, JobsOk, IdempExact;
    AbortRestoresBatch(before, t, batchId, inputs);
    LandsWhenActivated(before, t, batchId, inputs, issued, key, hash, now);
    OthersWereThere(before, t, batchId);
  }

  /** No batch of the client has the key, or there is none to have. */
  ghost predicate KeyIsFree(batches: map<Id, Batch>, client: string, key: Option<string>) {
    key.Some? && key.value != "" ==>
      forall b :: b in batches ==> batches[b].clientId != client || batches[b].idempotencyKey != key
  }

  /** A batch of the client has the key, and that payload. */
  ghost predicate KeyHeldWith(batches: map<Id, Batch>, client: string, key: Option<string>, hash: Option<string>) {
    key.Some? && key.value != ""
    && exists b :: b in batches && batches[b].clientId == client && batches[b].idempotencyKey == key
                   && batches[b].idempotencyHash == hash
  }

  lemma ActivationRecords(t: Table, batchId: Id, key: Option<string>, hash: Option<string>, now: int)
    requires TableOk(t) && batchId in t.batches && t.batches[batchId].status == Staging
    ensures var r, b := ActivateBatch(t, batchId, key, hash, now).1, t.batches[batchId];
      r.Ok? && !r.value.replayed ==> Recorded(r.value.batch, b.clientId, b.jobCount, key, hash, now)
  {
    hide JobsOk, IdempExact, AbortBatch;
  }

  lemma HolderDecides(before: Table, t: Table, batchId: Id, key: Option<string>, hash: Option<string>, now: int)
    requires TableOk(before) && TableOk(t) && batchId !in before.batches && Gained(before, t, batchId)
    requires t.batches[batchId].status == Staging
    ensures var r, client := ActivateBatch(t, batchId, key, hash, now).1, t.batches[batchId].clientId;
      && (r.Ok? && !r.value.replayed <==> KeyIsFree(before.batches, client, key))
      && (r.Ok? && r.value.replayed <==> KeyHeldWith(before.batches, client, key, hash))
  {
    var client, k := t.batches[batchId].clientId, KeyOf(t.batches[batchId].clientId, key);
    hide JobsOk, IdempExact, AbortBatch, Activated;
    forall b | b in t.batches && b != batchId ensures b in before.batches && before.batches[b] == t.batches[b] {
      assert b in t.batches - {batchId};
    }
    forall b | b in before.batches ensures b in t.batches && t.batches[b] == before.batches[b] {
      assert b in before.batches - {batchId};
    }
    if k.Some? && k.value in t.batchIdemp {
      var holder := t.batchIdemp[k.value];
      assert holder in before.batches && before.batches[holder].clientId == client
        && before.batches[holder].idempotencyKey == key;
    }
  }

  lemma OthersWereThere(before: Table, t: Table, batchId: Id)
    requires Gained(before, t, batchId)
    ensures forall b :: b in t.batches && b != batchId ==> b in before.batches
  {
    forall b | b in t.batches && b != batchId ensures b in before.batches {
      assert b in t.batches - {batchId};
    }
  }

  lemma AbortRestoresBatch(before: Table, t: Table, batchId: Id, inputs: seq<Option<Job>>)
    requires TableOk(before) && TableOk(t) && batchId !in before.batches && Gained(before, t, batchId)
    requires t.batches[batchId].status == Staging
    ensures Untouched(before, AbortBatch(t, batchId), batchId)
  {
    AbortRestores(before, t, batchId);
  }

  lemma LandsWhenActivated(before: Table, t: Table, batchId: Id, inputs: seq<Option<Job>>, issued: set<Id>,
                           key: Option<string>, hash: Option<string>, now: int)
    requires TableOk(before) && batchId !in before.batches
    requires Underway(before, t, batchId, inputs, |inputs|) && Inputs(inputs, batchId, issued)
    ensures Landed(before, Activated(t, batchId, key, hash, now), batchId, Jobs(inputs, |inputs|), now)
    ensures batchId in Activated(t, batchId, key, hash, now).batches
  {
  }

  /** Begins, stages and activates a new batch; when anything is refused on the way,
      what was staged is dropped. */
  method SubmitNew(backend: MemoryBackend, batch: Batch, inputs: seq<Option<Job>>, key: Option<string>,
                   hash: Option<string>, now: int)
    returns (r: Result<BatchReceipt>)
    requires backend.Valid() && batch.batchId !in backend.batches && batch.status == Staging
    requires batch.idempotencyKey.None? && batch.jobCount == 0 && Inputs(inputs, batch.batchId, backend.issued)
    modifies backend`jobs, backend`idemp, backend`issued, backend`batches, backend`batchIdemp, backend.index
    ensures backend.Valid()
    ensures r.Ok? && !r.value.replayed ==>
      && (forall i :: 0 <= i < |inputs| ==> inputs[i].Some?)
      && Landed(old(backend.Rows()), backend.Rows(), batch.batchId, Jobs(inputs, |inputs|), now)
      && inputs != [] && batch.batchId in backend.batches && r.value.batch == backend.batches[batch.batchId]
      && Recorded(r.value.batch, batch.clientId, |inputs|, key, hash, now)
    ensures !(r.Ok? && !r.value.replayed) ==> Untouched(old(backend.Rows()), backend.Rows(), batch.batchId)
    ensures (r.Ok? && !r.value.replayed) <==>
      CanStage(old(backend.Rows()), backend.limits, inputs) && KeyIsFree(old(backend.batches), batch.clientId, key)
    ensures (r.Ok? && r.value.replayed) <==>
      CanStage(old(backend.Rows()), backend.limits, inputs)
        && KeyHeldWith(old(backend.batches), batch.clientId, key, hash)
    ensures r.Ok? && r.value.replayed ==> key.Some? && key.value != "" && r.value.batch.batchId in old(backend.batches)
    ensures r.Ok? && r.value.replayed ==> r.value.batch.idempotencyHash == hash
  {
    hide MemoryBackend.Valid, Gained, Holds, Inputs, Landed, Untouched, BeginBatch, AbortBatch, ActivateBatch, TableOk;
    hide KeyIsFree, KeyHeldWith, KeysFree, RoomUpTo;
    ghost var before, issued := backend.Rows(), backend.issued;
    RowsAreOk(backend);
    var begun := backend.BeginBatch(batch);
    BatchBegins(before, backend.Rows(), backend.limits, batch, inputs);
    if begun.Err? {
      return Err(begun.error);
    }
    var failure := StageAll(backend, batch.batchId, inputs, before, issued);
    RowsAreOk(backend);
    AbortRestoresBatch(before, backend.Rows(), batch.batchId, inputs);
    if failure.Some? {
      backend.AbortBatch(batch.batchId);
      return Err(failure.value);
    }
    ActivationEnds(before, backend.Rows(), batch.batchId, inputs, issued, key, hash, now);
    r := backend.ActivateBatch(batch.batchId, key, hash, now);
    if r.Err? {
      backend.AbortBatch(batch.batchId);
    }
  }

  lemma RowsAreOk(backend: MemoryBackend)
    requires backend.Valid()
    ensures TableOk(backend.Rows()) && BatchesOk(backend.Rows()) && backend.jobs.Keys <= backend.issued
  {
  }

  /** Either the whole batch lands, or nothing of it stays, or the batch submitted
      under the key before is the answer. listed says whether the inputs are known
      in advance, and then digest is their hash. */
  method SubmitBatch(backend: MemoryBackend, batch: Batch, inputs: seq<Option<Job>>, listed: bool, key: Option<string>,
                     digest: string, now: int)
    returns (r: Result<BatchReceipt>)
    requires backend.Valid() && batch.batchId !in backend.batches && batch.status == Staging && batch.jobCount == 0
    requires batch.idempotencyKey.None? && Inputs(inputs, batch.batchId, backend.issued)
    modifies backend`jobs, backend`idemp, backend`issued, backend`batches, backend`batchIdemp, backend.index
    ensures backend.Valid()
    ensures r.Ok? && !r.value.replayed ==>
      && (forall i :: 0 <= i < |inputs| ==> inputs[i].Some?)
      && Landed(old(backend.Rows()), backend.Rows(), batch.batchId, Jobs(inputs, |inputs|), now)
      && inputs != [] && batch.batchId in backend.batches && r.value.batch == backend.batches[batch.batchId]
      && Recorded(r.value.batch, batch.clientId, |inputs|, key, Some(digest), now)
    ensures !(r.Ok? && !r.value.replayed) ==> Untouched(old(backend.Rows()), backend.Rows(), batch.batchId)
    ensures r.Ok? && r.value.replayed ==>
      r.value.batch.batchId in old(backend.batches) && r.value.batch.idempotencyHash == Some(digest)
    ensures (r.Ok? && !r.value.replayed) <==>
      CanStage(old(backend.Rows()), backend.limits, inputs) && KeyIsFree(old(backend.batches), batch.clientId, key)
    ensures (r.Ok? && r.value.replayed) <==>
      KeyHeldWith(old(backend.batches), batch.clientId, key, Some(digest))
      && if listed then |inputs| <= backend.limits.maxBatchSize
         else CanStage(old(backend.Rows()), backend.limits, inputs)
  {
    hide KeysFree, RoomUpTo;
    hide Landed, Untouched, Gained, Holds, Inputs, InputIds, MemoryBackend.Valid;
    BatchKeysAreOne(backend, batch.clientId, key);
    if listed && |inputs| > backend.limits.maxBatchSize {
      StillUntouched(backend, batch.batchId);
      return Err(BatchTooLarge);
    }
    var keyed := key.Some? && key.value != "";
    if listed && keyed {
      var existing := backend.FindBatchIdempotency(batch.clientId, key.value);
      if existing.Some? {
        StillUntouched(backend, batch.batchId);
        if existing.value.idempotencyHash == Some(digest) {
          return Ok(BatchReceipt(existing.value, true));
        }
        return Err(Conflict(existing.value.batchId));
      }
    }
    r := SubmitNew(backend, batch, inputs, key, if keyed then Some(digest) else None, now);
  }

  lemma BatchKeysAreOne(backend: MemoryBackend, client: string, key: Option<string>)
    requires backend.Valid()
    ensures key.Some? && key.value != "" ==>
      (forall b :: b in backend.batches ==>
         (BatchKey(backend.batches[b]) == Some((client, key.value))
          <==> backend.batches[b].clientId == client && backend.batches[b].idempotencyKey == key))
      && forall a, b ::
           (a in backend.batches && b in backend.batches
            && BatchKey(backend.batches[a]) == BatchKey(backend.batches[b]) == Some((client, key.value))) ==> a == b
  {
  }

  lemma StillUntouched(backend: MemoryBackend, batchId: Id)
    requires batchId !in backend.batches
    ensures Untouched(backend.Rows(), backend.Rows(), batchId)
  {
  }

  // The limit of a client

  lemma LastStart(n: nat) returns (k: nat)
    requires n > 0
    ensures k < n <= k + CHUNK && IsStart(k)
  {
    k := (n - 1) / CHUNK * CHUNK;
  }

  lemma OneClientsIds(inputs: seq<Option<Job>>, batchId: Id, issued: set<Id>, client: string, n: nat)
    requires n <= |inputs| && Inputs(inputs, batchId, issued)
    requires forall i :: 0 <= i < |inputs| ==> inputs[i].Some? && inputs[i].value.clientId == client
    ensures |IdsOf(Jobs(inputs, n), Some(client))| == n
  {
    DistinctIdsCount(Jobs(inputs, n));
    assert IdsOf(Jobs(inputs, n), Some(client)) == IdsOf(Jobs(inputs, n), None);
  }

  /** For the jobs of one client the chunks do not matter: there is room for each if and
      only if there is room for all. */
  lemma OneClientNeedsRoomForAll(before: Table, limits: Limits, inputs: seq<Option<Job>>, batchId: Id, issued: set<Id>,
                                 client: string)
    requires inputs != [] && Inputs(inputs, batchId, issued)
    requires forall i :: 0 <= i < |inputs| ==> inputs[i].Some? && inputs[i].value.clientId == client
    ensures RoomUpTo(before, limits, inputs, |inputs|) <==> HasRoom(before.jobs, limits, client, |inputs|)
  {
    var n := |inputs|;
    hide IdsOf, Unended, Inputs;
    var last := LastStart(n);
    if RoomUpTo(before, limits, inputs, n) {
      assert RoomFor(before, limits, inputs, last, ChunkEnd(inputs, last));
      OneClientsIds(inputs, batchId, issued, client, last);
    }
    if HasRoom(before.jobs, limits, client, n) {
      forall k: nat | k < n && IsStart(k) && ChunkEnd(inputs, k) <= n
        ensures RoomFor(before, limits, inputs, k, ChunkEnd(inputs, k))
      {
        OneClientsIds(inputs, batchId, issued, client, k);
      }
    }
  }

  /** A job as the service builds it, inside a batch or on its own. */
  function Plain(id: Id, client: string, place: Option<(Id, nat)>): Job {
    Job(id, if place.Some? then Some(place.value.0) else None, if place.Some? then Some(place.value.1) else None, None,
        None, client, 0, 0, None, None, None, 0, Normal, "mock", "mock",
        if place.Some? then JobState.Staged else JobState.Queued, "", 0, 1, None, None, None, None, None, false, None)
  }

  const TWO_OF_B := Table(map["x" := Plain("x", "b", None), "y" := Plain("y", "b", None)], map[], map[], map[])
  const ONE_OF_EACH := [Some(Plain("p", "a", Some(("batch", 0)))), Some(Plain("q", "b", Some(("batch", 1))))]

  /** Mixed batches slip past it: client b has two unfinished jobs, as many as allowed,
      and a batch that begins with a job of client a brings it a third. */
  lemma MixedBatchSlipsPast()
    ensures TableOk(TWO_OF_B) && Inputs(ONE_OF_EACH, "batch", {"x", "y"})
    ensures CanStage(TWO_OF_B, Limits(100, 100, 2), ONE_OF_EACH)
    ensures |Unended(TWO_OF_B.jobs, Some("b"))| == 2 && |IdsOf(Jobs(ONE_OF_EACH, 2), Some("b"))| == 1
  {
    hide TableOk, Inputs, KeysFree, RoomUpTo, Unended, IdsOf;
    ExampleIsSound();
    ExampleCounts();
    ExampleHasRoom();
    ExampleHasNoKeys();
  }

  lemma ExampleIsSound()
    ensures TableOk(TWO_OF_B) && Inputs(ONE_OF_EACH, "batch", {"x", "y"})
  {
  }

  lemma ExampleCounts()
    ensures Jobs(ONE_OF_EACH, 2) == [Plain("p", "a", Some(("batch", 0))), Plain("q", "b", Some(("batch", 1)))]
    ensures |Unended(TWO_OF_B.jobs, Some("b"))| == |Unended(TWO_OF_B.jobs, None)| == 2
    ensures |Unended(TWO_OF_B.jobs, Some("a"))| == 0
    ensures |IdsOf(Jobs(ONE_OF_EACH, 2), Some("b"))| == 1 && IdsOf(Jobs(ONE_OF_EACH, 0), Some("a")) == {}
  {
    var jobs := Jobs(ONE_OF_EACH, 2);
    assert Unended(TWO_OF_B.jobs, Some("b")) == {"x", "y"} == Unended(TWO_OF_B.jobs, None);
    assert Unended(TWO_OF_B.jobs, Some("a")) == {};
    assert jobs[0] in jobs && jobs[1] in jobs;
    assert IdsOf(jobs, Some("b")) == {"q"};
  }

  lemma ExampleHasRoom()
    ensures RoomUpTo(TWO_OF_B, Limits(100, 100, 2), ONE_OF_EACH, 2)
  {
    hide Unended, IdsOf;
    ExampleCounts();
    assert forall k: nat :: k < 2 && IsStart(k) ==> k == 0;
  }

  lemma ExampleHasNoKeys()
    ensures KeysFree(TWO_OF_B.jobs, Jobs(ONE_OF_EACH, 2))
  {
  }
}
