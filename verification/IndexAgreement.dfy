/** When the ready index agrees with the job table: what it lists is queued, and
    every job that can be claimed now or later is listed. */
module IndexAgreement {
  import opened Types
  import opened JobTables
  import opened ReadyIndexes

  function CandidateOf(job: Job): Candidate {
    Candidate(job.jobId, job.schedulingClass, job.priority, Epoch(job.createdAt), job.clientId, job.resolvedModel,
              job.questionsHash)
  }

  /** Claimable at this instant or, if it never moves again, at a later one. */
  predicate Wanted(job: Job, active: bool, clock: int) {
    job.state == Queued && !job.cancelRequested && active && !Passed(job.deadlineAt, clock)
  }

  ghost predicate Indexed(view: View, job: Job, active: bool, clock: int) {
    && (job.jobId in view ==> job.state == Queued && view[job.jobId] == CandidateOf(job))
    && (Wanted(job, active, clock) ==> job.jobId in view)
    && (job.state == Queued || Held(job.state) ==> Due(job.notBefore, clock))
  }

  ghost predicate Agrees(view: View, t: Table, clock: int) {
    && view.Keys <= t.jobs.Keys
    && forall id :: id in t.jobs ==> Indexed(view, t.jobs[id], BatchActive(t.batches, t.jobs[id].batchId), clock)
  }

  /** Ids are never reused, so an id's birth is that of the one job that has it. */
  ghost predicate BirthsOk(births: map<Id, Birth>, jobs: map<Id, Job>, issued: set<Id>) {
    && births.Keys <= issued && jobs.Keys <= issued
    && forall id :: id in births && id in jobs ==> births[id] == BirthOf(CandidateOf(jobs[id]))
  }

  /** Everything the in-memory backend maintains. */
  ghost predicate Good(t: Table, view: View, births: map<Id, Birth>, issued: set<Id>, clock: int) {
    TableOk(t) && Agrees(view, t, clock) && BirthsOk(births, t.jobs, issued)
  }

  /** Only one id's listing changes. */
  ghost predicate Around(view: View, next: View, id: Id) {
    forall other :: other != id ==>
      (other in view <==> other in next) && (other in view ==> view[other] == next[other])
  }

  lemma PutKeepsGood(t: Table, view: View, births: map<Id, Birth>, issued: set<Id>, clock: int, job: Job, next: View,
                     nextBirths: map<Id, Birth>)
    requires Good(t, view, births, issued, clock)
    requires job.jobId in t.jobs && SameIdentity(t.jobs[job.jobId], job) && JobOk(job) && FitsBatch(t.batches, job)
    requires Around(view, next, job.jobId)
    requires Indexed(next, job, BatchActive(t.batches, job.batchId), clock)
    requires nextBirths == births || nextBirths == births[job.jobId := BirthOf(CandidateOf(job))]
    ensures Good(Put(t, job), next, nextBirths, issued, clock)
  {
    PutKeepsOk(t, job);
    AgreesAround(t, view, clock, job, next);
  }

  lemma AgreesAround(t: Table, view: View, clock: int, job: Job, next: View)
    requires JobsOk(t) && Agrees(view, t, clock) && job.jobId in t.jobs
    requires Around(view, next, job.jobId) && Indexed(next, job, BatchActive(t.batches, job.batchId), clock)
    ensures Agrees(next, Put(t, job), clock)
  {
  }

  /** Time only takes jobs out of what must be listed. */
  lemma LaterStillGood(t: Table, view: View, births: map<Id, Birth>, issued: set<Id>, clock: int, now: int)
    requires Good(t, view, births, issued, clock) && clock <= now
    ensures Good(t, view, births, issued, now)
  {
  }

  /** Dropping a listing that cannot be claimed, now or later, loses nothing. */
  lemma DropKeepsGood(t: Table, view: View, births: map<Id, Birth>, issued: set<Id>, clock: int, id: Id)
    requires Good(t, view, births, issued, clock)
    requires id in t.jobs ==> !Wanted(t.jobs[id], BatchActive(t.batches, t.jobs[id].batchId), clock)
    ensures Good(t, view - {id}, births, issued, clock)
  {
  }

  lemma ForgetKeepsGood(t: Table, view: View, births: map<Id, Birth>, issued: set<Id>, clock: int, id: Id)
    requires Good(t, view, births, issued, clock) && id in t.jobs
    ensures Good(ForgetAll(t, {id}), view - {id}, births, issued, clock)
  {
    ForgetKeepsOk(t, {id});
    var u := ForgetAll(t, {id});
    forall other | other in u.jobs
      ensures Indexed(view - {id}, u.jobs[other], BatchActive(u.batches, u.jobs[other].batchId), clock) {
      assert Indexed(view, t.jobs[other], BatchActive(t.batches, t.jobs[other].batchId), clock);
    }
  }

  lemma RememberKeepsGood(t: Table, view: View, births: map<Id, Birth>, issued: set<Id>, clock: int, job: Job,
                          next: View, nextBirths: map<Id, Birth>)
    requires Good(t, view, births, issued, clock)
    requires job.jobId !in issued && NewJob(job) && FitsBatch(t.batches, job)
    requires JobKey(job).Some? ==> JobKey(job).value !in t.idemp
    requires job.state == Queued ==>
      next == view[job.jobId := CandidateOf(job)] && nextBirths == births[job.jobId := BirthOf(CandidateOf(job))]
    requires job.state != Queued ==> next == view && nextBirths == births
    ensures Good(Remember(t, job), next, nextBirths, issued + {job.jobId}, clock)
  {
    RememberKeepsOk(t, job);
    var u := Remember(t, job);
    assert job.jobId !in view;
    forall id | id in u.jobs ensures Indexed(next, u.jobs[id], BatchActive(u.batches, u.jobs[id].batchId), clock) {
      if id != job.jobId {
        assert Indexed(view, t.jobs[id], BatchActive(t.batches, t.jobs[id].batchId), clock);
      }
    }
  }

  /** What the agreement is for: a job of a model that can be claimed is listed
      under that model. */
  lemma ClaimableIsListed(t: Table, view: View, clock: int, id: Id)
    requires Agrees(view, t, clock) && id in t.jobs && t.jobs[id].jobId == id
    requires Claimable(t.jobs[id], clock, BatchActive(t.batches, t.jobs[id].batchId))
    ensures id in view && view[id] == CandidateOf(t.jobs[id])
  {
  }

  /** And a listed job that cannot be claimed at the clock never will be without
      moving first. */
  lemma ListedOrNever(t: Table, view: View, clock: int, id: Id)
    requires Agrees(view, t, clock) && id in view && id in t.jobs && t.jobs[id].jobId == id
    requires !Claimable(t.jobs[id], clock, BatchActive(t.batches, t.jobs[id].batchId))
    ensures !Wanted(t.jobs[id], BatchActive(t.batches, t.jobs[id].batchId), clock)
  {
  }

  // Sweeps, batches and retention

  /** The jobs while a sweep is under way: those in todo are still as before. */
  function Partly(before: map<Id, Job>, after: map<Id, Job>, todo: set<Id>): map<Id, Job> {
    map id | id in before && id in after :: if id in todo then before[id] else after[id]
  }

  lemma PartlyStep(before: map<Id, Job>, after: map<Id, Job>, todo: set<Id>, id: Id)
    requires id in todo && id in before && id in after
    ensures id in Partly(before, after, todo) && Partly(before, after, todo)[id] == before[id]
    ensures Partly(before, after, todo - {id}) == Partly(before, after, todo)[id := after[id]]
  {
  }

  lemma PartlyEnds(before: map<Id, Job>, after: map<Id, Job>)
    requires before.Keys == after.Keys
    ensures Partly(before, after, before.Keys) == before && Partly(before, after, {}) == after
  {
  }

  lemma ForgetOneMore(t: Table, ids: set<Id>, id: Id)
    ensures ForgetAll(ForgetAll(t, ids), {id}) == ForgetAll(t, ids + {id})
  {
  }

  lemma ForgetNothing(t: Table, ids: set<Id>)
    ensures ForgetAll(t, ids - ids) == t && ids - {} == ids
  {
  }

  lemma ForgetKeeps(t: Table, id: Id)
    ensures ForgetAll(t, {id}).jobs.Keys == t.jobs.Keys - {id}
  {
  }

  /** Popping the job's own key forgets exactly the keys of that job. */
  lemma PopKey(t: Table, id: Id)
    requires TableOk(t) && id in t.jobs
    ensures ForgetAll(t, {id}).idemp == if JobKey(t.jobs[id]).Some? then t.idemp - {JobKey(t.jobs[id]).value}
      else t.idemp
  {
  }

  /** Only a batch without jobs changes its record. */
  lemma BatchRecordKeepsGood(t: Table, view: View, births: map<Id, Birth>, issued: set<Id>, clock: int, batch: Batch)
    requires Good(t, view, births, issued, clock)
    requires batch.batchId in t.batches ==> OfBatch(t, batch.batchId) == {} && BatchKey(t.batches[batch.batchId]).None?
    requires batch.batchId !in t.batches ==> batch.status == Staging
    requires batch.idempotencyKey.None?
    ensures Good(t.(batches := t.batches[batch.batchId := batch]), view, births, issued, clock)
  {
    var u := t.(batches := t.batches[batch.batchId := batch]);
    assert forall id :: id in t.jobs && t.jobs[id].batchId == Some(batch.batchId) ==> id in OfBatch(t, batch.batchId);
    forall id | id in t.jobs
      ensures t.jobs[id].batchId != Some(batch.batchId)
      ensures FitsBatch(u.batches, t.jobs[id])
        && Indexed(view, t.jobs[id], BatchActive(u.batches, t.jobs[id].batchId), clock)
    {
      assert Indexed(view, t.jobs[id], BatchActive(t.batches, t.jobs[id].batchId), clock);
    }
  }

  /** The listings an activation adds: the batch's newly queued jobs. */
  function Listings(jobs: map<Id, Job>, ids: set<Id>): View {
    map id | id in ids && id in jobs :: CandidateOf(jobs[id])
  }

  function BirthsOf(jobs: map<Id, Job>, ids: set<Id>): map<Id, Birth> {
    map id | id in ids && id in jobs :: BirthOf(CandidateOf(jobs[id]))
  }

  function StagedIn(jobs: map<Id, Job>, batchId: Id): set<Id> {
    set id | id in jobs && jobs[id].batchId == Some(batchId) && jobs[id].state == Staged
  }

  /** Of the batch's jobs exactly the staged ones are queued. */
  lemma StagedQueueUp(t: Table, batchId: Id, now: int, ids: set<Id>)
    requires ids == OfBatch(t, batchId)
    ensures var after := WithQueued(t.jobs, batchId, now);
      && Partly(t.jobs, after, ids) == t.jobs && Partly(t.jobs, after, {}) == after
      && (forall id :: id in ids ==> (id in StagedIn(t.jobs, batchId) <==> t.jobs[id].state == Staged))
      && (forall id :: id in ids ==> after[id] == if id in StagedIn(t.jobs, batchId) then Queueing(t.jobs[id], now)
          else t.jobs[id])
      && var staged := StagedIn(t.jobs, batchId);
         && Listings(after, staged - ids) == map[] && Listings(after, staged - {}) == Listings(after, staged)
         && BirthsOf(after, staged - ids) == map[] && BirthsOf(after, staged - {}) == BirthsOf(after, staged)
  {
  }

  lemma OneMoreListed(view: View, births: map<Id, Birth>, after: map<Id, Job>, staged: set<Id>, todo: set<Id>, id: Id)
    requires id in todo && id in after
    ensures view + Listings(after, staged - (todo - {id}))
      == if id in staged then (view + Listings(after, staged - todo))[id := CandidateOf(after[id])]
         else view + Listings(after, staged - todo)
    ensures births + BirthsOf(after, staged - (todo - {id}))
      == if id in staged then (births + BirthsOf(after, staged - todo))[id := BirthOf(CandidateOf(after[id]))]
         else births + BirthsOf(after, staged - todo)
    ensures id !in BirthsOf(after, staged - todo)
  {
    hide CandidateOf;
    if id !in staged {
      assert staged - (todo - {id}) == staged - todo;
    }
  }

  lemma ActivatedKeepsGood(t: Table, view: View, births: map<Id, Birth>, issued: set<Id>, clock: int,
                           batchId: Id, key: Option<string>, hash: Option<string>, now: int)
    requires Good(t, view, births, issued, clock)
    requires batchId in t.batches && t.batches[batchId].status == Staging
    requires var k := KeyOf(t.batches[batchId].clientId, key); k.Some? ==> k.value !in t.batchIdemp
    ensures var u := Activated(t, batchId, key, hash, now);
      Good(u, view + Listings(u.jobs, StagedIn(t.jobs, batchId)), births + BirthsOf(u.jobs, StagedIn(t.jobs, batchId)),
           issued, clock)
  {
    hide JobsOk, IdempExact, BatchesOk;
    var u := Activated(t, batchId, key, hash, now);
    var next := view + Listings(u.jobs, StagedIn(t.jobs, batchId));
    ActivatedKeepsOk(t, batchId, key, hash, now);
    forall id | id in t.jobs ensures Indexed(next, u.jobs[id], BatchActive(u.batches, u.jobs[id].batchId), clock) {
      ActivatedIsIndexed(t, view, clock, batchId, key, hash, now, id);
    }
    ActivatedBirthsOk(t.jobs, u.jobs, births, issued, batchId, now);
  }

  lemma ActivatedBirthsOk(jobs: map<Id, Job>, after: map<Id, Job>, births: map<Id, Birth>, issued: set<Id>, batchId: Id,
                          now: int)
    requires BirthsOk(births, jobs, issued)
    requires after == WithQueued(jobs, batchId, now)
    ensures BirthsOk(births + BirthsOf(after, StagedIn(jobs, batchId)), after, issued)
  {
  }

  lemma ActivatedIsIndexed(t: Table, view: View, clock: int, batchId: Id, key: Option<string>, hash: Option<string>,
                           now: int, id: Id)
    requires JobsOk(t) && Agrees(view, t, clock) && id in t.jobs
    requires batchId in t.batches && t.batches[batchId].status == Staging
    ensures var u := Activated(t, batchId, key, hash, now);
      Indexed(view + Listings(u.jobs, StagedIn(t.jobs, batchId)), u.jobs[id],
              BatchActive(u.batches, u.jobs[id].batchId), clock)
  {
    assert Indexed(view, t.jobs[id], BatchActive(t.batches, t.jobs[id].batchId), clock);
    assert t.jobs[id].jobId == id;
  }
}
