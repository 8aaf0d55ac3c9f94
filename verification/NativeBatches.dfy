/** Native batches: the jobs claimed along with one the picker chose, the oldest
    that ask the same model the same questions. */
module NativeBatches {
  import opened Types
  import opened JobTables
  import opened JobOrder

  /** The jobs that can join a native batch of the model and questions. */
  function Compatible(t: Table, model: string, questionsHash: string, now: int): set<Id> {
    set id | id in ClaimableIds(t, now) && t.jobs[id].resolvedModel == model
      && t.jobs[id].questionsHash == questionsHash
  }

  /** The oldest compatible jobs, up to the limit, ties by id. */
  ghost predicate Companions(t: Table, model: string, questionsHash: string, exclude: set<Id>, limit: int, now: int,
                             claimed: seq<Id>) {
    FirstOf(t.jobs, false, Compatible(t, model, questionsHash, now) - exclude, if limit <= 0 then 0 else limit, claimed)
  }

  /** The jobs with each of ids claimed. */
  function Taken(jobs: map<Id, Job>, ids: set<Id>, owner: string, leaseUntil: int, now: int): map<Id, Job> {
    map id | id in jobs :: if id in ids then Claimed(jobs[id], owner, leaseUntil, now) else jobs[id]
  }

  lemma TakeOneMore(jobs: map<Id, Job>, ids: set<Id>, id: Id, owner: string, leaseUntil: int, now: int)
    requires id in jobs && id !in ids
    ensures id in Taken(jobs, ids, owner, leaseUntil, now) && Taken(jobs, ids, owner, leaseUntil, now)[id] == jobs[id]
    ensures Taken(jobs, ids + {id}, owner, leaseUntil, now)
      == Taken(jobs, ids, owner, leaseUntil, now)[id := Claimed(jobs[id], owner, leaseUntil, now)]
  {
  }

  lemma TakeNone(jobs: map<Id, Job>, owner: string, leaseUntil: int, now: int)
    ensures Taken(jobs, {}, owner, leaseUntil, now) == jobs
  {
  }

  lemma NothingToTake(t: Table, model: string, questionsHash: string, exclude: set<Id>, now: int, owner: string,
                      leaseUntil: int)
    ensures Compatible(t, model, questionsHash, now) <= t.jobs.Keys
    ensures FirstOf(t.jobs, false, Compatible(t, model, questionsHash, now) - exclude, 0, [])
    ensures t.(jobs := Taken(t.jobs, Members([]), owner, leaseUntil, now)) == t
  {
    TakeNone(t.jobs, owner, leaseUntil, now);
    assert Members([]) == {};
  }

  lemma CompatibleAreClaimable(t: Table, model: string, questionsHash: string, exclude: set<Id>, limit: nat, now: int,
                               chosen: seq<Id>)
    requires FirstOf(t.jobs, false, Compatible(t, model, questionsHash, now) - exclude, limit, chosen)
    ensures InOrder(t.jobs, false, chosen) && Members(chosen) <= ClaimableIds(t, now)
  {
  }
}
