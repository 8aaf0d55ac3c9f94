/** The hybrid store: SQLite decides, a ready index in memory only proposes. The
    index may lag behind the rows; claims are safe whatever it lists. */
module HybridBackends {
  import opened Types
  import opened Picker
  import opened ReadyIndexes
  import opened ClaimRuns
  import opened JobTables
  import opened SqlTables
  import opened IndexAgreement
  import opened SqliteBackends
  import opened JobOrder
  import opened NativeBatches
  import opened Outcomes
  import opened RowChoices
  import Recovery

  /** The rows the index is rebuilt from. */
  function ReadyIds(t: Table): set<Id> {
    set id | id in t.jobs && t.jobs[id].state == Queued && BatchActive(t.batches, t.jobs[id].batchId)
  }

  function ReadyView(t: Table): View {
    map id | id in ReadyIds(t) :: CandidateOf(t.jobs[id])
  }

  /** Rows keep their identity, so births still match. */
  lemma BirthsStay(births: map<Id, Birth>, t: Table, u: Table, issued: set<Id>)
    requires BirthsOk(births, t.jobs, issued) && SameJobs(t, u)
    ensures BirthsOk(births, u.jobs, issued)
  {
  }

  lemma SweepKeepsJobs(t: Table, now: int)
    ensures SameJobs(t, Recovery.SweepTable(t, now))
  {
    hide Recovery.Swept, SameIdentity;
    forall id | id in t.jobs ensures SameIdentity(t.jobs[id], Recovery.Swept(t.jobs[id], now)) {
      Recovery.SweptKeepsIdentity(t.jobs[id], now);
    }
  }

  lemma ClaimKeepsJobs(t: Table, id: Id, owner: string, leaseUntil: int, now: int)
    ensures SameJobs(t, Claim(t, id, owner, leaseUntil, now).0)
  {
  }

  lemma CancelKeepsJobs(t: Table, id: Id, now: int)
    requires TableOk(t)
    ensures SameJobs(t, CancelSql(t, id, now).0)
    ensures var r := CancelSql(t, id, now).1; r.Ok? ==> r.value.state != Queued
  {
    hide TableOk, SameIdentity, CancelRow;
    if id in t.jobs {
      CancelRowKeepsIdentity(t.jobs[id], now);
    }
    forall other | other in t.jobs ensures SameIdentity(t.jobs[other], t.jobs[other]) { SameAsItself(t.jobs[other]); }
  }

  lemma CancelRowKeepsIdentity(job: Job, now: int)
    ensures SameIdentity(job, CancelRow(job, now)) && CancelRow(job, now).state != Queued
  {
  }

  lemma SameAsItself(job: Job)
    ensures SameIdentity(job, job)
  {
  }

  lemma RequeueKeepsJobs(t: Table, id: Id, now: int)
    requires TableOk(t)
    ensures SameJobs(t, JobTables.Requeue(t, id, now).0)
  {
  }

  lemma TakenKeepsJobs(t: Table, ids: set<Id>, owner: string, leaseUntil: int, now: int)
    ensures SameJobs(t, t.(jobs := Taken(t.jobs, ids, owner, leaseUntil, now)))
  {
  }

  lemma EnqueueKeepsBirths(births: map<Id, Birth>, t: Table, limits: Limits, issued: set<Id>, job: Job)
    requires TableOk(t) && BirthsOk(births, t.jobs, issued) && job.jobId !in issued
    ensures BirthsOk(births, JobTables.Enqueue(t, limits, job).0.jobs, issued + {job.jobId})
  {
  }

  lemma StoredJob(t: Table, limits: Limits, job: Job)
    requires TableOk(t)
    ensures var (u, r) := JobTables.Enqueue(t, limits, job); r.Ok? ==>
      r.value.job.jobId in u.jobs && u.jobs[r.value.job.jobId] == r.value.job
  {
  }

  lemma ActivateKeepsBirths(births: map<Id, Birth>, t: Table, issued: set<Id>, batchId: Id, key: Option<string>,
                            hash: Option<string>, now: int)
    requires TableOk(t) && BirthsOk(births, t.jobs, issued)
    ensures BirthsOk(births, ActivateSql(t, batchId, key, hash, now).0.jobs, issued)
  {
    hide TableOk, AbortRows, ActivatedRows, BlankTaken;
    if batchId in t.batches {
      AbortRowsKeepBirths(births, t, issued, batchId);
      ActivatedRowsKeepBirths(births, t, issued, batchId, key, hash, now);
    }
  }

  lemma AbortRowsKeepBirths(births: map<Id, Birth>, t: Table, issued: set<Id>, batchId: Id)
    requires BirthsOk(births, t.jobs, issued) && batchId in t.batches
    ensures BirthsOk(births, AbortRows(t, batchId).jobs, issued)
  {
  }

  lemma ActivatedRowsKeepBirths(births: map<Id, Birth>, t: Table, issued: set<Id>, batchId: Id, key: Option<string>,
                                hash: Option<string>, now: int)
    requires BirthsOk(births, t.jobs, issued) && batchId in t.batches
    ensures BirthsOk(births, ActivatedRows(t, batchId, key, hash, now).jobs, issued)
  {
  }

  class HybridBackend {
    const db: SqliteBackend
    const index: ReadyIndex

    ghost predicate Valid()
      reads this, db, index
    {
      db.Valid() && index.Valid() && BirthsOk(index.births, db.jobs, db.issued)
    }

    constructor (db: SqliteBackend)
      requires db.Valid()
      ensures this.db == db && fresh(index) && Valid() && index.meta == ReadyView(db.Rows())
    {
      this.db := db;
      index := new ReadyIndex();
      new;
      Reconcile();
    }

    /** Rebuilds the index from the rows, in whatever order they are read. */
    method Reconcile()
      requires db.Valid() && index.Valid()
      modifies index
      ensures Valid() && index.meta == ReadyView(db.Rows())
    {
      var rows := ReadyCandidates();
      index.Rebuild(rows);
      RebuiltView(db.Rows(), rows);
      RebuiltBirths(db.Rows(), index.births, index.meta, db.issued);
    }

    method ReadyCandidates() returns (rows: seq<Candidate>)
      requires db.Valid()
      ensures OneEntryEach(rows) && forall x :: x in rows <==>
        x.jobId in ReadyIds(db.Rows()) && x == CandidateOf(db.jobs[x.jobId])
    {
      rows := [];
      var todo := ReadyIds(db.Rows());
      ghost var all := todo;
      RowsNamed(db.Rows());
      hide TableOk, BlankUnique, ReadyIds;
      while todo != {}
        invariant todo <= all && OneEntryEach(rows)
        invariant forall x :: x in rows <==> x.jobId in all - todo && x == CandidateOf(db.jobs[x.jobId])
        decreases |todo|
      {
        var id :| id in todo;
        rows := rows + [CandidateOf(db.jobs[id])];
        todo := todo - {id};
      }
    }

    method MaybeReconcile(due: bool)
      requires Valid()
      modifies index
      ensures Valid() && index.meta == if due then ReadyView(db.Rows()) else old(index.meta)
    {
      if due {
        Reconcile();
      }
    }

    /** Proposes from the index and claims that exact row; a row that cannot be
        claimed only loses its listing. due says whether the reconcile interval
        has passed. */
    method ClaimNext(due: bool, model: string, picker: PickerState, now: int, owner: string, leaseUntil: int,
                     settings: SchedulerSettings)
      returns (claimed: Option<Job>, next: PickerState, ghost view: View, ghost rejects: seq<Id>)
      requires Valid()
      modifies db`jobs, index
      ensures Valid() && view == if due then ReadyView(old(db.Rows())) else old(index.meta)
      ensures ClaimRun(view, ClaimableIds(old(db.Rows()), now), model, picker, Epoch(now), settings, rejects,
                       IdOf(claimed), next)
      ensures claimed.Some? ==> Claim(old(db.Rows()), claimed.value.jobId, owner, leaseUntil, now) == (db.Rows(), true)
      ensures claimed.Some? ==> claimed.value.jobId in db.jobs && db.jobs[claimed.value.jobId] == claimed.value
      ensures claimed.None? ==> db.Rows() == old(db.Rows()) && next == picker
      ensures claimed.Some? ==> ClaimedOnly(old(db.Rows()), db.Rows(), claimed.value.jobId, owner, leaseUntil, now)
      ensures due ==> ListsClaimable(view, old(db.Rows()), now)
      ensures claimed.Some? && ListsClaimable(view, old(db.Rows()), now) ==>
        FirstInQueue(old(db.Rows()), claimed.value.jobId, now)
      ensures claimed.Some? && ListsClaimable(view, old(db.Rows()), now) ==>
        ScoresMostOfHeads(old(db.Rows()), claimed.value.jobId, SkipsOf(picker, model), now, settings)
    {
      ReadyRowsAreListed(now);
      MaybeReconcile(due);
      view := index.meta;
      hide ListsClaimable, FirstInQueue, ScoresMostOfHeads, ClaimedOnly;
      ghost var ok := ClaimableIds(db.Rows(), now);
      rejects := [];
      hide Valid, ClaimRun, ClaimableIds, Claim, Proposes;
      for tries := 0 to TRIES
        invariant Valid() && db.Rows() == old(db.Rows()) && |rejects| == tries
        invariant index.meta == view - Members(rejects)
        invariant RejectsSoFar(view, ok, model, picker, Epoch(now), settings, rejects)
      {
        var choice, proposed, outcome := TryOnce(model, picker, now, owner, leaseUntil, settings);
        if choice.None? {
          RunEndsEmpty(view, ok, model, picker, Epoch(now), settings, rejects);
          return None, picker, view, rejects;
        }
        if outcome.Some? {
          RunEndsClaimed(view, ok, model, picker, Epoch(now), settings, rejects, choice.value, proposed);
          ClaimInFields(old(db.Rows()), choice.value.jobId, owner, leaseUntil, now);
          if ListsClaimable(view, old(db.Rows()), now) {
            ClaimTakesTheFirst(old(db.Rows()), view, model, picker, now, settings, rejects, choice.value.jobId,
                               proposed);
          }
          return outcome, proposed, view, rejects;
        }
        RejectOneMore(view, ok, model, picker, Epoch(now), settings, rejects, choice.value, proposed);
        rejects := rejects + [choice.value.jobId];
      }
      RunGivesUp(view, ok, model, picker, Epoch(now), settings, rejects);
      return None, picker, view, rejects;
    }

    method TryOnce(model: string, picker: PickerState, now: int, owner: string, leaseUntil: int,
                   settings: SchedulerSettings)
      returns (choice: Option<Candidate>, proposed: PickerState, outcome: Option<Job>)
      requires Valid()
      modifies db`jobs, index
      ensures Valid() && Proposes(old(index.meta), model, picker, Epoch(now), settings, choice, proposed)
      ensures choice.None? ==>
        outcome.None? && proposed == picker && db.Rows() == old(db.Rows()) && index.meta == old(index.meta)
      ensures choice.Some? ==> index.meta == old(index.meta) - {choice.value.jobId}
      ensures choice.Some? ==> (outcome.Some? <==> choice.value.jobId in ClaimableIds(old(db.Rows()), now))
      ensures outcome.None? ==> db.Rows() == old(db.Rows())
      ensures outcome.Some? ==> outcome.value.jobId == choice.value.jobId
      ensures outcome.Some? ==> Claim(old(db.Rows()), outcome.value.jobId, owner, leaseUntil, now) == (db.Rows(), true)
      ensures outcome.Some? ==> outcome.value.jobId in db.jobs && db.jobs[outcome.value.jobId] == outcome.value
    {
      hide TableOk, BlankUnique, GoodHeaps, GoodLive, BirthsOk, ClaimableIds, Claim, Chosen, IsHeads;
      ghost var hs;
      choice, proposed, hs := index.Propose(model, picker, Epoch(now), settings);
      assert Proposes(old(index.meta), model, picker, Epoch(now), settings, choice, proposed);
      NoChoiceNoChange(picker, model, hs, Epoch(now), settings);
      outcome := None;
      if choice.Some? {
        ClaimKeepsJobs(db.Rows(), choice.value.jobId, owner, leaseUntil, now);
        BirthsStay(index.births, db.Rows(), Claim(db.Rows(), choice.value.jobId, owner, leaseUntil, now).0, db.issued);
        outcome := db.ClaimById(choice.value.jobId, owner, leaseUntil, now);
        if outcome.None? {
          RowsStay(old(db.Rows()), db.Rows(), choice.value.jobId, owner, leaseUntil, now);
        }
        index.Remove(choice.value.jobId);
      }
    }

    // Changes to the rows, and what the index learns of them

    method List(job: Job)
      requires Valid() && job.jobId in db.jobs && SameIdentity(db.jobs[job.jobId], job)
      modifies index
      ensures Valid() && index.meta == old(index.meta)[job.jobId := CandidateOf(job)]
    {
      hide TableOk, BlankUnique, GoodHeaps, GoodLive;
      index.Add(CandidateOf(job));
    }

    method Unlist(id: Id)
      requires Valid()
      modifies index
      ensures Valid() && index.meta == old(index.meta) - {id}
    {
      hide TableOk, BlankUnique, GoodHeaps, GoodLive, BirthsOk;
      index.Remove(id);
    }

    /** Whatever a pass finished leaves the index; whatever it put back joins it,
        unless a later sweep of the same pass took it out again. */
    lemma ReadyRowsAreListed(now: int)
      requires Valid()
      ensures ListsClaimable(ReadyView(db.Rows()), db.Rows(), now)
    {
    }

    method Maintenance(now: int) returns (report: Recovery.Report)
      requires Valid()
      modifies db`jobs, index
      ensures Valid() && db.Rows() == Recovery.SweepTable(old(db.Rows()), now)
      ensures report == Recovery.SweptReport(old(db.jobs), now)
      ensures index.meta == Refreshed(old(index.meta), ReportedIds(report), db.jobs)
      ensures EachAfterSweep(old(db.jobs), db.jobs, now) && EachToldBySweep(old(db.jobs), db.jobs, now, report)
    {
      hide EachAfterSweep, EachToldBySweep;
      SweepKeepsJobs(db.Rows(), now);
      BirthsStay(index.births, db.Rows(), Recovery.SweepTable(db.Rows(), now), db.issued);
      hide TableOk, BlankUnique, GoodHeaps, GoodLive, BirthsOk, Recovery.SweepTable, Recovery.SweptReport, SameJobs;
      ghost var before := index.meta;
      report := db.Maintenance(now);
      RefreshReported(report);
    }

    method RefreshReported(report: Recovery.Report)
      requires Valid()
      modifies index
      ensures Valid() && index.meta == Refreshed(old(index.meta), ReportedIds(report), db.jobs)
    {
      hide Valid, Refreshed;
      var todo := ReportedIds(report);
      ghost var before, all := index.meta, todo;
      RefreshEnds(before, all, db.jobs);
      while todo != {}
        invariant Valid() && todo <= all && index.meta == Refreshed(before, all - todo, db.jobs)
        decreases |todo|
      {
        var id :| id in todo;
        RefreshStep(before, all, todo, id, db.jobs);
        RefreshOne(id);
        todo := todo - {id};
      }
    }

    method RefreshOne(id: Id)
      requires Valid()
      modifies index
      ensures Valid() && index.meta == Refreshed(old(index.meta), {id}, db.jobs)
    {
      hide Valid, CandidateOf;
      RowNamed(id);
      if id in db.jobs && db.jobs[id].state == Queued {
        List(db.jobs[id]);
      } else {
        Unlist(id);
      }
    }

    lemma RowNamed(id: Id)
      requires Valid()
      ensures id in db.jobs ==> db.jobs[id].jobId == id
    {
    }

    method Enqueue(job: Job) returns (r: Result<Receipt>)
      requires Valid() && NewJob(job) && job.batchId.None? && job.jobId !in db.issued
      modifies db`jobs, db`jobKeys, db`issued, index
      ensures Valid() && (db.Rows(), r) == JobTables.Enqueue(old(db.Rows()), db.limits, job)
      ensures index.meta == if r.Ok? && r.value.job.state == Queued
                            then old(index.meta)[r.value.job.jobId := CandidateOf(r.value.job)] else old(index.meta)
    {
      EnqueueKeepsBirths(index.births, db.Rows(), db.limits, db.issued, job);
      hide TableOk, BlankUnique, GoodHeaps, GoodLive, JobTables.Enqueue, BirthsOk;
      r := db.Enqueue(job);
      if r.Ok? && r.value.job.state == Queued {
        StoredJob(old(db.Rows()), db.limits, job);
        List(r.value.job);
      }
    }

    /** Activation rebuilds the whole index. */
    method ActivateBatch(batchId: Id, key: Option<string>, hash: Option<string>, now: int)
      returns (r: Result<BatchReceipt>)
      requires Valid()
      modifies db`jobs, db`batches, db`jobKeys, db`batchKeys, index
      ensures Valid() && (db.Rows(), r) == ActivateSql(old(db.Rows()), batchId, key, hash, now)
      ensures r.Ok? ==> index.meta == ReadyView(db.Rows())
    {
      ActivateKeepsBirths(index.births, db.Rows(), db.issued, batchId, key, hash, now);
      hide TableOk, BlankUnique, GoodHeaps, GoodLive, ActivateSql, BirthsOk, ReadyView;
      r := db.ActivateBatch(batchId, key, hash, now);
      if r.Ok? {
        Reconcile();
      }
    }

    method Cancel(id: Id, now: int) returns (r: Result<Job>)
      requires Valid()
      modifies db`jobs, index
      ensures Valid() && (db.Rows(), r) == CancelSql(old(db.Rows()), id, now)
      ensures index.meta == if r.Ok? then old(index.meta) - {id} else old(index.meta)
    {
      CancelKeepsJobs(db.Rows(), id, now);
      BirthsStay(index.births, db.Rows(), CancelSql(db.Rows(), id, now).0, db.issued);
      hide TableOk, BlankUnique, GoodHeaps, GoodLive, BirthsOk, CancelSql;
      r := db.Cancel(id, now);
      if r.Ok? && r.value.state != Queued {
        Unlist(id);
      }
    }

    method Requeue(id: Id, now: int) returns (r: Result<Job>)
      requires Valid()
      modifies db`jobs, index
      ensures Valid() && (db.Rows(), r) == JobTables.Requeue(old(db.Rows()), id, now)
      ensures index.meta == if r.Ok? then old(index.meta)[id := CandidateOf(r.value)] else old(index.meta)
    {
      RequeueKeepsJobs(db.Rows(), id, now);
      BirthsStay(index.births, db.Rows(), JobTables.Requeue(db.Rows(), id, now).0, db.issued);
      RowNamed(id);
      hide TableOk, BlankUnique, GoodHeaps, GoodLive, BirthsOk;
      r := db.Requeue(id, now);
      if r.Ok? {
        List(r.value);
      }
    }

    method ClaimCompatible(model: string, questionsHash: string, exclude: set<Id>, limit: int, now: int, owner: string,
                           leaseUntil: int)
      returns (claimed: seq<Id>)
      requires Valid()
      modifies db`jobs, index
      ensures Valid()
      ensures Companions(old(db.Rows()), model, questionsHash, exclude, limit, now, claimed)
      ensures db.Rows() == old(db.Rows()).(jobs := Taken(old(db.jobs), Members(claimed), owner, leaseUntil, now))
      ensures index.meta == old(index.meta) - Members(claimed)
      ensures OldestJoin(old(db.Rows()), model, questionsHash, exclude, limit, now, claimed)
    {
      hide OldestJoin;
      hide TableOk, BlankUnique, GoodHeaps, GoodLive, BirthsOk, FirstOf, Compatible, Taken;
      claimed := db.ClaimCompatible(model, questionsHash, exclude, limit, now, owner, leaseUntil);
      TakenKeepsJobs(old(db.Rows()), Members(claimed), owner, leaseUntil, now);
      BirthsStay(index.births, old(db.Rows()), db.Rows(), db.issued);
      UnlistEach(claimed);
    }

    method UnlistEach(ids: seq<Id>)
      requires Valid()
      modifies index
      ensures Valid() && index.meta == old(index.meta) - Members(ids)
    {
      hide Valid;
      assert Members(ids[..0]) == {} && ids[..|ids|] == ids;
      for i := 0 to |ids|
        invariant Valid() && index.meta == old(index.meta) - Members(ids[..i])
      {
        MembersGrow(ids, i);
        Unlist(ids[i]);
      }
    }
  }

  /** The ids a pass reports as finished or put back. */
  function ReportedIds(report: Recovery.Report): set<Id> {
    set p | p in report :: p.1
  }

  /** The listings once those of ids have been brought in line with the rows. */
  function Refreshed(view: View, ids: set<Id>, jobs: map<Id, Job>): View {
    map id | id in view.Keys + ids && (id in ids ==> id in jobs && jobs[id].state == Queued) ::
      if id in ids then CandidateOf(jobs[id]) else view[id]
  }

  lemma RefreshStep(view: View, ids: set<Id>, todo: set<Id>, id: Id, jobs: map<Id, Job>)
    requires id in todo && todo <= ids
    ensures Refreshed(Refreshed(view, ids - todo, jobs), {id}, jobs) == Refreshed(view, ids - (todo - {id}), jobs)
  {
  }

  lemma RefreshEnds(view: View, ids: set<Id>, jobs: map<Id, Job>)
    ensures Refreshed(view, ids - ids, jobs) == view && ids - {} == ids
  {
  }

  lemma RowsNamed(t: Table)
    requires TableOk(t)
    ensures forall id :: id in ReadyIds(t) ==> id in t.jobs && t.jobs[id].jobId == id
  {
  }

  lemma RebuiltView(t: Table, rows: seq<Candidate>)
    requires OneEntryEach(rows) && JobsOk(t)
    requires forall x :: x in rows <==> x.jobId in ReadyIds(t) && x == CandidateOf(t.jobs[x.jobId])
    ensures ViewOf(rows) == ReadyView(t)
  {
    var view, ready := ViewOf(rows), ReadyView(t);
    forall id ensures id in view <==> id in ready {
      if id in view {
        ViewOfIds(rows, id);
      }
      if id in ready {
        ViewOfMembers(rows, ready[id]);
      }
    }
    forall id | id in view ensures view[id] == ready[id] {
      ViewOfIds(rows, id);
    }
  }

  lemma RebuiltBirths(t: Table, births: map<Id, Birth>, view: View, issued: set<Id>)
    requires births.Keys == view.Keys && view == ReadyView(t) && t.jobs.Keys <= issued
    requires forall id :: id in births ==> births[id] == BirthOf(view[id])
    ensures BirthsOk(births, t.jobs, issued)
  {
  }
}
