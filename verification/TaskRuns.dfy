/** What a task does with its jobs: before inference each is settled, handed on or
    marked running; after inference each that is still held is settled. */
module TaskRuns {
  import opened Types
  import opened JobTables
  import opened JobOrder
  import opened LeaseRuns
  import opened ModelCatalogs
  import opened Registries
  import opened ServiceRuns
  import opened MemoryBackends
  import opened Outcomes

  /** What the world outside answers about one job: health probes, and how a
      failure is classified. */
  datatype Answers = Answers(own: Health, probe: nat -> bool, again: Health, after: Health,
                             retryable: bool, error: string, notBefore: int, retryProbe: nat -> bool,
                             provenance: string)

  ghost predicate RunsOn(c: Catalog, note: Job, a: Answers, model: string) {
    ExecutionTarget(c, note.requestedModel, note.resolvedModel, a.own, a.probe, a.again, a.after) == Run(model)
  }

  ghost function FailureOp(c: Catalog, note: Job, a: Answers, now: int): LeaseOp {
    SettlingOp(c, note, a.retryable, a.error, a.notBefore, RetryFallback(c, note, a), a.retryProbe, now)
  }

  ghost function RetryFallback(c: Catalog, note: Job, a: Answers): Option<string> {
    if NamesGroup(c, note.requestedModel) && Resolved(c, note.requestedModel, a.retryProbe).Ok?
       && Resolved(c, note.requestedModel, a.retryProbe).value.fallbackUsed
    then Some(a.provenance) else note.fallback
  }

  method PickRetry(c: Catalog, note: Job, a: Answers) returns (resolved: string, fallback: Option<string>)
    requires CatalogOk(c)
    ensures resolved == RetryTarget(c, note.requestedModel, note.resolvedModel, a.retryProbe)
    ensures fallback == RetryFallback(c, note, a)
  {
    resolved, fallback := note.resolvedModel, note.fallback;
    var grouped := IsGroup(c, note.requestedModel);
    if grouped {
      var resolution := Resolve(c, note.requestedModel, a.retryProbe);
      if resolution.Ok? {
        resolved := resolution.value.resolved;
        if resolution.value.fallbackUsed {
          fallback := Some(a.provenance);
        }
      }
    }
  }

  /** The model a job retried waits for: the best member of the group it was named for,
      where one serves, and otherwise the model it is on. */
  ghost predicate RetriesOn(c: Catalog, note: Job, probe: nat -> bool, model: string) {
    if NamesGroup(c, note.requestedModel) && !NobodyServes(c, note.requestedModel, probe)
    then BestMember(c, note.requestedModel, probe, model)
    else model == note.resolvedModel
  }

  /** What a failed attempt leaves of a row: failed for good when the error is not worth
      retrying, a dead letter when it is but attempts or time are used up, and otherwise
      waiting to be tried again. */
  ghost predicate FailureLeaves(c: Catalog, a: Job, b: Job, note: Job, x: Answers, now: int) {
    if !x.retryable then FailsWith(a, b, Failed, x.error, now)
    else if note.maxAttempts <= note.attemptCount || (note.deadlineAt.Some? && note.deadlineAt.value <= now)
    then FailsWith(a, b, DeadLetter, x.error, now)
    else
      && b.state == RetryWait && b.error == Some(x.error) && b.notBefore == Some(x.notBefore)
      && b.leaseOwner.None? && b.leaseExpiresAt.None? && b.attemptCount == a.attemptCount && SameIdentity(a, b)
      && RetriesOn(c, note, x.retryProbe, b.resolvedModel)
      && b.fallback == (if FallsBack(c, note, x.retryProbe) then Some(x.provenance) else note.fallback)
  }

  /** A member of the group other than the primary is the one to serve. */
  ghost predicate FallsBack(c: Catalog, note: Job, probe: nat -> bool) {
    NamesGroup(c, note.requestedModel) && exists i: nat :: i > 0 && Serves(c, note.requestedModel, probe, i)
  }

  lemma FallbackInFields(c: Catalog, note: Job, x: Answers)
    requires CatalogOk(c)
    ensures RetryFallback(c, note, x) == if FallsBack(c, note, x.retryProbe) then Some(x.provenance) else note.fallback
  {
    if NamesGroup(c, note.requestedModel) {
      GroupResolves(c, note.requestedModel, x.retryProbe);
      hide Serves;
    }
  }

  lemma FailInFields(a: Job, error: string, deadLetter: bool, now: int)
    ensures FailsWith(a, Effect(a, LeaseOp.Fail(error, deadLetter), now), if deadLetter then DeadLetter
                      else Failed, error, now)
  {
  }

  lemma RetryInFields(a: Job, error: string, notBefore: int, resolved: string, fallback: Option<string>, now: int)
    ensures var b := Effect(a, LeaseOp.Retry(error, notBefore, resolved, fallback), now);
      && b.state == RetryWait && b.error == Some(error) && b.notBefore == Some(notBefore) && b.resolvedModel == resolved
      && b.fallback == fallback && b.leaseOwner.None? && b.leaseExpiresAt.None? && b.attemptCount == a.attemptCount
      && SameIdentity(a, b)
  {
  }

  lemma FailureInFields(c: Catalog, a: Job, note: Job, x: Answers, now: int)
    requires CatalogOk(c)
    ensures FailureLeaves(c, a, Effect(a, FailureOp(c, note, x, now), now), note, x, now)
  {
    FallbackInFields(c, note, x);
    RetryIsBest(c, note.requestedModel, note.resolvedModel, x.retryProbe);
    FailInFields(a, x.error, x.retryable, now);
    RetryInFields(a, x.error, x.notBefore, RetryTarget(c, note.requestedModel, note.resolvedModel, x.retryProbe),
                  RetryFallback(c, note, x), now);
    hide CatalogOk, RetryFallback, FallsBack, RetryTarget, Effect, FailsWith, SameIdentity, BestMember, NobodyServes;
  }

  /** Only this job's row may differ. */
  ghost predicate OnlyRow(before: map<Id, Job>, after: map<Id, Job>, id: Id) {
    before.Keys == after.Keys && forall x :: x in before && x != id ==> after[x] == before[x]
  }

  method SettleFailure(c: Catalog, backend: MemoryBackend, note: Job, owner: string, a: Answers, now: int)
    returns (finished: bool, ghost ok: bool)
    requires CatalogOk(c) && backend.Valid()
    modifies backend`jobs, backend.index
    ensures backend.Valid()
    ensures (backend.Rows(), ok) == ApplyLease(old(backend.Rows()), note.jobId, owner, FailureOp(c, note, a, now), now)
    ensures finished <==> FailureOp(c, note, a, now).Fail?
  {
    hide CatalogOk, MemoryBackend.Valid, ApplyLease, RetryTarget, RetryFallback;
    if !a.retryable || note.attemptCount >= note.maxAttempts || Passed(note.deadlineAt, now) {
      ok := backend.Fail(note.jobId, owner, a.error, a.retryable, now);
      return true, ok;
    }
    var resolved, fallback := PickRetry(c, note, a);
    ok := backend.Retry(note.jobId, owner, a.error, a.notBefore, resolved, fallback, now);
    return false, ok;
  }

  /** The owner holds the job, if at all, in the given state. */
  predicate HeldAs(jobs: map<Id, Job>, id: Id, owner: string, state: JobState) {
    id in jobs && jobs[id].leaseOwner == Some(owner) ==> jobs[id].state == state
  }

  lemma SettledIsLost(t: Table, id: Id, owner: string, op: LeaseOp, now: int)
    requires TableOk(t) && Settles(op) && HeldAs(t.jobs, id, owner, Running)
    ensures Lost(ApplyLease(t, id, owner, op, now).0, id, owner)
    ensures OnlyRow(t.jobs, ApplyLease(t, id, owner, op, now).0.jobs, id)
  {
  }

  lemma CancelledIsLost(t: Table, id: Id, owner: string, now: int)
    requires TableOk(t)
    ensures Lost(ApplyLease(t, id, owner, LeaseOp.FinishCancel, now).0, id, owner)
    ensures OnlyRow(t.jobs, ApplyLease(t, id, owner, LeaseOp.FinishCancel, now).0.jobs, id)
  {
  }

  lemma StartedOrLost(t: Table, id: Id, owner: string, leaseUntil: int, now: int)
    requires TableOk(t) && HeldAs(t.jobs, id, owner, Leased)
    ensures var (u, ok) := ApplyLease(t, id, owner, LeaseOp.MarkRunning(leaseUntil), now);
      && OnlyRow(t.jobs, u.jobs, id)
      && (ok ==> id in u.jobs && OwnsRunning(u.jobs[id], owner)) && (!ok ==> u == t && Lost(t, id, owner))
  {
  }

  lemma RowsGood(backend: MemoryBackend)
    requires backend.Valid()
    ensures TableOk(backend.Rows()) && forall id :: id in backend.jobs ==> backend.jobs[id].jobId == id
  {
  }

  /** A job handed to inference: running under the owner, on the task's model. */
  ghost predicate Handed(c: Catalog, jobs: map<Id, Job>, note: Job, owner: string, model: string, a: Answers) {
    note.jobId in jobs && jobs[note.jobId] == note && OwnsRunning(note, owner) && RunsOn(c, note, a, model)
  }

  /** The row of a job that goes ahead: running under the lease, otherwise as it was. */
  predicate GoesAhead(a: Job, b: Job, owner: string, leaseUntil: int) {
    && b.state == Running && b.leaseOwner == Some(owner) && b.leaseExpiresAt == Some(leaseUntil)
    && b.cancelRequested == a.cancelRequested && b.attemptCount == a.attemptCount
    && b.resolvedModel == a.resolvedModel && b.fallback == a.fallback && SameIdentity(a, b)
  }

  /** The row of a job that another model is to run: queued for it, its attempt given
      back. */
  predicate GoesElsewhere(a: Job, b: Job, model: string) {
    && b.state == Queued && b.leaseOwner.None? && b.leaseExpiresAt.None?
    && b.attemptCount == (if a.attemptCount >= 1 then a.attemptCount - 1 else 0)
    && (model != "" ==> b.resolvedModel == model) && SameIdentity(a, b)
  }

  /** What preparation makes of a leased row, and whether the job is handed over: to be
      cancelled, late, refused, for another model, or ready to run here. */
  ghost predicate PreparedAs(c: Catalog, a: Job, b: Job, handed: bool, owner: string, model: string, leaseUntil: int,
                             x: Answers, now: int) {
    if a.cancelRequested then !handed && EndsAs(a, b, Cancelled, now)
    else if a.deadlineAt.Some? && a.deadlineAt.value <= now then !handed && FailsWith(a, b, Failed, "deadline", now)
    else
      match ExecutionTarget(c, a.requestedModel, a.resolvedModel, x.own, x.probe, x.again, x.after)
      case Refuse => !handed && FailureLeaves(c, a, b, a, x, now)
      case Run(target) =>
        if target == model then handed && GoesAhead(a, b, owner, leaseUntil) else !handed && GoesElsewhere(a, b, target)
  }

  lemma StartedInFields(a: Job, owner: string, leaseUntil: int, now: int)
    requires a.state == Leased && a.leaseOwner == Some(owner)
    ensures GoesAhead(a, Started(a, leaseUntil, now), owner, leaseUntil)
  {
  }

  /** The same of a row already running: refused, sent elsewhere, or left to run. */
  ghost predicate Targeted(c: Catalog, a: Job, b: Job, handed: bool, model: string, x: Answers, now: int) {
    match ExecutionTarget(c, a.requestedModel, a.resolvedModel, x.own, x.probe, x.again, x.after)
    case Refuse => !handed && FailureLeaves(c, a, b, a, x, now)
    case Run(target) => if target == model then handed && b == a else !handed && GoesElsewhere(a, b, target)
  }

  lemma TargetedIsPrepared(c: Catalog, a: Job, started: Job, b: Job, handed: bool, owner: string, model: string,
                           leaseUntil: int, x: Answers, now: int)
    requires GoesAhead(a, started, owner, leaseUntil) && Targeted(c, started, b, handed, model, x, now)
    requires !a.cancelRequested && !Passed(a.deadlineAt, now)
    ensures PreparedAs(c, a, b, handed, owner, model, leaseUntil, x, now)
  {
    hide ExecutionTarget, RetriesOn, FallsBack;
    SameRetries(c, started, a, x.retryProbe, b.resolvedModel);
  }

  lemma SameRetries(c: Catalog, a: Job, b: Job, probe: nat -> bool, model: string)
    requires a.requestedModel == b.requestedModel && a.resolvedModel == b.resolvedModel
    ensures RetriesOn(c, a, probe, model) <==> RetriesOn(c, b, probe, model)
    ensures FallsBack(c, a, probe) <==> FallsBack(c, b, probe)
  {
  }

  /** The owner holds the row at the start, or has no part in it. */
  ghost predicate Prepared(c: Catalog, before: map<Id, Job>, after: map<Id, Job>, id: Id, handed: bool, owner: string,
                           model: string, leaseUntil: int, x: Answers, now: int) {
    if id in before && before[id].leaseOwner == Some(owner)
    then id in after && PreparedAs(c, before[id], after[id], handed, owner, model, leaseUntil, x, now)
    else !handed && (id in before ==> id in after && after[id] == before[id])
  }

  lemma FlaggedIsPrepared(c: Catalog, t: Table, id: Id, owner: string, model: string, leaseUntil: int, x: Answers,
                          now: int)
    requires TableOk(t) && (id in t.jobs ==> t.jobs[id].cancelRequested)
    ensures Prepared(c, t.jobs, ApplyLease(t, id, owner, LeaseOp.FinishCancel, now).0.jobs, id, false, owner, model,
                     leaseUntil, x, now)
  {
    hide ExecutionTarget, FailureLeaves;
  }

  lemma NotHeldIsPrepared(c: Catalog, t: Table, id: Id, owner: string, model: string, leaseUntil: int, x: Answers,
                          now: int)
    requires Lost(t, id, owner)
    ensures Prepared(c, t.jobs, t.jobs, id, false, owner, model, leaseUntil, x, now)
  {
  }

  lemma LateIsPrepared(c: Catalog, t: Table, id: Id, owner: string, model: string, leaseUntil: int, x: Answers,
                       now: int)
    requires id in t.jobs && t.jobs[id].state == Leased && t.jobs[id].leaseOwner == Some(owner)
    requires !t.jobs[id].cancelRequested && Passed(t.jobs[id].deadlineAt, now)
    ensures var u := ApplyLease(t, id, owner, LeaseOp.MarkRunning(leaseUntil), now).0;
      Prepared(c, t.jobs, ApplyLease(u, id, owner, LeaseOp.Fail("deadline", false), now).0.jobs, id, false, owner,
               model,
               leaseUntil, x, now)
  {
    hide ExecutionTarget, FailureLeaves;
  }

  lemma StartedInTable(t: Table, id: Id, owner: string, leaseUntil: int, now: int)
    requires id in t.jobs && ApplyLease(t, id, owner, LeaseOp.MarkRunning(leaseUntil), now).1
    ensures t.jobs[id].state == Leased && t.jobs[id].leaseOwner == Some(owner)
    ensures var u := ApplyLease(t, id, owner, LeaseOp.MarkRunning(leaseUntil), now).0;
      id in u.jobs && GoesAhead(t.jobs[id], u.jobs[id], owner, leaseUntil)
  {
    StartedInFields(t.jobs[id], owner, leaseUntil, now);
  }

  /** Before inference: the job is returned only if it is now running under this
      owner and its target is the model whose slot the task holds. Otherwise the
      owner no longer holds it. */
  method PrepareJob(c: Catalog, backend: MemoryBackend, id: Id, owner: string, model: string, leaseUntil: int,
                    a: Answers, now: int)
    returns (runnable: Option<Job>)
    requires CatalogOk(c) && backend.Valid() && HeldAs(backend.jobs, id, owner, Leased)
    modifies backend`jobs, backend.index
    ensures backend.Valid() && OnlyRow(old(backend.jobs), backend.jobs, id)
    ensures runnable.None? ==> Lost(backend.Rows(), id, owner)
    ensures runnable.Some? ==> runnable.value.jobId == id && Handed(c, backend.jobs, runnable.value, owner, model, a)
    ensures Prepared(c, old(backend.jobs), backend.jobs, id, runnable.Some?, owner, model, leaseUntil, a, now)
  {
    hide CatalogOk, MemoryBackend.Valid, TableOk, ApplyLease, Prepared, PreparedAs, Targeted, Passed, GoesAhead;
    RowsGood(backend);
    ghost var t := backend.Rows();
    if id !in backend.jobs || backend.jobs[id].cancelRequested {
      CancelledIsLost(t, id, owner, now);
      FlaggedIsPrepared(c, t, id, owner, model, leaseUntil, a, now);
      var done := backend.FinishCancel(id, owner, now);
      return None;
    }
    StartedOrLost(t, id, owner, leaseUntil, now);
    var late := Passed(backend.jobs[id].deadlineAt, now);
    var started := backend.MarkRunning(id, owner, leaseUntil, now);
    if !started {
      NotHeldIsPrepared(c, t, id, owner, model, leaseUntil, a, now);
      return None;
    }
    RowsGood(backend);
    StartedInTable(t, id, owner, leaseUntil, now);
    ghost var marked := backend.Rows();
    if late {
      LateIsPrepared(c, t, id, owner, model, leaseUntil, a, now);
      SettledIsLost(marked, id, owner, LeaseOp.Fail("deadline", false), now);
      OneRowTwice(t.jobs, marked.jobs, ApplyLease(marked, id, owner, LeaseOp.Fail("deadline", false), now).0.jobs, id);
      var failed := backend.Fail(id, owner, "deadline", false, now);
      return None;
    }
    runnable := SettleOrRun(c, backend, id, owner, model, a, now);
    OneRowTwice(t.jobs, marked.jobs, backend.jobs, id);
    TargetedIsPrepared(c, t.jobs[id], marked.jobs[id], backend.jobs[id], runnable.Some?, owner, model, leaseUntil, a,
                       now);
    HeldIsPrepared(c, t.jobs, backend.jobs, id, runnable.Some?, owner, model, leaseUntil, a, now);
  }

  lemma HeldIsPrepared(c: Catalog, before: map<Id, Job>, after: map<Id, Job>, id: Id, handed: bool, owner: string,
                       model: string, leaseUntil: int, x: Answers, now: int)
    requires id in before && id in after && before[id].leaseOwner == Some(owner)
    requires PreparedAs(c, before[id], after[id], handed, owner, model, leaseUntil, x, now)
    ensures Prepared(c, before, after, id, handed, owner, model, leaseUntil, x, now)
  {
  }

  /** Runs the job here, releases it to the model it should run on, or settles it. */
  method SettleOrRun(c: Catalog, backend: MemoryBackend, id: Id, owner: string, model: string, a: Answers, now: int)
    returns (runnable: Option<Job>)
    requires CatalogOk(c) && backend.Valid() && id in backend.jobs && OwnsRunning(backend.jobs[id], owner)
    modifies backend`jobs, backend.index
    ensures backend.Valid() && OnlyRow(old(backend.jobs), backend.jobs, id)
    ensures runnable.None? ==> Lost(backend.Rows(), id, owner)
    ensures runnable.Some? ==> runnable.value.jobId == id && Handed(c, backend.jobs, runnable.value, owner, model, a)
    ensures id in backend.jobs && Targeted(c, old(backend.jobs[id]), backend.jobs[id], runnable.Some?, model, a, now)
  {
    hide CatalogOk, MemoryBackend.Valid, TableOk, ExecutionTarget, FailureOp, FailureLeaves, GoesElsewhere, Effect;
    RowsGood(backend);
    var row := backend.jobs[id];
    var target := PickExecutionTarget(c, row.requestedModel, row.resolvedModel, a.own, a.probe, a.again, a.after);
    if target.Refuse? {
      FailureSettles(c, row, a, now);
      FailureInFields(c, row, row, a, now);
      SettledIsLost(backend.Rows(), id, owner, FailureOp(c, row, a, now), now);
      ghost var ok;
      var finished;
      finished, ok := SettleFailure(c, backend, row, owner, a, now);
      return None;
    }
    if target.model != model {
      SettledIsLost(backend.Rows(), id, owner, LeaseOp.Release(Some(target.model), true), now);
      ReleasedElsewhere(row, target.model, now);
      var released := backend.ReleaseToQueue(id, owner, Some(target.model), true, now);
      return None;
    }
    return Some(row);
  }

  lemma ReleasedElsewhere(a: Job, model: string, now: int)
    ensures GoesElsewhere(a, Effect(a, LeaseOp.Release(Some(model), true), now), model)
  {
  }

  lemma FailureSettles(c: Catalog, note: Job, a: Answers, now: int)
    ensures Settles(FailureOp(c, note, a, now))
  {
  }

  lemma OneRowTwice(a: map<Id, Job>, b: map<Id, Job>, c: map<Id, Job>, id: Id)
    requires OnlyRow(a, b, id) && OnlyRow(b, c, id)
    ensures OnlyRow(a, c, id)
  {
  }

  // The whole group

  /** Rows outside ids are as they were. */
  ghost predicate OnlyRows(before: map<Id, Job>, after: map<Id, Job>, ids: seq<Id>) {
    before.Keys == after.Keys && forall x :: x in before && x !in ids ==> after[x] == before[x]
  }

  ghost predicate OncePerJob(group: seq<Job>) {
    forall j, k :: 0 <= j < k < |group| ==> group[j].jobId != group[k].jobId
  }

  ghost predicate InGroup(group: seq<Job>, id: Id) {
    exists k :: 0 <= k < |group| && group[k].jobId == id
  }

  ghost predicate Sorted(c: Catalog, jobs: map<Id, Job>, ids: seq<Id>, runnable: seq<Job>, owner: string, model: string,
                         answers: Id -> Answers) {
    && (forall k :: 0 <= k < |runnable| ==>
          runnable[k].jobId in ids && Handed(c, jobs, runnable[k], owner, model, answers(runnable[k].jobId)))
    && OncePerJob(runnable)
    && forall id :: id in ids ==>
         (exists k :: 0 <= k < |runnable| && runnable[k].jobId == id) || id !in jobs
           || jobs[id].leaseOwner != Some(owner)
  }

  ghost predicate EachPrepared(c: Catalog, before: map<Id, Job>, after: map<Id, Job>, ids: seq<Id>, group: seq<Job>,
                               owner: string, model: string, leaseUntil: int, answers: Id -> Answers, now: int) {
    forall id :: id in ids ==>
      Prepared(c, before, after, id, InGroup(group, id), owner, model, leaseUntil, answers(id), now)
  }

  lemma OneMorePrepared(c: Catalog, start: map<Id, Job>, before: map<Id, Job>, after: map<Id, Job>, ids: seq<Id>,
                        i: nat, group: seq<Job>, handed: Option<Job>, owner: string, model: string, leaseUntil: int,
                        answers: Id -> Answers, now: int)
    requires Distinct(ids) && i < |ids| && OnlyRow(before, after, ids[i]) && OnlyRows(start, before, ids[..i])
    requires EachPrepared(c, start, before, ids[..i], group, owner, model, leaseUntil, answers, now)
    requires Prepared(c, before, after, ids[i], handed.Some?, owner, model, leaseUntil, answers(ids[i]), now)
    requires handed.Some? ==> handed.value.jobId == ids[i]
    requires forall k :: 0 <= k < |group| ==> group[k].jobId in ids[..i]
    ensures var more := if handed.Some? then group + [handed.value] else group;
      EachPrepared(c, start, after, ids[..i + 1], more, owner, model, leaseUntil, answers, now)
  {
    hide PreparedAs;
    var more := if handed.Some? then group + [handed.value] else group;
    assert ids[..i + 1] == ids[..i] + [ids[i]] && ids[i] !in ids[..i];
    forall id | id in ids[..i + 1]
      ensures Prepared(c, start, after, id, InGroup(more, id), owner, model, leaseUntil, answers(id), now)
    {
      InGroupGrows(group, handed, id);
      if id == ids[i] {
        assert !InGroup(group, id);
      }
    }
  }

  lemma InGroupGrows(group: seq<Job>, handed: Option<Job>, id: Id)
    ensures InGroup(if handed.Some? then group + [handed.value] else group, id)
      <==> InGroup(group, id) || (handed.Some? && handed.value.jobId == id)
  {
    if handed.Some? {
      var more := group + [handed.value];
      if k :| 0 <= k < |group| && group[k].jobId == id {
        assert more[k].jobId == id;
      }
      assert more[|group|] == handed.value;
    }
  }

  /** After preparation every job of the group is either handed to inference, on
      the model whose slot the task holds, or no longer held by the task. */
  method Prepare(c: Catalog, backend: MemoryBackend, ids: seq<Id>, owner: string, model: string, leaseUntil: int,
                 answers: Id -> Answers, now: int)
    returns (runnable: seq<Job>)
    requires CatalogOk(c) && backend.Valid() && Distinct(ids) && forall id :: id in ids ==>
      HeldAs(backend.jobs, id, owner, Leased)
    modifies backend`jobs, backend.index
    ensures backend.Valid() && OnlyRows(old(backend.jobs), backend.jobs, ids)
    ensures Sorted(c, backend.jobs, ids, runnable, owner, model, answers)
    ensures EachPrepared(c, old(backend.jobs), backend.jobs, ids, runnable, owner, model, leaseUntil, answers, now)
  {
    runnable := [];
    hide CatalogOk, MemoryBackend.Valid, Handed, HeldAs, Prepared, PreparedAs;
    for i := 0 to |ids|
      invariant backend.Valid() && OnlyRows(old(backend.jobs), backend.jobs, ids[..i])
      invariant Sorted(c, backend.jobs, ids[..i], runnable, owner, model, answers)
      invariant EachPrepared(c, old(backend.jobs), backend.jobs, ids[..i], runnable, owner, model, leaseUntil, answers,
                             now)
    {
      ghost var before := backend.jobs;
      NotYetVisited(old(backend.jobs), backend.jobs, ids, i, owner);
      var handed := PrepareJob(c, backend, ids[i], owner, model, leaseUntil, answers(ids[i]), now);
      SortedGrows(c, before, backend.jobs, ids, i, runnable, handed, owner, model, answers);
      OneMorePrepared(c, old(backend.jobs), before, backend.jobs, ids, i, runnable, handed, owner, model, leaseUntil,
                      answers, now);
      OnlyRowsGrow(old(backend.jobs), before, backend.jobs, ids, i);
      if handed.Some? {
        runnable := runnable + [handed.value];
      }
    }
    assert ids[..|ids|] == ids;
  }

  lemma NotYetVisited(start: map<Id, Job>, jobs: map<Id, Job>, ids: seq<Id>, i: nat, owner: string)
    requires Distinct(ids) && i < |ids| && OnlyRows(start, jobs, ids[..i]) && HeldAs(start, ids[i], owner, Leased)
    ensures HeldAs(jobs, ids[i], owner, Leased)
  {
  }

  lemma OnlyRowsGrow(start: map<Id, Job>, before: map<Id, Job>, after: map<Id, Job>, ids: seq<Id>, i: nat)
    requires i < |ids| && OnlyRows(start, before, ids[..i]) && OnlyRow(before, after, ids[i])
    ensures OnlyRows(start, after, ids[..i + 1])
  {
  }

  lemma SortedGrows(c: Catalog, before: map<Id, Job>, after: map<Id, Job>, ids: seq<Id>, i: nat, runnable: seq<Job>,
                    handed: Option<Job>, owner: string, model: string, answers: Id -> Answers)
    requires Distinct(ids) && i < |ids| && OnlyRow(before, after, ids[i])
    requires Sorted(c, before, ids[..i], runnable, owner, model, answers)
    requires handed.None? ==> ids[i] !in after || after[ids[i]].leaseOwner != Some(owner)
    requires handed.Some? ==>
      handed.value.jobId == ids[i] && Handed(c, after, handed.value, owner, model, answers(ids[i]))
    ensures var more := if handed.Some? then runnable + [handed.value] else runnable;
      Sorted(c, after, ids[..i + 1], more, owner, model, answers)
  {
    hide RunsOn;
    var more := if handed.Some? then runnable + [handed.value] else runnable;
    assert ids[..i + 1] == ids[..i] + [ids[i]];
    assert ids[i] !in ids[..i];
    forall id | id in ids[..i + 1]
      ensures (exists k :: 0 <= k < |more| && more[k].jobId == id) || id !in after
        || after[id].leaseOwner != Some(owner)
    {
      if id == ids[i] {
        if handed.Some? { assert more[|runnable|].jobId == id; }
      } else if k :| 0 <= k < |runnable| && runnable[k].jobId == id {
        assert more[k].jobId == id;
      }
    }
  }

  // After inference

  /** What settling makes of a running row: nothing when its lease was reported lost, the
      failure when there is no response, and else the response, unless the job was to be
      cancelled. */
  ghost predicate SettledAs(c: Catalog, a: Job, b: Job, note: Job, lost: bool, response: Option<string>, x: Answers,
                            now: int) {
    if lost then b == a
    else if response.None? then FailureLeaves(c, a, b, note, x, now)
    else if a.cancelRequested then EndsAs(a, b, Cancelled, now)
    else EndsAs(a, b, Succeeded, now) && b.result == response
  }

  lemma CompletedInFields(a: Job, result: string, now: int)
    ensures EndsAs(a, Effect(a, LeaseOp.Complete(result), now), Succeeded, now)
    ensures EndsAs(a, Effect(a, LeaseOp.FinishCancel, now), Cancelled, now)
    ensures Effect(a, LeaseOp.Complete(result), now).result == Some(result)
  {
  }

  /** The response of one job, or how its attempt failed. A job whose lease the
      heartbeat reported lost is left alone. */
  method SettleOne(c: Catalog, backend: MemoryBackend, note: Job, owner: string, lost: bool, response: Option<string>,
                   a: Answers, now: int)
    requires CatalogOk(c) && backend.Valid() && HeldAs(backend.jobs, note.jobId, owner, Running)
    modifies backend`jobs, backend.index
    ensures backend.Valid() && OnlyRow(old(backend.jobs), backend.jobs, note.jobId)
    ensures if lost then backend.Rows() == old(backend.Rows()) else Lost(backend.Rows(), note.jobId, owner)
    ensures var id := note.jobId;
      if id in old(backend.jobs) && old(backend.jobs)[id].leaseOwner == Some(owner)
      then id in backend.jobs && SettledAs(c, old(backend.jobs)[id], backend.jobs[id], note, lost, response, a, now)
      else backend.Rows() == old(backend.Rows())
  {
    hide CatalogOk, MemoryBackend.Valid, TableOk, FailureOp, FailureLeaves, Effect;
    RowsGood(backend);
    var id := note.jobId;
    if lost {
      return;
    }
    if response.None? {
      FailureSettles(c, note, a, now);
      if id in backend.jobs {
        FailureInFields(c, backend.jobs[id], note, a, now);
      }
      SettledIsLost(backend.Rows(), id, owner, FailureOp(c, note, a, now), now);
      ghost var ok;
      var finished;
      finished, ok := SettleFailure(c, backend, note, owner, a, now);
      return;
    }
    if id in backend.jobs {
      CompletedInFields(backend.jobs[id], response.value, now);
    }
    if id in backend.jobs && backend.jobs[id].cancelRequested {
      CancelledIsLost(backend.Rows(), id, owner, now);
      var done := backend.FinishCancel(id, owner, now);
      return;
    }
    SettledIsLost(backend.Rows(), id, owner, LeaseOp.Complete(response.value), now);
    var committed := backend.Complete(id, owner, response.value, now);
  }

  /** What inference comes back with for a group: one classified failure for all of
      it, or a list of responses in order, as long as the adapter made it. */
  datatype Inference = Raised | Replied(responses: seq<string>)

  predicate Answered(inference: Inference, k: nat) {
    inference.Replied? && k < |inference.responses|
  }

  /** How many jobs of the group get settled: a list too short runs out, and the
      exception that raises leaves the rest as they are. */
  function Reached(group: seq<Job>, inference: Inference): nat {
    if inference.Raised? || |inference.responses| >= |group| then |group| else |inference.responses|
  }

  ghost predicate SettledUpTo(jobs: map<Id, Job>, group: seq<Job>, owner: string, lost: set<Id>, n: nat)
    requires n <= |group|
  {
    && (forall k :: 0 <= k < n ==>
          group[k].jobId in lost || group[k].jobId !in jobs || jobs[group[k].jobId].leaseOwner != Some(owner))
    && forall k :: n <= k < |group| ==> group[k].jobId in jobs && OwnsRunning(jobs[group[k].jobId], owner)
  }

  /** The jobs inference answered for are no longer held, but for those reported lost;
      the others are still running under the task's lease. */
  ghost predicate Settled(jobs: map<Id, Job>, group: seq<Job>, owner: string, lost: set<Id>, inference: Inference) {
    SettledUpTo(jobs, group, owner, lost, Reached(group, inference))
  }

  lemma NothingToSettle(jobs: map<Id, Job>, owner: string, lost: set<Id>, inference: Inference)
    ensures Settled(jobs, [], owner, lost, inference)
  {
  }

  lemma OneMoreSettled(before: map<Id, Job>, after: map<Id, Job>, group: seq<Job>, owner: string, lost: set<Id>, n: nat)
    requires n < |group| && OncePerJob(group) && SettledUpTo(before, group, owner, lost, n)
    requires OnlyRow(before, after, group[n].jobId)
    requires group[n].jobId in lost || group[n].jobId !in after || after[group[n].jobId].leaseOwner != Some(owner)
    ensures SettledUpTo(after, group, owner, lost, n + 1)
  {
  }

  ghost predicate NoneRegained(before: map<Id, Job>, after: map<Id, Job>, owner: string) {
    forall id :: id in after && after[id].leaseOwner == Some(owner)
      ==> id in before && before[id].leaseOwner == Some(owner)
  }

  lemma StillNoneRegained(start: map<Id, Job>, before: map<Id, Job>, after: map<Id, Job>, id: Id, owner: string)
    requires NoneRegained(start, before, owner) && OnlyRow(before, after, id)
    requires after == before || id !in after || after[id].leaseOwner != Some(owner)
    ensures NoneRegained(start, after, owner)
  {
  }

  /** What inference said of the k-th job of a group: nothing when it raised. */
  function ResponseTo(inference: Inference, k: nat): Option<string>
    requires inference.Replied? ==> k < |inference.responses|
  {
    if inference.Raised? then None else Some(inference.responses[k])
  }

  /** The first n jobs of the group are settled as inference said, and no other row has
      changed. */
  ghost predicate EachSettled(c: Catalog, before: map<Id, Job>, after: map<Id, Job>, group: seq<Job>, lost: set<Id>,
                              inference: Inference, answers: Id -> Answers, now: int, n: nat)
    requires n <= Reached(group, inference)
  {
    && (forall k :: 0 <= k < n ==>
          var id := group[k].jobId;
          id in before && id in after
          && SettledAs(c, before[id], after[id], group[k], id in lost, ResponseTo(inference, k), answers(id), now))
    && after.Keys == before.Keys
    && forall id :: id in before && (forall k :: 0 <= k < n ==> group[k].jobId != id) ==> after[id] == before[id]
  }

  lemma OneMoreAsSaid(c: Catalog, start: map<Id, Job>, before: map<Id, Job>, after: map<Id, Job>, group: seq<Job>,
                      lost: set<Id>, inference: Inference, answers: Id -> Answers, now: int, n: nat)
    requires n < Reached(group, inference) && OncePerJob(group)
    requires EachSettled(c, start, before, group, lost, inference, answers, now, n)
    requires OnlyRow(before, after, group[n].jobId) && group[n].jobId in before && group[n].jobId in after
    requires var id := group[n].jobId;
      SettledAs(c, before[id], after[id], group[n], id in lost, ResponseTo(inference, n), answers(id), now)
    ensures EachSettled(c, start, after, group, lost, inference, answers, now, n + 1)
  {
    hide SettledAs;
    assert forall k :: 0 <= k < n ==> group[k].jobId != group[n].jobId;
  }

  lemma NoneYet(jobs: map<Id, Job>, group: seq<Job>, owner: string, lost: set<Id>)
    requires forall k :: 0 <= k < |group| ==> group[k].jobId in jobs && OwnsRunning(jobs[group[k].jobId], owner)
    ensures SettledUpTo(jobs, group, owner, lost, 0) && NoneRegained(jobs, jobs, owner)
  {
  }

  lemma NextIsRunning(jobs: map<Id, Job>, group: seq<Job>, owner: string, lost: set<Id>, n: nat)
    requires n < |group| && SettledUpTo(jobs, group, owner, lost, n)
    ensures HeldAs(jobs, group[n].jobId, owner, Running)
    ensures group[n].jobId in jobs && jobs[group[n].jobId].leaseOwner == Some(owner)
  {
  }

  /** Settles the group in order, as far as inference answered. */
  method SettleEach(c: Catalog, backend: MemoryBackend, group: seq<Job>, owner: string, lost: set<Id>,
                    inference: Inference, answers: Id -> Answers, now: int)
    requires CatalogOk(c) && backend.Valid() && OncePerJob(group)
    requires forall k :: 0 <= k < |group| ==>
      group[k].jobId in backend.jobs && OwnsRunning(backend.jobs[group[k].jobId], owner)
    modifies backend`jobs, backend.index
    ensures backend.Valid() && Settled(backend.jobs, group, owner, lost, inference)
    ensures NoneRegained(old(backend.jobs), backend.jobs, owner)
    ensures EachSettled(c, old(backend.jobs), backend.jobs, group, lost, inference, answers, now,
                        Reached(group, inference))
  {
    hide CatalogOk, MemoryBackend.Valid, SettledUpTo, OnlyRow, HeldAs, NoneRegained, OncePerJob, SettledAs;
    NoneYet(backend.jobs, group, owner, lost);
    for i := 0 to Reached(group, inference)
      invariant backend.Valid() && SettledUpTo(backend.jobs, group, owner, lost, i)
      invariant NoneRegained(old(backend.jobs), backend.jobs, owner)
      invariant EachSettled(c, old(backend.jobs), backend.jobs, group, lost, inference, answers, now, i)
    {
      ghost var before := backend.jobs;
      var id := group[i].jobId;
      NextIsRunning(before, group, owner, lost, i);
      SettleOne(c, backend, group[i], owner, id in lost, ResponseTo(inference, i), answers(id), now);
      OneMoreAsSaid(c, old(backend.jobs), before, backend.jobs, group, lost, inference, answers, now, i);
      OneMoreSettled(before, backend.jobs, group, owner, lost, i);
      StillNoneRegained(old(backend.jobs), before, backend.jobs, id, owner);
    }
  }
}
