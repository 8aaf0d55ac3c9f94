/** The run protocol of the service over any backend: workers act on notes, the
    records they read after marking a job running, while recovery, cancellation and
    other workers go on around them. */
module ServiceRuns {
  import opened Types
  import opened JobTables
  import opened QueueRuns
  import opened LeaseRuns
  import opened ModelCatalogs
  import opened Registries
  import Recovery

  type Token = (Id, string)

  /** Every owner ever used for a job, and what each worker noted of its job. */
  datatype State = State(world: World, used: set<Token>, notes: map<Token, Job>)

  const BEGINNING := State(START, {}, map[])

  datatype Act =
    | Queue(step: Step)
    | Note(id: Id, owner: string)
    | FailNoted(id: Id, owner: string, retryable: bool, error: string, notBefore: int, fallback: Option<string>,
                probe: nat -> bool, now: int)
    | ReleaseNoted(id: Id, owner: string, own: Health, probe: nat -> bool, again: Health, after: Health, now: int)

  /** A job as the service builds it for a name the configuration resolves. */
  ghost predicate Built(c: Catalog, job: Job) {
    job.maxAttempts >= 1 && Faithful(c, job.requestedModel, job.resolvedModel)
  }

  /** How a failed attempt is settled: retried only with attempts left, time left
      and an error worth retrying; a dead letter when only the last is true. */
  ghost function SettlingOp(c: Catalog, note: Job, retryable: bool, error: string, notBefore: int,
                            fallback: Option<string>, probe: nat -> bool, now: int): LeaseOp {
    if !retryable || note.attemptCount >= note.maxAttempts || Passed(note.deadlineAt, now)
    then LeaseOp.Fail(error, retryable)
    else LeaseOp.Retry(error, notBefore, RetryTarget(c, note.requestedModel, note.resolvedModel, probe), fallback)
  }

  /** What the service does: fresh owners, jobs it built, failures settled by what it
      noted, releases only to hand a job to another model. Recovery, retention,
      cancellation, requeue and the shutdown release are unrestricted. */
  ghost predicate May(c: Catalog, s: State, act: Act) {
    match act
    case Queue(step) =>
      && Enabled(s.world, step)
      && (step.ClaimJob? ==> (step.id, step.owner) !in s.used)
      && (step.Lease? ==> !step.op.Retry? && !step.op.Release?)
      && (step.Submit? ==> Built(c, step.job))
      && (step.Stage? || step.SqlStage? ==> forall i :: 0 <= i < |step.jobs| ==> Built(c, step.jobs[i]))
    case Note(id, owner) => id in s.world.table.jobs && (id, owner) in s.used
    case FailNoted(id, owner, _, _, _, _, _, _) => (id, owner) in s.notes
    case ReleaseNoted(id, owner, own, probe, again, after, _) =>
      (id, owner) in s.notes
      && var note := s.notes[(id, owner)];
         ExecutionTarget(c, note.requestedModel, note.resolvedModel, own, probe, again, after).Run?
  }

  ghost function StepOf(c: Catalog, s: State, act: Act): Step
    requires May(c, s, act) && !act.Note?
  {
    match act
    case Queue(step) => step
    case FailNoted(id, owner, retryable, error, notBefore, fallback, probe, now) =>
      Lease(id, owner, SettlingOp(c, s.notes[(id, owner)], retryable, error, notBefore, fallback, probe, now), now)
    case ReleaseNoted(id, owner, own, probe, again, after, now) =>
      var note := s.notes[(id, owner)];
      Lease(id, owner,
            Release(Some(ExecutionTarget(c, note.requestedModel, note.resolvedModel, own, probe, again, after).model),
                    true), now)
  }

  ghost function Perform(c: Catalog, limits: Limits, s: State, act: Act): State
    requires WorldOk(s.world) && May(c, s, act)
  {
    if act.Note? then s.(notes := s.notes[(act.id, act.owner) := s.world.table.jobs[act.id]])
    else
      var step := StepOf(c, s, act);
      State(Do(s.world, limits, step), if step.ClaimJob? then s.used + {(step.id, step.owner)} else s.used, s.notes)
  }

  /** What a worker may rely on as long as it holds the lease. */
  predicate Current(note: Job, job: Job) {
    && note.attemptCount == job.attemptCount && note.maxAttempts == job.maxAttempts
    && note.requestedModel == job.requestedModel && note.resolvedModel == job.resolvedModel
  }

  ghost predicate NoteOk(s: State, token: Token) {
    token in s.notes && token in s.used
    && (Lost(s.world.table, token.0, token.1) || Current(s.notes[token], s.world.table.jobs[token.0]))
  }

  ghost predicate JobsKept(c: Catalog, t: Table) {
    forall id :: id in t.jobs ==>
      BudgetOk(t.jobs[id]) && Faithful(c, t.jobs[id].requestedModel, t.jobs[id].resolvedModel)
  }

  /** Owners and notes are never out of date without the lease being lost. */
  ghost predicate Sound(c: Catalog, s: State) {
    && WorldOk(s.world) && JobsKept(c, s.world.table)
    && (forall id :: id in s.world.table.jobs && s.world.table.jobs[id].leaseOwner.Some? ==>
          (id, s.world.table.jobs[id].leaseOwner.value) in s.used)
    && (forall token :: token in s.notes ==> NoteOk(s, token))
    && (forall token :: token in s.notes ==> Faithful(c, s.notes[token].requestedModel, s.notes[token].resolvedModel))
  }

  // One step

  lemma MaintainedIsCurrent(job: Job, now: int)
    ensures Current(job, Maintained(job, now))
  {
  }

  lemma SweptIsCurrent(job: Job, now: int)
    ensures Current(job, Recovery.Swept(job, now))
  {
  }

  /** Steps that may change a job's attempts or model. */
  predicate Touches(job: Job, step: Step) {
    || (step.ClaimJob? && step.id == job.jobId)
    || (step.Lease? && step.id == job.jobId && Allowed(job, step.owner, step.op)
        && (step.op.Retry? || step.op.Release?))
    || (step.RequeueJob? && step.id == job.jobId)
    || step.ReleaseAll?
  }

  lemma OthersKeepRecord(t: Table, job: Job, step: Step)
    requires !Touches(job, step)
    ensures Current(job, Moved(t, job, step))
  {
    hide Maintained, Recovery.Swept, Activates, Allowed;
    match step
    case Pass(now) => MaintainedIsCurrent(job, now);
    case SweepAll(now) => SweptIsCurrent(job, now);
    case _ =>
  }

  /** While an owner keeps the lease, its job's attempts and model stand still. */
  lemma HolderKeepsRecord(t: Table, job: Job, step: Step, owner: string)
    requires JobOk(job) && job.leaseOwner == Some(owner)
    requires Moved(t, job, step).leaseOwner == Some(owner)
    ensures Current(job, Moved(t, job, step))
  {
    hide Maintained, Recovery.Swept, Current;
    if !Touches(job, step) {
      OthersKeepRecord(t, job, step);
    } else {
      TouchedOnlyIfFree(t, job, step, owner);
    }
  }

  lemma TouchedOnlyIfFree(t: Table, job: Job, step: Step, owner: string)
    requires JobOk(job) && job.leaseOwner == Some(owner) && Touches(job, step)
    requires Moved(t, job, step).leaseOwner == Some(owner)
    ensures Current(job, Moved(t, job, step))
  {
  }

  lemma LeaseMovesModel(t: Table, job: Job, step: Step)
    requires step.Lease? && (step.op.Retry? || (step.op.Release? && step.op.resolvedTo.Some?))
    ensures var target := if step.op.Retry? then step.op.resolved else step.op.resolvedTo.value;
      Moved(t, job, step).resolvedModel == job.resolvedModel || Moved(t, job, step).resolvedModel == target
    ensures Moved(t, job, step).requestedModel == job.requestedModel
  {
  }

  /** A lease operation acts only on a current note. */
  lemma NoteIsCurrent(c: Catalog, s: State, id: Id, owner: string, op: LeaseOp)
    requires Sound(c, s) && (id, owner) in s.notes
    requires id in s.world.table.jobs && Allowed(s.world.table.jobs[id], owner, op)
    ensures Current(s.notes[(id, owner)], s.world.table.jobs[id])
  {
  }

  lemma MayKeepsBudget(c: Catalog, s: State, act: Act, id: Id)
    requires Sound(c, s) && May(c, s, act) && !act.Note? && id in s.world.table.jobs
    ensures BudgetOk(Moved(s.world.table, s.world.table.jobs[id], StepOf(c, s, act)))
  {
    hide ExecutionTarget, RetryTarget, Faithful, Moved, BudgetOk, WorldOk, Allowed, Enabled;
    var t, job, step := s.world.table, s.world.table.jobs[id], StepOf(c, s, act);
    NamedRow(s.world, id);
    if step.Lease? && step.id == id && !Allowed(job, step.owner, step.op) {
      RefusedMovesNothing(t, job, step);
    } else {
      if act.FailNoted? && act.id == id {
        NoteIsCurrent(c, s, id, act.owner, step.op);
      }
      BudgetKept(t, job, step);
    }
  }

  lemma NamedRow(w: World, id: Id)
    requires WorldOk(w) && id in w.table.jobs
    ensures w.table.jobs[id].jobId == id && JobOk(w.table.jobs[id])
  {
  }

  lemma RefusedMovesNothing(t: Table, job: Job, step: Step)
    requires step.Lease? && (step.id != job.jobId || !Allowed(job, step.owner, step.op))
    ensures Moved(t, job, step) == job
  {
  }

  lemma MayKeepsFaith(c: Catalog, s: State, act: Act, id: Id)
    requires CatalogOk(c) && Sound(c, s) && May(c, s, act) && !act.Note? && id in s.world.table.jobs
    ensures var job := Moved(s.world.table, s.world.table.jobs[id], StepOf(c, s, act));
      Faithful(c, job.requestedModel, job.resolvedModel)
  {
    hide ExecutionTarget, RetryTarget, Faithful, CatalogOk, Moved, WorldOk, Allowed, BudgetOk, Enabled;
    var t, job, step := s.world.table, s.world.table.jobs[id], StepOf(c, s, act);
    NamedRow(s.world, id);
    if act.Queue? || act.id != id || !Allowed(job, step.owner, step.op) || step.op.Fail? {
      ModelStays(t, job, step);
    } else {
      var note := s.notes[(id, act.owner)];
      NoteIsCurrent(c, s, id, act.owner, step.op);
      if act.FailNoted? {
        var well := Health(true, false);
        RetargetsAreFaithful(c, note.requestedModel, note.resolvedModel, well, act.probe, well, well);
      } else {
        RetargetsAreFaithful(c, note.requestedModel, note.resolvedModel, act.own, act.probe, act.again, act.after);
      }
      LeaseMovesModel(t, job, step);
    }
  }

  lemma ModelStays(t: Table, job: Job, step: Step)
    requires !(step.Lease? && step.id == job.jobId && Allowed(job, step.owner, step.op)
               && (step.op.Retry? || step.op.Release?))
    ensures Moved(t, job, step).resolvedModel == job.resolvedModel
      && Moved(t, job, step).requestedModel == job.requestedModel
  {
    hide Maintained, Recovery.Swept, Activates, Current;
    if !Touches(job, step) {
      OthersKeepRecord(t, job, step);
      CurrentModels(job, Moved(t, job, step));
    }
  }

  lemma CurrentModels(a: Job, b: Job)
    requires Current(a, b)
    ensures a.requestedModel == b.requestedModel && a.resolvedModel == b.resolvedModel
  {
  }

  lemma NewIsKept(c: Catalog, job: Job)
    requires NewJob(job) && Built(c, job)
    ensures BudgetOk(job) && Faithful(c, job.requestedModel, job.resolvedModel) && job.leaseOwner.None?
  {
  }

  lemma PerformKeepsJobs(c: Catalog, limits: Limits, s: State, act: Act)
    requires CatalogOk(c) && Sound(c, s) && May(c, s, act) && !act.Note?
    ensures JobsKept(c, Perform(c, limits, s, act).world.table)
  {
    hide CatalogOk, Faithful, BudgetOk, Moved, WorldOk, Enabled, Do, StepOf, Sound, NewJob, Built;
    var step := StepOf(c, s, act);
    MayIsEnabled(c, s, act);
    var next := Do(s.world, limits, step).table;
    forall id | id in next.jobs
      ensures BudgetOk(next.jobs[id]) && Faithful(c, next.jobs[id].requestedModel, next.jobs[id].resolvedModel)
    {
      if id in s.world.table.jobs {
        StepMovesJob(s.world, limits, step, id);
        MayKeepsBudget(c, s, act, id);
        MayKeepsFaith(c, s, act, id);
      } else {
        AppearsFromStep(s.world, limits, step, id);
        BroughtAreBuilt(c, s, act, next.jobs[id]);
        NewIsKept(c, next.jobs[id]);
      }
    }
  }

  lemma MayIsEnabled(c: Catalog, s: State, act: Act)
    requires Sound(c, s) && May(c, s, act) && !act.Note?
    ensures WorldOk(s.world) && Enabled(s.world, StepOf(c, s, act))
    ensures StepOf(c, s, act).ClaimJob? ==> (StepOf(c, s, act).id, StepOf(c, s, act).owner) !in s.used
  {
  }

  lemma BroughtAreBuilt(c: Catalog, s: State, act: Act, job: Job)
    requires May(c, s, act) && !act.Note?
    requires var step := StepOf(c, s, act);
      (step.Submit? && job == step.job) || ((step.Stage? || step.SqlStage?) && job in step.jobs)
    ensures Built(c, job)
  {
  }

  lemma PerformKeepsNotes(c: Catalog, limits: Limits, s: State, act: Act, token: Token)
    requires Sound(c, s) && May(c, s, act) && !act.Note? && token in s.notes
    ensures NoteOk(Perform(c, limits, s, act), token)
  {
    hide WorldOk, JobsKept, Do, StepOf, Enabled, Moved, Current, May;
    var step := StepOf(c, s, act);
    MayIsEnabled(c, s, act);
    assert NoteOk(s, token);
    var t, next := s.world.table, Do(s.world, limits, step).table;
    if Lost(t, token.0, token.1) {
      LostUnlessClaimed(s.world, limits, step, token.0, token.1);
    } else if !Lost(next, token.0, token.1) {
      StepMovesJob(s.world, limits, step, token.0);
      NamedRow(s.world, token.0);
      HolderKeepsRecord(t, t.jobs[token.0], step, token.1);
      CurrentChains(s.notes[token], t.jobs[token.0], next.jobs[token.0]);
    }
  }

  lemma CurrentChains(a: Job, b: Job, c: Job)
    requires Current(a, b) && Current(b, c)
    ensures Current(a, c)
  {
  }

  lemma PerformKeepsOwners(c: Catalog, limits: Limits, s: State, act: Act, id: Id)
    requires Sound(c, s) && May(c, s, act) && !act.Note?
    requires id in Perform(c, limits, s, act).world.table.jobs
      && Perform(c, limits, s, act).world.table.jobs[id].leaseOwner.Some?
    ensures (id, Perform(c, limits, s, act).world.table.jobs[id].leaseOwner.value) in Perform(c, limits, s, act).used
  {
    hide WorldOk, JobsKept, Do, StepOf, Enabled, Moved, May;
    var step := StepOf(c, s, act);
    MayIsEnabled(c, s, act);
    var next := Do(s.world, limits, step).table;
    var owner := next.jobs[id].leaseOwner.value;
    if id in s.world.table.jobs {
      StepMovesJob(s.world, limits, step, id);
      NamedRow(s.world, id);
      if s.world.table.jobs[id].leaseOwner != Some(owner) && !Claims(step, id, owner) {
        OnlyClaimsGrant(s.world.table, s.world.table.jobs[id], step, owner);
      }
    } else {
      AppearsFromStep(s.world, limits, step, id);
    }
  }

  /** Every act keeps the invariant. */
  lemma PerformKeepsSound(c: Catalog, limits: Limits, s: State, act: Act)
    requires CatalogOk(c) && Sound(c, s) && May(c, s, act)
    ensures Sound(c, Perform(c, limits, s, act))
  {
    if act.Note? {
      NotingKeepsSound(c, limits, s, act);
    } else {
      hide CatalogOk, WorldOk, JobsKept, Do, StepOf, Enabled, NoteOk, Faithful, May;
      var u := Perform(c, limits, s, act);
      MayIsEnabled(c, s, act);
      DoKeepsOk(s.world, limits, StepOf(c, s, act));
      PerformKeepsJobs(c, limits, s, act);
      forall token | token in u.notes ensures NoteOk(u, token) {
        PerformKeepsNotes(c, limits, s, act, token);
      }
      forall id | id in u.world.table.jobs && u.world.table.jobs[id].leaseOwner.Some?
        ensures (id, u.world.table.jobs[id].leaseOwner.value) in u.used
      {
        PerformKeepsOwners(c, limits, s, act, id);
      }
    }
  }

  lemma NotingKeepsSound(c: Catalog, limits: Limits, s: State, act: Act)
    requires Sound(c, s) && May(c, s, act) && act.Note?
    ensures Sound(c, Perform(c, limits, s, act))
  {
  }

  // Whole runs

  ghost predicate IsServiceRun(c: Catalog, limits: Limits, states: seq<State>, acts: seq<Act>) {
    && |states| == |acts| + 1 && states[0] == BEGINNING
    && forall i :: 0 <= i < |acts| && WorldOk(states[i].world) ==>
         May(c, states[i], acts[i]) && states[i + 1] == Perform(c, limits, states[i], acts[i])
  }

  /** In every state of every run: no job has spent more than its attempts, every
      job is on a model its caller named, and a worker's note is current for as
      long as it holds the lease. */
  lemma {:induction false} ServiceStaysSound(c: Catalog, limits: Limits, states: seq<State>, acts: seq<Act>, i: nat)
    requires CatalogOk(c) && IsServiceRun(c, limits, states, acts) && i <= |acts|
    ensures Sound(c, states[i])
  {
    hide CatalogOk;
    if i == 0 {
      BeginningIsSound(c);
    } else {
      ServiceStaysSound(c, limits, states, acts, i - 1);
      hide May;
      PerformKeepsSound(c, limits, states[i - 1], acts[i - 1]);
    }
  }

  lemma BeginningIsSound(c: Catalog)
    ensures Sound(c, BEGINNING)
  {
  }

  /** A job named for a model or an alias of one is on that model; a job named for a
      group is on a member of the group. */
  lemma JobsStayOnTheirModels(c: Catalog, limits: Limits, states: seq<State>, acts: seq<Act>, i: nat, id: Id)
    requires CatalogOk(c) && IsServiceRun(c, limits, states, acts) && i <= |acts| && id in states[i].world.table.jobs
    ensures var job := states[i].world.table.jobs[id];
      var target := Followed(c.aliases, job.requestedModel);
      target.Some? && (if target.value in c.groups then job.resolvedModel in Chain(c.groups[target.value])
                       else job.resolvedModel == target.value)
  {
    hide CatalogOk, IsServiceRun, WorldOk, NoteOk;
    ServiceStaysSound(c, limits, states, acts, i);
  }

  lemma PerformKeepsLost(c: Catalog, limits: Limits, s: State, act: Act, token: Token)
    requires Sound(c, s) && May(c, s, act) && token in s.used && Lost(s.world.table, token.0, token.1)
    ensures token in Perform(c, limits, s, act).used && Lost(Perform(c, limits, s, act).world.table, token.0, token.1)
  {
    hide WorldOk, JobsKept, Do, StepOf, Enabled, NoteOk, May;
    if !act.Note? {
      MayIsEnabled(c, s, act);
      LostUnlessClaimed(s.world, limits, StepOf(c, s, act), token.0, token.1);
    }
  }

  /** An owner that has been used for a job and no longer holds it never holds it
      again, so none of its later calls does anything. */
  lemma {:induction false} OwnersDoNotComeBack(c: Catalog, limits: Limits, states: seq<State>, acts: seq<Act>,
                                               i: nat, k: nat, token: Token)
    requires CatalogOk(c) && IsServiceRun(c, limits, states, acts) && i <= k <= |acts|
    requires token in states[i].used && Lost(states[i].world.table, token.0, token.1)
    ensures token in states[k].used && Lost(states[k].world.table, token.0, token.1)
    ensures forall op, now :: !ApplyLease(states[k].world.table, token.0, token.1, op, now).1
    decreases k
  {
    hide CatalogOk, May, WorldOk, JobsKept, NoteOk;
    if i < k {
      OwnersDoNotComeBack(c, limits, states, acts, i, k - 1, token);
      ServiceStaysSound(c, limits, states, acts, k - 1);
      PerformKeepsLost(c, limits, states[k - 1], acts[k - 1], token);
    }
    ServiceStaysSound(c, limits, states, acts, k);
    forall op, now ensures !ApplyLease(states[k].world.table, token.0, token.1, op, now).1 {
      NothingForLost(c, states[k], token, op, now);
    }
  }

  lemma NothingForLost(c: Catalog, s: State, token: Token, op: LeaseOp, now: int)
    requires Sound(c, s) && Lost(s.world.table, token.0, token.1)
    ensures !ApplyLease(s.world.table, token.0, token.1, op, now).1
  {
  }

  // How often a job can change state

  /** Acts that hand a job its attempts back. */
  predicate HandsBack(act: Act) {
    act.ReleaseNoted? || (act.Queue? && (act.step.ReleaseAll? || act.step.RequeueJob?))
  }

  function Worlds(states: seq<State>): (ws: seq<World>)
    ensures |ws| == |states| && forall i :: 0 <= i < |ws| ==> ws[i] == states[i].world
  {
    seq(|states|, i requires 0 <= i < |states| => states[i].world)
  }

  lemma MayBurnsFuel(c: Catalog, s: State, act: Act, id: Id)
    requires Sound(c, s) && May(c, s, act) && !act.Note? && !HandsBack(act) && id in s.world.table.jobs
    ensures Burns(s.world.table.jobs[id], Moved(s.world.table, s.world.table.jobs[id], StepOf(c, s, act)))
  {
    hide ExecutionTarget, RetryTarget, Faithful, Moved, BudgetOk, WorldOk, Allowed, Enabled, Fuel;
    var t, job, step := s.world.table, s.world.table.jobs[id], StepOf(c, s, act);
    NamedRow(s.world, id);
    FuelLimit(job);
    if step.Lease? && step.id == id && !Allowed(job, step.owner, step.op) {
      RefusedMovesNothing(t, job, step);
    } else {
      if act.FailNoted? && act.id == id {
        NoteIsCurrent(c, s, id, act.owner, step.op);
      }
      ChangesBurnFuel(t, job, step);
    }
  }

  lemma KeepsBudget(c: Catalog, s: State, id: Id)
    requires Sound(c, s) && id in s.world.table.jobs
    ensures BudgetOk(s.world.table.jobs[id]) && WorldOk(s.world)
  {
  }

  /** Nothing need be assumed about retries: in any run of the service a job that is
      not released or requeued changes state at most 4 max + 2 times. */
  lemma {:induction false} ServiceChangesAreBounded(c: Catalog, limits: Limits, states: seq<State>, acts: seq<Act>,
                                                    id: Id, i: nat, k: nat)
    requires CatalogOk(c) && IsServiceRun(c, limits, states, acts) && i <= k <= |acts|
    requires forall m :: i <= m <= k ==> id in states[m].world.table.jobs
    requires forall m :: i <= m < k ==> !HandsBack(acts[m])
    ensures Changes(Worlds(states), id, i, k) + Fuel(states[k].world.table.jobs[id])
      <= Fuel(states[i].world.table.jobs[id])
    ensures Changes(Worlds(states), id, i, k) <= 4 * states[i].world.table.jobs[id].maxAttempts + 2
    decreases k
  {
    hide CatalogOk, May, Perform, Sound, Fuel, WorldOk;
    ServiceStaysSound(c, limits, states, acts, i);
    ServiceStaysSound(c, limits, states, acts, k);
    KeepsBudget(c, states[i], id);
    KeepsBudget(c, states[k], id);
    FuelLimit(states[i].world.table.jobs[id]);
    FuelLimit(states[k].world.table.jobs[id]);
    if i < k {
      ServiceChangesAreBounded(c, limits, states, acts, id, i, k - 1);
      ServiceStaysSound(c, limits, states, acts, k - 1);
      KeepsBudget(c, states[k - 1], id);
      OneActBurns(c, limits, states[k - 1], acts[k - 1], id);
    }
  }

  lemma OneActBurns(c: Catalog, limits: Limits, s: State, act: Act, id: Id)
    requires Sound(c, s) && May(c, s, act) && !HandsBack(act)
    requires id in s.world.table.jobs && id in Perform(c, limits, s, act).world.table.jobs
    ensures WorldOk(s.world) && Burns(s.world.table.jobs[id], Perform(c, limits, s, act).world.table.jobs[id])
  {
    hide May, WorldOk, JobsKept, Do, StepOf, Enabled, NoteOk, Moved, Fuel;
    if act.Note? {
      FuelLimitAt(c, s, id);
    } else {
      MayIsEnabled(c, s, act);
      StepMovesJob(s.world, limits, StepOf(c, s, act), id);
      MayBurnsFuel(c, s, act, id);
    }
  }

  lemma FuelLimitAt(c: Catalog, s: State, id: Id)
    requires Sound(c, s) && id in s.world.table.jobs
    ensures Fuel(s.world.table.jobs[id]) >= 0
  {
  }
}
