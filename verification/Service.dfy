/** The worker side of the service: slots per model, the dispatch loop and the life of
    a task from its slot to its release. */
module Services {
  import opened Types
  import opened Picker
  import opened JobTables
  import opened JobOrder
  import opened NativeBatches
  import opened ReadyIndexes
  import opened ClaimRuns
  import opened LeaseRuns
  import opened ModelCatalogs
  import opened Registries
  import opened SlotRuns
  import opened TaskRuns
  import opened MemoryBackends
  import opened Outcomes
  import opened RowChoices

  /** A group of jobs claimed together under one owner, to run on one model. */
  datatype Task = Task(model: string, owner: string, ids: seq<Id>)

  ghost predicate Ready(task: Task, jobs: map<Id, Job>) {
    Distinct(task.ids) && forall id :: id in task.ids ==>
      id in jobs && jobs[id].state == Leased && jobs[id].leaseOwner == Some(task.owner)
        && jobs[id].resolvedModel == task.model
  }

  function Models(tasks: seq<Task>): multiset<string> {
    if tasks == [] then multiset{} else Models(tasks[..|tasks| - 1]) + multiset{tasks[|tasks| - 1].model}
  }

  /** Claims only take rows away from those that can be claimed. */
  ghost predicate Shrinks(t: Table, u: Table, now: int) {
    && t.jobs.Keys == u.jobs.Keys && t.batches == u.batches
    && (forall id :: id in t.jobs && u.jobs[id] != t.jobs[id] ==>
        id in ClaimableIds(t, now) && id !in ClaimableIds(u, now))
  }

  lemma ClaimShrinks(t: Table, id: Id, owner: string, leaseUntil: int, now: int)
    ensures Shrinks(t, Claim(t, id, owner, leaseUntil, now).0, now)
  {
  }

  lemma TakenShrinks(t: Table, ids: set<Id>, owner: string, leaseUntil: int, now: int)
    requires ids <= ClaimableIds(t, now)
    ensures Shrinks(t, t.(jobs := Taken(t.jobs, ids, owner, leaseUntil, now)), now)
  {
  }

  lemma ShrinksChains(t: Table, u: Table, v: Table, now: int)
    requires Shrinks(t, u, now) && Shrinks(u, v, now)
    ensures Shrinks(t, v, now)
  {
  }

  /** No job of the model can be claimed. */
  ghost predicate Idle(t: Table, model: string, now: int) {
    forall id :: id in ClaimableIds(t, now) ==> t.jobs[id].resolvedModel != model
  }

  lemma IdleStays(t: Table, u: Table, model: string, now: int)
    requires Idle(t, model, now) && Shrinks(t, u, now)
    ensures Idle(u, model, now)
  {
  }

  lemma ShrinksSelf(t: Table, now: int)
    ensures Shrinks(t, t, now)
  {
  }

  ghost predicate AllReady(tasks: seq<Task>, jobs: map<Id, Job>) {
    forall i :: 0 <= i < |tasks| ==> Ready(tasks[i], jobs)
  }

  lemma AllReadyConcat(tasks: seq<Task>, more: seq<Task>, t: Table, u: Table, now: int)
    requires AllReady(tasks, t.jobs) && Shrinks(t, u, now) && AllReady(more, u.jobs)
    ensures AllReady(tasks + more, u.jobs) && tasks + [] == tasks
  {
  }

  lemma ModelsLast(tasks: seq<Task>, task: Task)
    ensures Models(tasks + [task]) == Models(tasks) + multiset{task.model}
  {
  }

  lemma ModelsStep(a: seq<Task>, front: seq<Task>, last: Task)
    requires Models(a + front) == Models(a) + Models(front)
    ensures Models(a + (front + [last])) == Models(a) + Models(front + [last])
  {
    ModelsLast(a + front, last);
    ModelsLast(front, last);
    hide Models;
    assert a + (front + [last]) == a + front + [last];
  }

  lemma {:induction false} ModelsUpTo(a: seq<Task>, b: seq<Task>, k: nat)
    requires k <= |b|
    ensures Models(a + b[..k]) == Models(a) + Models(b[..k])
  {
    hide Models;
    if k == 0 {
      assert a + b[..0] == a;
      NoTasks();
    } else {
      ModelsUpTo(a, b, k - 1);
      ModelsStep(a, b[..k - 1], b[k - 1]);
      assert b[..k] == b[..k - 1] + [b[k - 1]];
    }
  }

  lemma ModelsConcat(a: seq<Task>, b: seq<Task>)
    ensures Models(a + b) == Models(a) + Models(b)
  {
    hide Models;
    ModelsUpTo(a, b, |b|);
    assert b[..|b|] == b;
  }

  lemma NoTasks()
    ensures Models([]) == multiset{} && forall jobs :: AllReady([], jobs)
  {
  }

  lemma {:induction false} ModelsOfOne(tasks: seq<Task>, m: string, x: string)
    requires forall i :: 0 <= i < |tasks| ==> tasks[i].model == m
    requires x != m
    ensures Models(tasks)[x] == 0
  {
    if tasks != [] {
      ModelsOfOne(tasks[..|tasks| - 1], m, x);
    }
  }

  // What dispatch did, turn by turn

  /** What a claim reads and writes: the rows, the ready index and the picker. */
  datatype Stand = Stand(table: Table, view: View, picker: PickerState)

  /** One claim made with a slot in hand: the proposals it rejected and the jobs it
      took, none when it came back empty. */
  datatype Turn = Turn(model: string, owner: string, before: Stand, rejects: seq<Id>, ids: seq<Id>, after: Stand)

  datatype Batching = Batching(native: map<string, int>, leaseUntil: int, now: int, settings: SchedulerSettings)

  /** The rows with ids claimed. */
  function Grabbed(t: Table, ids: seq<Id>, owner: string, how: Batching): Table {
    t.(jobs := Taken(t.jobs, Members(ids), owner, how.leaseUntil, how.now))
  }

  /** Behind the job the picker chose come the oldest compatible jobs when the model
      runs native batches, and no others. */
  ghost predicate Grouped(t: Table, model: string, owner: string, ids: seq<Id>, how: Batching)
    requires ids != []
  {
    && ids[0] in t.jobs
    && if model in how.native && how.native[model] > 1
       then Companions(Grabbed(t, [ids[0]], owner, how), model, t.jobs[ids[0]].questionsHash, {ids[0]},
                       how.native[model] - 1, how.now, ids[1..])
       else ids[1..] == []
  }

  /** The turn is a claim run over the rows, the index and the picker as it found
      them, and this is what it made of them. */
  ghost predicate TurnOk(turn: Turn, how: Batching) {
    && ListsClaimable(turn.before.view, turn.before.table, how.now)
    && ClaimRun(turn.before.view, ClaimableIds(turn.before.table, how.now), turn.model, turn.before.picker,
                Epoch(how.now),
                how.settings, turn.rejects, if turn.ids == [] then None else Some(turn.ids[0]), turn.after.picker)
    && (turn.ids != [] ==> Grouped(turn.before.table, turn.model, turn.owner, turn.ids, how))
    && turn.after.table == Grabbed(turn.before.table, turn.ids, turn.owner, how)
    && turn.after.view == Unlisted(turn.before.view, Members(turn.rejects) + Members(turn.ids))
  }

  /** What a turn takes, in the fields of the rows: the first of its queue and, when the
      model runs native batches, the oldest that ask it the same, up to the batch's size;
      each leased to the owner with one attempt charged, and no other row changes. */
  ghost predicate TakesInOrder(turn: Turn, how: Batching)
    requires turn.ids != []
  {
    var t, u, first := turn.before.table, turn.after.table, turn.ids[0];
    && first in t.jobs && t.jobs[first].resolvedModel == turn.model && MayClaim(t.jobs[first], t.batches, how.now)
    && FirstInQueue(t, first, how.now)
    && ScoresMostOfHeads(t, first, SkipsOf(turn.before.picker, turn.model), how.now, how.settings)
    && (if turn.model in how.native && how.native[turn.model] > 1
        then OldestJoin(Grabbed(t, [first], turn.owner, how), turn.model, t.jobs[first].questionsHash, {first},
                        how.native[turn.model] - 1, how.now, turn.ids[1..])
        else turn.ids[1..] == [])
    && u.jobs.Keys == t.jobs.Keys && u.batches == t.batches
    && forall id :: id in t.jobs ==>
         if id in turn.ids then AfterClaim(t.jobs[id], u.jobs[id], turn.owner, how.leaseUntil)
           else u.jobs[id] == t.jobs[id]
  }

  lemma TurnTakesInOrder(turn: Turn, how: Batching)
    requires TurnOk(turn, how) && turn.ids != []
    ensures TakesInOrder(turn, how)
  {
    TurnGrabs(turn.before.table, turn.ids, turn.owner, how);
    TurnTakesFirst(turn, how);
    ClaimedMay(turn, how);
    CompanionsInOrder(turn, how);
    hide ListsClaimable, FirstInQueue, ScoresMostOfHeads, OldestJoin, MayClaim, AfterClaim, ClaimRun, Grouped, Grabbed;
  }

  lemma TurnTakesFirst(turn: Turn, how: Batching)
    requires TurnOk(turn, how) && turn.ids != []
    ensures var t, first := turn.before.table, turn.ids[0];
      && first in t.jobs && t.jobs[first].resolvedModel == turn.model && FirstInQueue(t, first, how.now)
      && ScoresMostOfHeads(t, first, SkipsOf(turn.before.picker, turn.model), how.now, how.settings)
  {
    hide ListsClaimable, FirstInQueue, ScoresMostOfHeads, ClaimRun, Grouped, Grabbed;
    ClaimTakesTheFirst(turn.before.table, turn.before.view, turn.model, turn.before.picker, how.now, how.settings,
                       turn.rejects, turn.ids[0], turn.after.picker);
  }

  lemma CompanionsInOrder(turn: Turn, how: Batching)
    requires TurnOk(turn, how) && turn.ids != []
    ensures var t, first := turn.before.table, turn.ids[0];
      first in t.jobs
      && if turn.model in how.native && how.native[turn.model] > 1
         then OldestJoin(Grabbed(t, [first], turn.owner, how), turn.model, t.jobs[first].questionsHash, {first},
                         how.native[turn.model] - 1, how.now, turn.ids[1..])
         else turn.ids[1..] == []
  {
    hide ListsClaimable, OldestJoin, ClaimRun, Grabbed, Companions;
    var t, first := turn.before.table, turn.ids[0];
    if turn.model in how.native && how.native[turn.model] > 1 {
      CompanionsInFields(Grabbed(t, [first], turn.owner, how), turn.model, t.jobs[first].questionsHash, {first},
                         how.native[turn.model] - 1, how.now, turn.ids[1..]);
    }
  }

  lemma ClaimedMay(turn: Turn, how: Batching)
    requires TurnOk(turn, how) && turn.ids != []
    ensures var t, first := turn.before.table, turn.ids[0];
      first in t.jobs && MayClaim(t.jobs[first], t.batches, how.now)
  {
    hide MayClaim, Grouped, Grabbed, Claimable;
    ClaimInFields(turn.before.table, turn.ids[0], "", 0, how.now);
  }

  lemma TurnGrabs(t: Table, ids: seq<Id>, owner: string, how: Batching)
    ensures var u := Grabbed(t, ids, owner, how);
      && u.jobs.Keys == t.jobs.Keys && u.batches == t.batches
      && forall id :: id in t.jobs ==>
           if id in ids then AfterClaim(t.jobs[id], u.jobs[id], owner, how.leaseUntil) else u.jobs[id] == t.jobs[id]
  {
  }

  /** Each turn starts where the one before it ended. */
  ghost predicate Links(log: seq<Turn>, before: Stand, after: Stand) {
    && (log == [] ==> before == after)
    && (log != [] ==> log[0].before == before && log[|log| - 1].after == after)
    && forall i :: 0 <= i < |log| - 1 ==> log[i].after == log[i + 1].before
  }

  ghost predicate TurnsOk(log: seq<Turn>, how: Batching) {
    forall i :: 0 <= i < |log| ==> TurnOk(log[i], how)
  }

  lemma Chained(a: seq<Turn>, b: seq<Turn>, x: Stand, y: Stand, z: Stand, how: Batching)
    requires Links(a, x, y) && Links(b, y, z) && TurnsOk(a, how) && TurnsOk(b, how)
    ensures Links(a + b, x, z) && TurnsOk(a + b, how)
  {
    hide TurnOk;
  }

  /** Every turn has an owner of its own. */
  ghost predicate OwnersFrom(log: seq<Turn>, owners: nat -> string, first: nat) {
    forall i :: 0 <= i < |log| ==> log[i].owner == owners(first + i)
  }

  lemma OwnersGrow(log: seq<Turn>, more: seq<Turn>, owners: nat -> string, first: nat)
    requires OwnersFrom(log, owners, first) && OwnersFrom(more, owners, first + |log|)
    ensures OwnersFrom(log + more, owners, first)
  {
  }

  /** The tasks the turns started. */
  function TasksOf(log: seq<Turn>): seq<Task> {
    if log == [] then []
    else
      var last := log[|log| - 1];
      TasksOf(log[..|log| - 1]) + if last.ids == [] then [] else [Task(last.model, last.owner, last.ids)]
  }

  lemma {:induction false} TasksOfConcat(a: seq<Turn>, b: seq<Turn>)
    ensures TasksOf(a + b) == TasksOf(a) + TasksOf(b)
  {
    if b == [] {
      assert a + b == a;
    } else {
      TasksOfConcat(a, b[..|b| - 1]);
      assert (a + b)[..|a + b| - 1] == a + b[..|b| - 1];
    }
  }

  /** A turn for the model used up its tries: all of the jobs it rejected were listed
      for the model and none could be claimed. */
  ghost predicate GaveUp(log: seq<Turn>, m: string) {
    exists i :: 0 <= i < |log| && GaveUpAt(log[i], m)
  }

  predicate GaveUpAt(turn: Turn, m: string) {
    turn.model == m && turn.ids == [] && |turn.rejects| == TRIES
  }

  /** What giving up means: the index listed that many different jobs, none of which
      could be claimed, and lists them no longer. */
  lemma GivingUpTookTries(turn: Turn, how: Batching, m: string)
    requires TurnOk(turn, how) && GaveUpAt(turn, m)
    ensures |Members(turn.rejects)| == 64 && turn.after.table == turn.before.table
      && turn.after.picker == turn.before.picker
    ensures forall id :: id in turn.rejects ==>
      id in turn.before.view && id !in ClaimableIds(turn.before.table, how.now) && id !in turn.after.view
  {
    hide ClaimRun;
    ClaimIsSafe(turn.before.view, ClaimableIds(turn.before.table, how.now), m, turn.before.picker, Epoch(how.now),
                how.settings,
                turn.rejects, None, turn.after.picker);
    assert Members([]) == {};
    TakeNone(turn.before.table.jobs, turn.owner, how.leaseUntil, how.now);
  }

  /** The model is at its cap, out of tries, or without work. */
  ghost predicate Served(m: string, slots: multiset<string>, caps: map<string, nat>, t: Table, now: int,
                         log: seq<Turn>) {
    m in caps && (slots[m] == caps[m] || GaveUp(log, m) || Idle(t, m, now))
  }

  lemma MoreTurns(m: string, slots: multiset<string>, caps: map<string, nat>, t: Table, now: int, log: seq<Turn>,
                  more: seq<Turn>)
    requires Served(m, slots, caps, t, now, log) || Served(m, slots, caps, t, now, more)
    ensures Served(m, slots, caps, t, now, log + more)
  {
    if i :| 0 <= i < |log| && GaveUpAt(log[i], m) { assert GaveUpAt((log + more)[i], m); }
    if i :| 0 <= i < |more| && GaveUpAt(more[i], m) { assert GaveUpAt((log + more)[|log| + i], m); }
  }

  lemma ServedStays(x: string, m: string, slots: multiset<string>, more: seq<Task>, caps: map<string, nat>,
                    t: Table, u: Table, now: int, log: seq<Turn>)
    requires Served(x, slots, caps, t, now, log) && x != m && Shrinks(t, u, now)
    requires forall i :: 0 <= i < |more| ==> more[i].model == m
    ensures Served(x, slots + Models(more), caps, u, now, log)
  {
    ModelsOfOne(more, m, x);
    if Idle(t, x, now) {
      IdleStays(t, u, x, now);
    }
  }

  lemma OneTask(task: Task, jobs: map<Id, Job>)
    ensures Models([task]) == multiset{task.model} && (Ready(task, jobs) ==> AllReady([task], jobs))
  {
  }

  ghost predicate AllServed(models: map<string, ModelSpec>, todo: set<string>, slots: multiset<string>,
                            caps: map<string, nat>, t: Table, now: int, log: seq<Turn>) {
    forall m :: m in models && m !in todo && models[m].enabled ==> Served(m, slots, caps, t, now, log)
  }

  /** Dispatch so far, from the state and slots it found to those it has come to, with
      the models in todo still to serve. */
  ghost predicate Dispatched(tasks: seq<Task>, log: seq<Turn>, start: Stand, here: Stand, held: multiset<string>,
                             slots: multiset<string>, models: map<string, ModelSpec>, todo: set<string>,
                             caps: map<string, nat>, owners: nat -> string, how: Batching) {
    && slots == held + Models(tasks) && AllReady(tasks, here.table.jobs) && Shrinks(start.table, here.table, how.now)
    && tasks == TasksOf(log) && Links(log, start, here) && TurnsOk(log, how) && OwnersFrom(log, owners, 0)
    && AllServed(models, todo, slots, caps, here.table, how.now, log)
  }

  /** Claims are made, and tasks started, for enabled models only. */
  ghost predicate OnlyEnabled(models: map<string, ModelSpec>, tasks: seq<Task>, log: seq<Turn>) {
    && (forall i :: 0 <= i < |log| ==> log[i].model in models && models[log[i].model].enabled)
    && (forall i :: 0 <= i < |tasks| ==> tasks[i].model in models && models[tasks[i].model].enabled)
  }

  ghost predicate AllOf(turns: seq<Turn>, m: string) {
    forall i :: 0 <= i < |turns| ==> turns[i].model == m
  }

  lemma NoneEnabledYet(models: map<string, ModelSpec>)
    ensures OnlyEnabled(models, [], [])
  {
  }

  lemma NoneOf(m: string)
    ensures AllOf([], m)
  {
  }

  lemma OneOf(turn: Turn)
    ensures AllOf([turn], turn.model)
  {
  }

  lemma AllOfConcat(a: seq<Turn>, b: seq<Turn>, m: string)
    requires AllOf(a, m) && AllOf(b, m)
    ensures AllOf(a + b, m)
  {
  }

  lemma StillOnlyEnabled(models: map<string, ModelSpec>, tasks: seq<Task>, more: seq<Task>, log: seq<Turn>,
                         turns: seq<Turn>, m: string)
    requires OnlyEnabled(models, tasks, log) && AllOf(turns, m) && m in models && models[m].enabled
    requires forall i :: 0 <= i < |more| ==> more[i].model == m
    ensures OnlyEnabled(models, tasks + more, log + turns)
  {
  }

  lemma NothingYet(here: Stand, held: multiset<string>, models: map<string, ModelSpec>, caps: map<string, nat>,
                   owners: nat -> string, how: Batching)
    ensures Dispatched([], [], here, here, held, held, models, models.Keys, caps, owners, how)
  {
  }

  /** Serving one more model undoes nothing for the others. */
  lemma RoundEnds(tasks: seq<Task>, more: seq<Task>, log: seq<Turn>, turns: seq<Turn>, start: Stand, here: Stand,
                  next: Stand, held: multiset<string>, slots: multiset<string>, models: map<string, ModelSpec>,
                  todo: set<string>, caps: map<string, nat>, owners: nat -> string, how: Batching, m: string)
    requires Dispatched(tasks, log, start, here, held, slots, models, todo, caps, owners, how) && m in todo
    requires AllReady(more, next.table.jobs) && (forall i :: 0 <= i < |more| ==> more[i].model == m)
    requires Shrinks(here.table, next.table, how.now) && more == TasksOf(turns)
    requires Links(turns, here, next) && TurnsOk(turns, how) && OwnersFrom(turns, owners, |log|)
    requires Served(m, slots + Models(more), caps, next.table, how.now, turns)
    ensures Dispatched(tasks + more, log + turns, start, next, held, slots + Models(more), models, todo - {m}, caps,
                       owners, how)
  {
    hide Links, TurnsOk, TasksOf, OwnersFrom, Shrinks, Served, Models, AllReady, AllServed;
    ModelsConcat(tasks, more);
    AllReadyConcat(tasks, more, here.table, next.table, how.now);
    ShrinksChains(start.table, here.table, next.table, how.now);
    Chained(log, turns, start, here, next, how);
    TasksOfConcat(log, turns);
    OwnersGrow(log, turns, owners, 0);
    OneMoreServed(more, models, todo, m, slots, caps, here.table, next.table, how.now, log, turns);
  }

  lemma OneMoreServed(more: seq<Task>, models: map<string, ModelSpec>, todo: set<string>, m: string,
                      slots: multiset<string>, caps: map<string, nat>, t: Table, u: Table, now: int, log: seq<Turn>,
                      turns: seq<Turn>)
    requires m in todo && Shrinks(t, u, now) && forall i :: 0 <= i < |more| ==> more[i].model == m
    requires AllServed(models, todo, slots, caps, t, now, log) && Served(m, slots + Models(more), caps, u, now, turns)
    ensures AllServed(models, todo - {m}, slots + Models(more), caps, u, now, log + turns)
  {
    hide Served, Models, Shrinks;
    forall x | x in models && x !in todo - {m} && models[x].enabled
      ensures Served(x, slots + Models(more), caps, u, now, log + turns)
    {
      if x != m {
        ServedStays(x, m, slots, more, caps, t, u, now, log);
      }
      MoreTurns(x, slots + Models(more), caps, u, now, log, turns);
    }
  }

  lemma PassedOver(tasks: seq<Task>, log: seq<Turn>, start: Stand, here: Stand, held: multiset<string>,
                   slots: multiset<string>, models: map<string, ModelSpec>, todo: set<string>, caps: map<string, nat>,
                   owners: nat -> string, how: Batching, m: string)
    requires Dispatched(tasks, log, start, here, held, slots, models, todo, caps, owners, how)
    requires m in models && !models[m].enabled
    ensures Dispatched(tasks, log, start, here, held, slots, models, todo - {m}, caps, owners, how)
  {
  }

  lemma DispatchEnds(tasks: seq<Task>, log: seq<Turn>, start: Stand, here: Stand, held: multiset<string>,
                     slots: multiset<string>, models: map<string, ModelSpec>, caps: map<string, nat>,
                     owners: nat -> string, how: Batching)
    requires Dispatched(tasks, log, start, here, held, slots, models, {}, caps, owners, how)
    ensures slots == held + Models(tasks) && AllReady(tasks, here.table.jobs)
      && Shrinks(start.table, here.table, how.now)
    ensures tasks == TasksOf(log) && Links(log, start, here) && TurnsOk(log, how) && OwnersFrom(log, owners, 0)
    ensures AllServed(models, {}, slots, caps, here.table, how.now, log)
  {
  }

  lemma CompanionsAreReady(t: Table, m: string, questionsHash: string, id: Id, limit: nat, now: int, owner: string,
                           leaseUntil: int, companions: seq<Id>)
    requires FirstOf(t.jobs, false, Compatible(t, m, questionsHash, now) - {id}, limit, companions)
    requires Ready(Task(m, owner, [id]), t.jobs)
    ensures var u := t.(jobs := Taken(t.jobs, Members(companions), owner, leaseUntil, now));
      Shrinks(t, u, now) && Ready(Task(m, owner, [id] + companions), u.jobs)
  {
    CompatibleAreClaimable(t, m, questionsHash, {id}, limit, now, companions);
    TakenShrinks(t, Members(companions), owner, leaseUntil, now);
    InOrderIsDistinct(t.jobs, false, companions);
    assert forall x :: x in companions <==> x in Members(companions);
  }

  lemma NothingReady(model: string, owner: string, jobs: map<Id, Job>)
    ensures Ready(Task(model, owner, []), jobs)
  {
  }

  lemma FirstIsReady(t: Table, u: Table, job: Job, model: string, owner: string, leaseUntil: int, now: int)
    requires Claim(t, job.jobId, owner, leaseUntil, now) == (u, true) && job.jobId in u.jobs && u.jobs[job.jobId] == job
    requires job.resolvedModel == model
    ensures Ready(Task(model, owner, [job.jobId]), u.jobs)
  {
  }

  lemma RunIsShort(view: View, ok: set<Id>, model: string, picker: PickerState, now: real, settings: SchedulerSettings,
                   rejects: seq<Id>, next: PickerState)
    requires ClaimRun(view, ok, model, picker, now, settings, rejects, None, next)
    ensures |rejects| <= TRIES
  {
  }

  lemma EmptyTurn(model: string, owner: string, before: Stand, rejects: seq<Id>, next: PickerState, how: Batching)
    returns (turn: Turn)
    requires ClaimRun(before.view, ClaimableIds(before.table, how.now), model, before.picker, Epoch(how.now),
                      how.settings, rejects, None, next)
    requires ListsClaimable(before.view, before.table, how.now)
    ensures turn == Turn(model, owner, before, rejects, [],
                         Stand(before.table, Unlisted(before.view, Members(rejects) + {}), next))
    ensures TurnOk(turn, how)
  {
    hide ClaimRun, ListsClaimable;
    assert Members([]) == {} && Members(rejects) + {} == Members(rejects);
    TakeNone(before.table.jobs, owner, how.leaseUntil, how.now);
    turn := Turn(model, owner, before, rejects, [], Stand(before.table, Unlisted(before.view, Members(rejects)), next));
  }

  /** The claim of the chosen job is the first grab. */
  lemma FirstGrab(t: Table, id: Id, owner: string, how: Batching)
    requires Claim(t, id, owner, how.leaseUntil, how.now).1
    ensures id in t.jobs && Grabbed(t, [id], owner, how) == Claim(t, id, owner, how.leaseUntil, how.now).0
    ensures Grabbed(t, [id], owner, how).jobs[id].questionsHash == t.jobs[id].questionsHash
  {
  }

  lemma SecondGrab(t: Table, ids: seq<Id>, owner: string, how: Batching)
    requires ids != [] && ids[0] !in ids[1..]
    ensures var one := Grabbed(t, [ids[0]], owner, how);
      one.(jobs := Taken(one.jobs, Members(ids[1..]), owner, how.leaseUntil, how.now)) == Grabbed(t, ids, owner, how)
  {
  }

  lemma FullTurn(turn: Turn, claimed: Id, how: Batching)
    requires turn.ids != [] && turn.ids[0] == claimed
    requires ListsClaimable(turn.before.view, turn.before.table, how.now)
    requires ClaimRun(turn.before.view, ClaimableIds(turn.before.table, how.now), turn.model, turn.before.picker,
                      Epoch(how.now),
                      how.settings, turn.rejects, Some(claimed), turn.after.picker)
    requires Grouped(turn.before.table, turn.model, turn.owner, turn.ids, how)
    requires turn.after.table == Grabbed(turn.before.table, turn.ids, turn.owner, how)
    requires turn.after.view
      == Unlisted(Unlisted(turn.before.view, Members(turn.rejects) + {claimed}), Members(turn.ids[1..]))
    ensures TurnOk(turn, how)
  {
    hide ClaimRun, Grouped, Grabbed, ListsClaimable;
    assert turn.ids == [claimed] + turn.ids[1..];
    assert Members(turn.ids) == {claimed} + Members(turn.ids[1..]);
  }

  /** Each slot counted is held by one reservation or task, and no model has more
      than its cap. */
  ghost predicate HoldersOk(slots: SlotRuns.Slots, holders: multiset<string>, caps: map<string, nat>) {
    && (forall m :: holders[m] == Busy(slots, m))
    && (forall m :: m in slots.active ==> m in caps && slots.active[m] <= caps[m])
    && slots.inflight == |holders|
  }

  class Service {
    const catalog: Catalog
    const caps: map<string, nat>
    const native: map<string, int>
    var active: map<string, nat>
    var inflight: nat
    var picker: PickerState
    ghost var holders: multiset<string>

    function Slots(): SlotRuns.Slots
      reads this
    {
      SlotRuns.Slots(active, inflight)
    }

    function Active(model: string): nat
      reads this
    {
      Busy(Slots(), model)
    }

    ghost predicate Valid()
      reads this
    {
      HoldersOk(Slots(), holders, caps)
    }

    ghost function Stands(backend: MemoryBackend): Stand
      reads this, backend, backend.index
    {
      Stand(backend.Rows(), backend.index.meta, picker)
    }

    constructor (catalog: Catalog, caps: map<string, nat>, native: map<string, int>)
      ensures Valid() && holders == multiset{} && picker == FRESH
      ensures this.catalog == catalog && this.caps == caps && this.native == native
    {
      this.catalog, this.caps, this.native := catalog, caps, native;
      active, inflight, picker, holders := map[], 0, FRESH, multiset{};
    }

    method TryReserve(model: string) returns (ok: bool)
      requires Valid() && model in caps
      modifies this`active, this`inflight, this`holders
      ensures Valid() && ok == (old(Active(model)) < caps[model])
      ensures Slots() == if ok then AfterReserve(old(Slots()), model) else old(Slots())
      ensures holders == if ok then old(holders) + multiset{model} else old(holders)
      ensures Active(model) == old(Active(model)) + if ok then 1 else 0
    {
      var current := Active(model);
      if current >= caps[model] {
        return false;
      }
      active := active[model := current + 1];
      inflight := inflight + 1;
      holders := holders + multiset{model};
      return true;
    }

    /** Never below zero; for a holder of the slot that never matters. */
    method Release(model: string)
      modifies this`active, this`inflight, this`holders
      ensures Slots() == AfterRelease(old(Slots()), model) && holders == old(holders) - multiset{model}
      ensures old(Valid() && model in holders) ==>
        Valid() && inflight == old(inflight) - 1 && Active(model) == old(Active(model)) - 1
    {
      var current: int := if model in active then active[model] else 1;
      active := active[model := if current - 1 >= 0 then current - 1 else 0];
      inflight := if inflight - 1 >= 0 then inflight - 1 else 0;
      holders := holders - multiset{model};
    }

    // Dispatch

    /** Starts tasks until every enabled model is at its cap, has no work, or used up
        the tries of a claim. log holds every claim that was made, in order, from the
        state dispatch found to the state it leaves. owners yields a new owner for each. */
    method DispatchAvailable(backend: MemoryBackend, now: int, leaseUntil: int, owners: nat -> string,
                             settings: SchedulerSettings)
      returns (tasks: seq<Task>, ghost log: seq<Turn>)
      requires Valid() && backend.Valid() && backend.clock <= now && caps.Keys == catalog.models.Keys
      modifies this, backend`jobs, backend`clock, backend.index
      ensures Valid() && backend.Valid() && holders == old(holders) + Models(tasks)
      ensures AllReady(tasks, backend.jobs) && Shrinks(old(backend.Rows()), backend.Rows(), now)
      ensures tasks == TasksOf(log) && Links(log, old(Stands(backend)), Stands(backend))
      ensures TurnsOk(log, Batching(native, leaseUntil, now, settings)) && OwnersFrom(log, owners, 0)
      ensures AllServed(catalog.models, {}, holders, caps, backend.Rows(), now, log)
      ensures OnlyEnabled(catalog.models, tasks, log)
    {
      hide MemoryBackend.Valid, Valid, Dispatched, Shrinks, AllReady, Served, Models, Links, TurnsOk, TasksOf;
      NoneEnabledYet(catalog.models);
      hide OnlyEnabled, AllOf;
      hide OwnersFrom;
      tasks, log := [], [];
      ghost var how := Batching(native, leaseUntil, now, settings);
      var todo := catalog.models.Keys;
      backend.Tick(now);
      NothingYet(Stands(backend), holders, catalog.models, caps, owners, how);
      var tries := 0;
      while todo != {}
        invariant todo <= catalog.models.Keys && Valid() && backend.Valid() && backend.clock == now && tries == |log|
        invariant Dispatched(tasks, log, old(Stands(backend)), Stands(backend), old(holders), holders, catalog.models,
                             todo, caps, owners, how)
        invariant OnlyEnabled(catalog.models, tasks, log)
        decreases |todo|
      {
        var m :| m in todo;
        if catalog.models[m].enabled {
          ghost var here, slots := Stands(backend), holders;
          var more, tried;
          ghost var turns;
          more, tried, turns := DispatchModel(m, backend, now, leaseUntil, owners, tries, settings);
          RoundEnds(tasks, more, log, turns, old(Stands(backend)), here, Stands(backend), old(holders), slots,
                    catalog.models, todo,
                    caps, owners, how, m);
          StillOnlyEnabled(catalog.models, tasks, more, log, turns, m);
          tasks, log, tries := tasks + more, log + turns, tries + tried;
        } else {
          PassedOver(tasks, log, old(Stands(backend)), Stands(backend), old(holders), holders, catalog.models, todo,
                     caps, owners, how, m);
        }
        todo := todo - {m};
      }
      DispatchEnds(tasks, log, old(Stands(backend)), Stands(backend), old(holders), holders, catalog.models, caps,
                   owners, how);
    }

    /** Fills the slots of one model as far as there is work. */
    method DispatchModel(m: string, backend: MemoryBackend, now: int, leaseUntil: int, owners: nat -> string,
                         earlier: nat, settings: SchedulerSettings)
      returns (tasks: seq<Task>, tried: nat, ghost turns: seq<Turn>)
      requires Valid() && backend.Valid() && backend.clock == now && m in caps
      modifies this, backend`jobs, backend`clock, backend.index
      ensures Valid() && backend.Valid() && backend.clock == now && holders == old(holders) + Models(tasks)
      ensures AllReady(tasks, backend.jobs) && (forall i :: 0 <= i < |tasks| ==> tasks[i].model == m)
      ensures Shrinks(old(backend.Rows()), backend.Rows(), now)
      ensures tasks == TasksOf(turns) && Links(turns, old(Stands(backend)), Stands(backend)) && tried == |turns|
      ensures TurnsOk(turns, Batching(native, leaseUntil, now, settings))
      ensures OwnersFrom(turns, owners, earlier)
      ensures Served(m, holders, caps, backend.Rows(), now, turns) && AllOf(turns, m)
    {
      NoneOf(m);
      hide AllOf;
      hide MemoryBackend.Valid, Shrinks, Ready, AllReady, Served, Models, Links, TurnsOk, TasksOf, OwnersFrom;
      hide HoldersOk;
      tasks, tried, turns := [], 0, [];
      ghost var how := Batching(native, leaseUntil, now, settings);
      ShrinksSelf(backend.Rows(), now);
      NoTasks();
      NoTurns(Stands(backend), how, owners, earlier);
      while true
        invariant Valid() && backend.Valid() && backend.clock == now && tried == |turns|
        invariant holders == old(holders) + Models(tasks) && AllReady(tasks, backend.jobs)
        invariant forall i :: 0 <= i < |tasks| ==> tasks[i].model == m
        invariant Shrinks(old(backend.Rows()), backend.Rows(), now)
        invariant tasks == TasksOf(turns) && Links(turns, old(Stands(backend)), Stands(backend)) && TurnsOk(turns, how)
        invariant OwnersFrom(turns, owners, earlier) && AllOf(turns, m)
        decreases caps[m] - Active(m)
      {
        ghost var before := Stands(backend);
        var task, claims;
        ghost var one;
        task, claims, one := DispatchOne(m, backend, now, leaseUntil, owners, earlier + tried, settings);
        ShrinksChains(old(backend.Rows()), before.table, backend.Rows(), now);
        OwnersGrow(turns, one, owners, earlier);
        Chained(turns, one, old(Stands(backend)), before, Stands(backend), how);
        TasksOfConcat(turns, one);
        AllOfConcat(turns, one, m);
        ghost var sofar := turns;
        turns, tried := sofar + one, tried + claims;
        if task.None? {
          NoTasks();
          AllReadyConcat(tasks, [], before.table, backend.Rows(), now);
          MoreTurns(m, holders, caps, backend.Rows(), now, sofar, one);
          return;
        }
        OneTask(task.value, backend.jobs);
        ModelsConcat(tasks, [task.value]);
        AllReadyConcat(tasks, [task.value], before.table, backend.Rows(), now);
        tasks := tasks + [task.value];
      }
    }

    lemma CapReached(m: string)
      requires Valid() && m in caps && Active(m) >= caps[m]
      ensures holders[m] == caps[m]
    {
    }

    /** Reserves a slot, then claims a job and, where the model runs native batches,
        the jobs that fit with it. Without a job the slot is given back. */
    method DispatchOne(m: string, backend: MemoryBackend, now: int, leaseUntil: int, owners: nat -> string, k: nat,
                       settings: SchedulerSettings)
      returns (task: Option<Task>, claims: nat, ghost turns: seq<Turn>)
      requires Valid() && backend.Valid() && backend.clock == now && m in caps
      modifies this, backend`jobs, backend`clock, backend.index
      ensures Valid() && backend.Valid() && backend.clock == now && Shrinks(old(backend.Rows()), backend.Rows(), now)
      ensures Links(turns, old(Stands(backend)), Stands(backend))
        && TurnsOk(turns, Batching(native, leaseUntil, now, settings))
      ensures |turns| == claims <= 1 && (task.Some? ==> claims == 1) && OwnersFrom(turns, owners, k)
      ensures TasksOf(turns) == (if task.Some? then [task.value] else []) && AllOf(turns, m)
      ensures task.Some? ==>
        holders == old(holders) + multiset{m} && task.value.model == m && Ready(task.value, backend.jobs)
      ensures task.None? ==> holders == old(holders) && Served(m, holders, caps, backend.Rows(), now, turns)
      ensures task.Some? ==> Active(m) == old(Active(m)) + 1 <= caps[m]
    {
      hide MemoryBackend.Valid, HoldersOk, Shrinks, Ready, Idle, TurnOk, Links, TurnsOk, TasksOf, OwnersFrom;
      var owner := owners(k);
      NoneOf(m);
      hide AllOf;
      NoTurns(Stands(backend), Batching(native, leaseUntil, now, settings), owners, k);
      ShrinksSelf(backend.Rows(), now);
      task, claims, turns := None, 0, [];
      var ok := TryReserve(m);
      if !ok {
        CapReached(m);
        return;
      }
      var ids;
      ghost var turn;
      ids, turn := ClaimGroup(m, backend, now, leaseUntil, owner, settings);
      claims, turns := 1, [turn];
      OneOf(turn);
      OneTurn(turn, Batching(native, leaseUntil, now, settings), owners, k);
      if ids == [] {
        Release(m);
        return;
      }
      task := Some(Task(m, owner, ids));
    }

    /** One turn: empty only when the claim ran out of tries or there was no work. */
    method ClaimGroup(m: string, backend: MemoryBackend, now: int, leaseUntil: int, owner: string,
                      settings: SchedulerSettings)
      returns (ids: seq<Id>, ghost turn: Turn)
      requires backend.Valid() && backend.clock == now
      modifies this`picker, backend`jobs, backend`clock, backend.index
      ensures backend.Valid() && backend.clock == now && Shrinks(old(backend.Rows()), backend.Rows(), now)
      ensures turn.model == m && turn.owner == owner && turn.ids == ids
      ensures turn.before == old(Stands(backend)) && turn.after == Stands(backend)
      ensures TurnOk(turn, Batching(native, leaseUntil, now, settings))
      ensures ids == [] ==> GaveUpAt(turn, m) || Idle(backend.Rows(), m, now)
      ensures Ready(Task(m, owner, ids), backend.jobs)
    {
      hide MemoryBackend.Valid, Shrinks, ClaimRun, FirstOf, TurnOk, Unlisted, Grabbed, ListsClaimable, Ready, Idle;
      ghost var how := Batching(native, leaseUntil, now, settings);
      ghost var before := Stands(backend);
      ShrinksSelf(backend.Rows(), now);
      var claimed;
      ghost var rejects;
      claimed, rejects := ClaimFirst(m, backend, now, leaseUntil, owner, settings);
      if claimed.None? {
        turn := EmptyTurn(m, owner, before, rejects, picker, how);
        return [], turn;
      }
      var id := claimed.value.jobId;
      ClaimShrinks(before.table, id, owner, leaseUntil, now);
      FirstGrab(before.table, id, owner, how);
      ids := AddCompanions(m, backend, claimed.value, now, owner, leaseUntil);
      ShrinksChains(before.table, Grabbed(before.table, [id], owner, how), backend.Rows(), now);
      SecondGrab(before.table, ids, owner, how);
      turn := Turn(m, owner, before, rejects, ids, Stands(backend));
      FullTurn(turn, id, how);
    }

    /** The claim of the job the picker chooses. */
    method ClaimFirst(m: string, backend: MemoryBackend, now: int, leaseUntil: int, owner: string,
                      settings: SchedulerSettings)
      returns (claimed: Option<Job>, ghost rejects: seq<Id>)
      requires backend.Valid() && backend.clock == now
      modifies this`picker, backend`jobs, backend`clock, backend.index
      ensures backend.Valid() && backend.clock == now
      ensures ListsClaimable(old(backend.index.meta), old(backend.Rows()), now)
      ensures ClaimRun(old(backend.index.meta), ClaimableIds(old(backend.Rows()), now), m, old(picker), Epoch(now),
                       settings,
                       rejects, IdOf(claimed), picker)
      ensures backend.index.meta
        == Unlisted(old(backend.index.meta), Members(rejects) + if claimed.Some? then {claimed.value.jobId} else {})
      ensures claimed.None? ==> backend.Rows() == old(backend.Rows()) && Ready(Task(m, owner, []), backend.jobs)
      ensures claimed.None? ==> |rejects| == TRIES || Idle(backend.Rows(), m, now)
      ensures claimed.Some? ==>
        Claim(old(backend.Rows()), claimed.value.jobId, owner, leaseUntil, now) == (backend.Rows(), true)
        && claimed.value.jobId in backend.jobs && backend.jobs[claimed.value.jobId] == claimed.value
        && Ready(Task(m, owner, [claimed.value.jobId]), backend.jobs)
    {
      backend.IndexLists();
      NothingReady(m, owner, backend.jobs);
      hide MemoryBackend.Valid, ClaimRun, Unlisted, ListsClaimable, ClaimedOnly, FirstInQueue, ScoresMostOfHeads;
      hide Ready, Claim, ClaimableIds;
      ghost var before := Stands(backend);
      var next;
      claimed, next, rejects := backend.ClaimNext(m, picker, now, owner, leaseUntil, settings);
      picker := next;
      if claimed.None? {
        RunIsShort(before.view, ClaimableIds(before.table, now), m, before.picker, Epoch(now), settings, rejects, next);
      } else {
        FirstIsReady(before.table, backend.Rows(), claimed.value, m, owner, leaseUntil, now);
      }
    }

    method AddCompanions(m: string, backend: MemoryBackend, first: Job, now: int, owner: string, leaseUntil: int)
      returns (ids: seq<Id>)
      requires backend.Valid() && backend.clock == now && Ready(Task(m, owner, [first.jobId]), backend.jobs)
      modifies backend`jobs, backend`clock, backend.index
      ensures backend.Valid() && backend.clock == now && Shrinks(old(backend.Rows()), backend.Rows(), now)
      ensures ids != [] && ids[0] == first.jobId && first.jobId !in ids[1..] && Ready(Task(m, owner, ids), backend.jobs)
      ensures backend.Rows()
        == old(backend.Rows()).(jobs := Taken(old(backend.jobs), Members(ids[1..]), owner, leaseUntil, now))
      ensures backend.index.meta == Unlisted(old(backend.index.meta), Members(ids[1..]))
      ensures if m in native && native[m] > 1
              then Companions(old(backend.Rows()), m, first.questionsHash, {first.jobId}, native[m] - 1, now, ids[1..])
              else ids[1..] == []
    {
      hide MemoryBackend.Valid, Shrinks, FirstOf, Unlisted, Taken;
      ids := [first.jobId];
      if m in native && native[m] > 1 {
        ghost var t := backend.Rows();
        var companions :=
          backend.ClaimCompatible(m, first.questionsHash, {first.jobId}, native[m] - 1, now, owner, leaseUntil);
        CompanionsAreReady(t, m, first.questionsHash, first.jobId, native[m] - 1, now, owner, leaseUntil, companions);
        ids := ids + companions;
        assert ids[1..] == companions;
      } else {
        ShrinksSelf(backend.Rows(), now);
        UnlistNone(backend.index.meta);
        TakeNone(backend.jobs, owner, leaseUntil, now);
        assert ids[1..] == [] && Members([]) == {};
      }
    }

    // A task

    /** From the claim to the release: whatever the probes and inference answer, the
        slot is given back once. Of the group handed to inference the task keeps only
        jobs it was told it had lost and, when inference answered with too few replies,
        those without one, still running under its lease. */
    method Execute(backend: MemoryBackend, task: Task, leaseUntil: int, answers: Id -> Answers, lost: set<Id>,
                   inference: Inference, startedAt: int, endedAt: int)
      returns (ghost group: seq<Job>)
      requires CatalogOk(catalog) && Valid() && task.model in holders && backend.Valid() && Distinct(task.ids)
      requires forall id :: id in task.ids ==> HeldAs(backend.jobs, id, task.owner, Leased)
      modifies this`active, this`inflight, this`holders, backend`jobs, backend.index
      ensures Valid() && backend.Valid() && Slots() == AfterRelease(old(Slots()), task.model)
      ensures holders == old(holders) - multiset{task.model} && inflight == old(inflight) - 1
      ensures forall k :: 0 <= k < |group| ==> group[k].jobId in task.ids
      ensures forall id :: id in task.ids ==> Lost(backend.Rows(), id, task.owner) || InGroup(group, id)
      ensures Settled(backend.jobs, group, task.owner, lost, inference)
      ensures forall id :: id in task.ids && !InGroup(group, id) ==>
        Prepared(catalog, old(backend.jobs), backend.jobs, id, false, task.owner, task.model, leaseUntil, answers(id),
                 startedAt)
      ensures forall k :: 0 <= k < |group| ==>
        CarriedOut(catalog, old(backend.jobs), backend.jobs, task, group, k, leaseUntil, answers, lost, inference,
                   startedAt,
                   endedAt)
      ensures forall id :: id in task.ids && id in old(backend.jobs) ==>
        (RunsAtOnce(old(backend.jobs)[id], task, answers(id), startedAt) ==> InGroup(group, id))
      ensures forall k :: 0 <= k < |group| && Answered(inference, k) && group[k].jobId !in lost ==>
        group[k].jobId in backend.jobs && backend.jobs[group[k].jobId].state == Succeeded
        && backend.jobs[group[k].jobId].result == Some(inference.responses[k])
    {
      hide CatalogOk, MemoryBackend.Valid, Handed, Settled, Prepared, EachPrepared, EachSettled, CarriedOut, OnlyRows;
      hide RunsAtOnce;
      var runnable := Prepare(catalog, backend, task.ids, task.owner, task.model, leaseUntil, answers, startedAt);
      group := runnable;
      ghost var prepared := backend.jobs;
      GroupIsRunning(catalog, backend.jobs, task.ids, runnable, task.owner, task.model, answers);
      GroupIsHanded(catalog, backend.jobs, task.ids, runnable, task.owner, task.model, answers);
      if runnable != [] {
        SettleEach(catalog, backend, runnable, task.owner, lost, inference, answers, endedAt);
      } else {
        NothingToSettle(backend.jobs, task.owner, lost, inference);
        NothingSettled(catalog, backend.jobs, lost, inference, answers, endedAt);
      }
      TaskIsCarriedOut(catalog, old(backend.jobs), prepared, backend.jobs, task, group, leaseUntil, answers, lost,
                       inference, startedAt, endedAt);
      Release(task.model);
    }
  }

  lemma OneTurn(turn: Turn, how: Batching, owners: nat -> string, k: nat)
    requires TurnOk(turn, how) && turn.owner == owners(k)
    ensures Links([turn], turn.before, turn.after) && TurnsOk([turn], how) && OwnersFrom([turn], owners, k)
    ensures TasksOf([turn]) == if turn.ids == [] then [] else [Task(turn.model, turn.owner, turn.ids)]
    ensures GaveUpAt(turn, turn.model) ==> GaveUp([turn], turn.model)
  {
    hide TurnOk;
    assert [turn][..0] == [] && [turn][0] == turn;
  }

  lemma GroupIsRunning(c: Catalog, jobs: map<Id, Job>, ids: seq<Id>, runnable: seq<Job>, owner: string, model: string,
                       answers: Id -> Answers)
    requires TaskRuns.Sorted(c, jobs, ids, runnable, owner, model, answers)
    ensures forall k :: 0 <= k < |runnable| ==>
      runnable[k].jobId in ids && runnable[k].jobId in jobs && OwnsRunning(jobs[runnable[k].jobId], owner)
    ensures OncePerJob(runnable)
    ensures forall id :: id in ids && id in jobs && jobs[id].leaseOwner == Some(owner) ==> InGroup(runnable, id)
  {
    hide RunsOn;
  }

  lemma GroupIsHanded(c: Catalog, jobs: map<Id, Job>, ids: seq<Id>, runnable: seq<Job>, owner: string, model: string,
                      answers: Id -> Answers)
    requires TaskRuns.Sorted(c, jobs, ids, runnable, owner, model, answers)
    ensures forall k :: 0 <= k < |runnable| ==>
      runnable[k].jobId in ids && runnable[k].jobId in jobs && jobs[runnable[k].jobId] == runnable[k]
  {
    hide RunsOn;
  }

  lemma NothingSettled(c: Catalog, jobs: map<Id, Job>, lost: set<Id>, inference: Inference, answers: Id -> Answers,
                       now: int)
    ensures EachSettled(c, jobs, jobs, [], lost, inference, answers, now, Reached([], inference))
  {
  }

  /** The job needs no cancelling, has time left, and its own model is healthy and the
      one whose slot the task holds. */
  predicate RunsAtOnce(job: Job, task: Task, x: Answers, now: int) {
    && job.leaseOwner == Some(task.owner) && !job.cancelRequested
    && (job.deadlineAt.Some? ==> now < job.deadlineAt.value)
    && x.own.ok && job.resolvedModel == task.model
  }

  /** The k-th job handed over was leased to the task, went ahead as prepared, and was
      settled as inference said, or left running where inference said nothing. */
  ghost predicate CarriedOut(c: Catalog, before: map<Id, Job>, after: map<Id, Job>, task: Task, group: seq<Job>, k: nat,
                             leaseUntil: int, answers: Id -> Answers, lost: set<Id>, inference: Inference,
                             startedAt: int, endedAt: int)
    requires k < |group|
  {
    var id, note := group[k].jobId, group[k];
    && id in before && id in after && before[id].leaseOwner == Some(task.owner)
    && PreparedAs(c, before[id], note, true, task.owner, task.model, leaseUntil, answers(id), startedAt)
    && if k < Reached(group, inference)
       then SettledAs(c, note, after[id], note, id in lost, ResponseTo(inference, k), answers(id), endedAt)
       else after[id] == note
  }

  lemma TaskIsCarriedOut(c: Catalog, before: map<Id, Job>, prepared: map<Id, Job>, after: map<Id, Job>, task: Task,
                         group: seq<Job>, leaseUntil: int, answers: Id -> Answers, lost: set<Id>, inference: Inference,
                         startedAt: int, endedAt: int)
    requires EachPrepared(c, before, prepared, task.ids, group, task.owner, task.model, leaseUntil, answers, startedAt)
    requires EachSettled(c, prepared, after, group, lost, inference, answers, endedAt, Reached(group, inference))
    requires OncePerJob(group) && forall k :: 0 <= k < |group| ==>
      group[k].jobId in task.ids && group[k].jobId in prepared && prepared[group[k].jobId] == group[k]
    ensures forall id :: id in task.ids && !InGroup(group, id) ==>
      Prepared(c, before, after, id, false, task.owner, task.model, leaseUntil, answers(id), startedAt)
    ensures forall k :: 0 <= k < |group| ==>
      CarriedOut(c, before, after, task, group, k, leaseUntil, answers, lost, inference, startedAt, endedAt)
    ensures forall id :: id in task.ids && id in before ==>
      (RunsAtOnce(before[id], task, answers(id), startedAt) ==> InGroup(group, id))
    ensures forall k :: 0 <= k < |group| && Answered(inference, k) && group[k].jobId !in lost ==>
      group[k].jobId in after && after[group[k].jobId].state == Succeeded
      && after[group[k].jobId].result == Some(inference.responses[k])
  {
    hide PreparedAs, SettledAs;
    forall id | id in task.ids && !InGroup(group, id)
      ensures Prepared(c, before, after, id, false, task.owner, task.model, leaseUntil, answers(id), startedAt)
    {
      assert forall k :: 0 <= k < |group| ==> group[k].jobId != id;
      assert id in prepared ==> after[id] == prepared[id];
    }
    forall k | 0 <= k < |group|
      ensures CarriedOut(c, before, after, task, group, k, leaseUntil, answers, lost, inference, startedAt, endedAt)
      ensures Answered(inference, k) && group[k].jobId !in lost ==>
        after[group[k].jobId].state == Succeeded && after[group[k].jobId].result == Some(inference.responses[k])
    {
      assert InGroup(group, group[k].jobId);
      assert Prepared(c, before, prepared, group[k].jobId, true, task.owner, task.model, leaseUntil,
                      answers(group[k].jobId), startedAt);
      if k >= Reached(group, inference) {
        assert forall j :: 0 <= j < k ==> group[j].jobId != group[k].jobId;
      } else {
        AnsweredSucceeds(c, before[group[k].jobId], group[k], after[group[k].jobId], group[k].jobId in lost,
                         ResponseTo(inference, k), task, leaseUntil, answers(group[k].jobId), startedAt, endedAt);
      }
    }
    forall id | id in task.ids && id in before && RunsAtOnce(before[id], task, answers(id), startedAt)
      ensures InGroup(group, id)
    {
      assert Prepared(c, before, prepared, id, InGroup(group, id), task.owner, task.model, leaseUntil, answers(id),
                      startedAt);
      AtOnceIsHanded(c, before[id], prepared[id], InGroup(group, id), task, leaseUntil, answers(id), startedAt);
    }
  }

  lemma AtOnceIsHanded(c: Catalog, a: Job, b: Job, handed: bool, task: Task, leaseUntil: int, x: Answers, now: int)
    requires RunsAtOnce(a, task, x, now) && PreparedAs(c, a, b, handed, task.owner, task.model, leaseUntil, x, now)
    ensures handed
  {
  }

  lemma AnsweredSucceeds(c: Catalog, a: Job, note: Job, b: Job, lost: bool, response: Option<string>, task: Task,
                         leaseUntil: int, x: Answers, startedAt: int, endedAt: int)
    requires PreparedAs(c, a, note, true, task.owner, task.model, leaseUntil, x, startedAt)
    requires SettledAs(c, note, b, note, lost, response, x, endedAt)
    ensures !lost && response.Some? ==> b.state == Succeeded && b.result == response
  {
  }

  lemma NoTurns(here: Stand, how: Batching, owners: nat -> string, first: nat)
    ensures OwnersFrom([], owners, first)
    ensures Links([], here, here) && TurnsOk([], how) && TasksOf([]) == []
  {
  }
}
