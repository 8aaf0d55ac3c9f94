/** Slots over whole runs: tasks reserve, claim, prepare, infer, settle and leave in
    any interleaving, with each other and with everything else the service does. */
module SlotRuns {
  import opened Types
  import opened JobTables
  import opened QueueRuns
  import opened LeaseRuns
  import opened ModelCatalogs
  import opened Registries
  import opened ServiceRuns

  // The counters

  /** Slots taken per model, and in all. */
  datatype Slots = Slots(active: map<string, nat>, inflight: nat)

  function Busy(slots: Slots, model: string): nat {
    if model in slots.active then slots.active[model] else 0
  }

  function Floor(n: int): nat {
    if n >= 0 then n else 0
  }

  function AfterReserve(slots: Slots, model: string): Slots {
    Slots(slots.active[model := Busy(slots, model) + 1], slots.inflight + 1)
  }

  /** A slot given back. A model without an entry counts as one, and nothing goes
      below zero. */
  function AfterRelease(slots: Slots, model: string): Slots {
    var current: int := if model in slots.active then slots.active[model] else 1;
    Slots(slots.active[model := Floor(current - 1)], Floor(slots.inflight - 1))
  }

  // Tasks

  /** A job handed to inference: what the task read of it and what the probes said. */
  datatype Hand = Hand(note: Job, own: Health, probe: nat -> bool, again: Health, after: Health)

  datatype Stage =
    | Claiming
    | Preparing(todo: seq<Id>, group: seq<Hand>)
    | Inferring(hands: seq<Hand>)
    | Settling(left: seq<Hand>)
    | Leaving
    | Stranded

  datatype Thread = Thread(model: string, owner: string, stage: Stage)

  /** A task with jobs of its own. */
  predicate Started(thread: Thread) {
    thread.stage != Claiming && thread.stage != Stranded
  }

  /** The service with its slots, the tasks under way, and all tasks and owners there
      have ever been. */
  datatype Site = Site(service: State, slots: Slots, tasks: map<nat, Thread>, granted: set<nat>, owners: set<string>)

  const OPENING := Site(BEGINNING, Slots(map[], 0), map[], {}, {})

  /** ClaimFails and Finish are where a slot is given back: when there is no job, and
      in the end of a task, however it got there. Leave is a return or an exception
      anywhere in the task. ClaimRaises is an exception before there is one, while the
      dispatcher claims jobs for it: nothing gives that slot back. */
  datatype Move =
    | Serve(act: Act)
    | Reserve(task: nat, model: string)
    | ClaimFails(task: nat)
    | ClaimRaises(task: nat)
    | Start(task: nat, owner: string, ids: seq<Id>)
    | HandOver(task: nat, own: Health, probe: nat -> bool, again: Health, after: Health)
    | Skip(task: nat)
    | Infer(task: nat)
    | Reply(task: nat)
    | Settle(task: nat)
    | Leave(task: nat)
    | Finish(task: nat)

  ghost predicate Can(c: Catalog, caps: map<string, nat>, s: Site, move: Move) {
    match move
    case Serve(act) => WorldOk(s.service.world) && May(c, s.service, act)
    case Reserve(k, model) => k !in s.granted && model in caps && Busy(s.slots, model) < caps[model]
    case ClaimFails(k) => k in s.tasks && s.tasks[k].stage == Claiming
    case ClaimRaises(k) => k in s.tasks && s.tasks[k].stage == Claiming
    case Start(k, owner, ids) =>
      k in s.tasks && s.tasks[k].stage == Claiming && owner !in s.owners
      && forall id :: id in ids ==> (id, owner) in s.service.used
    case HandOver(k, own, probe, again, after) =>
      k in s.tasks && s.tasks[k].stage.Preparing? && s.tasks[k].stage.todo != []
      && var token := (s.tasks[k].stage.todo[0], s.tasks[k].owner);
         token in s.service.notes
           && ToRunOn(c, Hand(s.service.notes[token], own, probe, again, after), s.tasks[k].model)
    case Skip(k) => k in s.tasks && s.tasks[k].stage.Preparing? && s.tasks[k].stage.todo != []
    case Infer(k) =>
      k in s.tasks && s.tasks[k].stage.Preparing? && s.tasks[k].stage.todo == [] && s.tasks[k].stage.group != []
    case Reply(k) => k in s.tasks && s.tasks[k].stage.Inferring?
    case Settle(k) => k in s.tasks && s.tasks[k].stage.Settling? && s.tasks[k].stage.left != []
    case Leave(k) => k in s.tasks && Started(s.tasks[k]) && s.tasks[k].stage != Leaving
    case Finish(k) => k in s.tasks && s.tasks[k].stage == Leaving
  }

  /** The target of the job is this model. */
  ghost predicate ToRunOn(c: Catalog, hand: Hand, model: string) {
    ExecutionTarget(c, hand.note.requestedModel, hand.note.resolvedModel, hand.own, hand.probe, hand.again, hand.after)
      == Run(model)
  }

  function AtStage(s: Site, k: nat, stage: Stage): Site
    requires k in s.tasks
  {
    s.(tasks := s.tasks[k := s.tasks[k].(stage := stage)])
  }

  function Without(s: Site, k: nat): Site
    requires k in s.tasks
  {
    s.(tasks := s.tasks - {k}, slots := AfterRelease(s.slots, s.tasks[k].model))
  }

  ghost function Made(c: Catalog, limits: Limits, caps: map<string, nat>, s: Site, move: Move): Site
    requires Can(c, caps, s, move)
  {
    match move
    case Serve(act) => s.(service := Perform(c, limits, s.service, act))
    case Reserve(k, model) =>
      s.(slots := AfterReserve(s.slots, model), tasks := s.tasks[k := Thread(model, "", Claiming)],
         granted := s.granted + {k})
    case ClaimFails(k) => Without(s, k)
    case ClaimRaises(k) => AtStage(s, k, Stranded)
    case Start(k, owner, ids) =>
      s.(tasks := s.tasks[k := Thread(s.tasks[k].model, owner, Preparing(ids, []))], owners := s.owners + {owner})
    case HandOver(k, own, probe, again, after) =>
      var stage := s.tasks[k].stage;
      var note := s.service.notes[(stage.todo[0], s.tasks[k].owner)];
      AtStage(s, k, Preparing(stage.todo[1..], stage.group + [Hand(note, own, probe, again, after)]))
    case Skip(k) => AtStage(s, k, Preparing(s.tasks[k].stage.todo[1..], s.tasks[k].stage.group))
    case Infer(k) => AtStage(s, k, Inferring(s.tasks[k].stage.group))
    case Reply(k) => AtStage(s, k, Settling(s.tasks[k].stage.hands))
    case Settle(k) => AtStage(s, k, Settling(s.tasks[k].stage.left[1..]))
    case Leave(k) => AtStage(s, k, Leaving)
    case Finish(k) => Without(s, k)
  }

  // The invariant

  function On(tasks: map<nat, Thread>, model: string): set<nat> {
    set k | k in tasks && tasks[k].model == model
  }

  /** What a task has in its hands. */
  function Hands(thread: Thread): seq<Hand> {
    match thread.stage
    case Preparing(_, group) => group
    case Inferring(hands) => hands
    case Settling(left) => left
    case _ => []
  }

  ghost predicate OnOwnModel(c: Catalog, thread: Thread) {
    forall h :: h in Hands(thread) ==> ToRunOn(c, h, thread.model) && Faithful(c, h.note.requestedModel, thread.model)
  }

  /** Every slot counted is held by exactly one task under way or one stranded claim,
      and no model has more than its cap. */
  ghost predicate Counted(caps: map<string, nat>, slots: Slots, tasks: map<nat, Thread>) {
    && (forall m :: Busy(slots, m) == |On(tasks, m)|)
    && (forall m :: m in slots.active ==> m in caps && slots.active[m] <= caps[m])
    && slots.inflight == |tasks|
  }

  ghost predicate Owned(s: Site) {
    && (forall k :: k in s.tasks && Started(s.tasks[k]) ==> s.tasks[k].owner in s.owners)
    && (forall j, k :: j in s.tasks && k in s.tasks && j != k && Started(s.tasks[j]) && Started(s.tasks[k]) ==>
          s.tasks[j].owner != s.tasks[k].owner)
  }

  ghost predicate SiteOk(c: Catalog, caps: map<string, nat>, s: Site) {
    && Sound(c, s.service) && Counted(caps, s.slots, s.tasks) && s.tasks.Keys <= s.granted && Owned(s)
    && forall k :: k in s.tasks ==> OnOwnModel(c, s.tasks[k])
  }

  lemma OnGrows(tasks: map<nat, Thread>, k: nat, thread: Thread, m: string)
    requires k !in tasks
    ensures |On(tasks[k := thread], m)| == |On(tasks, m)| + if m == thread.model then 1 else 0
  {
    assert On(tasks[k := thread], m) == if m == thread.model then On(tasks, m) + {k} else On(tasks, m);
  }

  lemma TasksGrow(tasks: map<nat, Thread>, k: nat, thread: Thread)
    requires k !in tasks
    ensures |tasks[k := thread]| == |tasks| + 1
  {
  }

  lemma OneMore(caps: map<string, nat>, slots: Slots, tasks: map<nat, Thread>, k: nat, thread: Thread)
    requires Counted(caps, slots, tasks) && k !in tasks && thread.model in caps
      && Busy(slots, thread.model) < caps[thread.model]
    ensures Counted(caps, AfterReserve(slots, thread.model), tasks[k := thread])
  {
    hide On;
    TasksGrow(tasks, k, thread);
    forall m ensures Busy(AfterReserve(slots, thread.model), m) == |On(tasks[k := thread], m)| {
      OnGrows(tasks, k, thread, m);
    }
  }

  lemma OneLess(caps: map<string, nat>, slots: Slots, tasks: map<nat, Thread>, k: nat)
    requires Counted(caps, slots, tasks) && k in tasks
    ensures Busy(slots, tasks[k].model) >= 1 && slots.inflight >= 1
    ensures Counted(caps, AfterRelease(slots, tasks[k].model), tasks - {k})
  {
    var model, next := tasks[k].model, tasks - {k};
    assert k in On(tasks, model);
    forall m ensures Busy(AfterRelease(slots, model), m) == |On(next, m)| {
      assert On(next, m) == if m == model then On(tasks, m) - {k} else On(tasks, m);
    }
    assert next.Keys == tasks.Keys - {k} && |next| == |next.Keys| && |tasks| == |tasks.Keys| && k in tasks.Keys;
  }

  lemma SameCount(caps: map<string, nat>, slots: Slots, tasks: map<nat, Thread>, k: nat, thread: Thread)
    requires Counted(caps, slots, tasks) && k in tasks && thread.model == tasks[k].model
    ensures Counted(caps, slots, tasks[k := thread])
  {
    var next := tasks[k := thread];
    forall m ensures On(next, m) == On(tasks, m) {
    }
    assert next.Keys == tasks.Keys && |next| == |next.Keys| && |tasks| == |tasks.Keys|;
  }

  lemma MoveKeepsCount(c: Catalog, limits: Limits, caps: map<string, nat>, s: Site, move: Move)
    requires Counted(caps, s.slots, s.tasks) && s.tasks.Keys <= s.granted && Can(c, caps, s, move)
    ensures var u := Made(c, limits, caps, s, move); Counted(caps, u.slots, u.tasks) && u.tasks.Keys <= u.granted
  {
    hide Counted, ToRunOn, May, WorldOk, Perform, AfterRelease, AfterReserve;
    match move
    case Serve(act) =>
    case Reserve(k, model) => OneMore(caps, s.slots, s.tasks, k, Thread(model, "", Claiming));
    case ClaimFails(k) => OneLess(caps, s.slots, s.tasks, k);
    case Finish(k) => OneLess(caps, s.slots, s.tasks, k);
    case _ => SameCount(caps, s.slots, s.tasks, move.task, Made(c, limits, caps, s, move).tasks[move.task]);
  }

  lemma MoveKeepsOwners(c: Catalog, limits: Limits, caps: map<string, nat>, s: Site, move: Move)
    requires Owned(s) && Can(c, caps, s, move)
    ensures Owned(Made(c, limits, caps, s, move))
  {
    hide ToRunOn, May, WorldOk, Perform, AfterRelease, AfterReserve;
  }

  lemma MoveKeepsModels(c: Catalog, limits: Limits, caps: map<string, nat>, s: Site, move: Move, k: nat)
    requires CatalogOk(c) && Sound(c, s.service) && Can(c, caps, s, move)
    requires (k in s.tasks ==> OnOwnModel(c, s.tasks[k])) && k in Made(c, limits, caps, s, move).tasks
    ensures OnOwnModel(c, Made(c, limits, caps, s, move).tasks[k])
  {
    hide CatalogOk, Sound, ToRunOn, Faithful, May, WorldOk, Perform, AfterRelease, AfterReserve;
    if move.HandOver? && move.task == k {
      var token := (s.tasks[k].stage.todo[0], s.tasks[k].owner);
      HandIsFaithful(c, s.service, token, Hand(s.service.notes[token], move.own, move.probe, move.again, move.after),
                     s.tasks[k].model);
    }
  }

  lemma HandIsFaithful(c: Catalog, s: State, token: Token, hand: Hand, model: string)
    requires CatalogOk(c) && Sound(c, s) && token in s.notes && hand.note == s.notes[token] && ToRunOn(c, hand, model)
    ensures Faithful(c, hand.note.requestedModel, model)
  {
  }

  /** Every move keeps the invariant. */
  lemma MoveKeepsOk(c: Catalog, limits: Limits, caps: map<string, nat>, s: Site, move: Move)
    requires CatalogOk(c) && SiteOk(c, caps, s) && Can(c, caps, s, move)
    ensures SiteOk(c, caps, Made(c, limits, caps, s, move))
  {
    hide CatalogOk, Sound, Counted, Owned, OnOwnModel, Made, Can;
    MoveKeepsService(c, limits, caps, s, move);
    MoveKeepsCount(c, limits, caps, s, move);
    MoveKeepsOwners(c, limits, caps, s, move);
    forall k | k in Made(c, limits, caps, s, move).tasks
      ensures OnOwnModel(c, Made(c, limits, caps, s, move).tasks[k]) {
      MoveKeepsModels(c, limits, caps, s, move, k);
    }
  }

  lemma MoveKeepsService(c: Catalog, limits: Limits, caps: map<string, nat>, s: Site, move: Move)
    requires CatalogOk(c) && Sound(c, s.service) && Can(c, caps, s, move)
    ensures Sound(c, Made(c, limits, caps, s, move).service)
  {
    hide CatalogOk, Sound, ToRunOn, May, WorldOk, Perform, AfterRelease, AfterReserve;
    if move.Serve? {
      PerformKeepsSound(c, limits, s.service, move.act);
    }
  }

  // Whole runs

  ghost predicate IsSiteRun(c: Catalog, limits: Limits, caps: map<string, nat>, sites: seq<Site>, moves: seq<Move>) {
    IsPath(c, limits, caps, sites, moves) && sites[0] == OPENING
  }

  ghost predicate IsPath(c: Catalog, limits: Limits, caps: map<string, nat>, sites: seq<Site>, moves: seq<Move>) {
    && |sites| == |moves| + 1
    && forall i :: 0 <= i < |moves| ==>
      Can(c, caps, sites[i], moves[i]) && sites[i + 1] == Made(c, limits, caps, sites[i], moves[i])
  }

  lemma {:induction false} SiteStaysOk(c: Catalog, limits: Limits, caps: map<string, nat>, sites: seq<Site>,
                                       moves: seq<Move>, i: nat)
    requires CatalogOk(c) && IsSiteRun(c, limits, caps, sites, moves) && i <= |moves|
    ensures SiteOk(c, caps, sites[i])
  {
    hide CatalogOk, Sound, Can, Made;
    if i == 0 {
      BeginningIsSound(c);
    } else {
      SiteStaysOk(c, limits, caps, sites, moves, i - 1);
      MoveKeepsOk(c, limits, caps, sites[i - 1], moves[i - 1]);
    }
  }

  // What the counters mean

  /** The tasks started on a model, from their claim to their end. */
  function Live(tasks: map<nat, Thread>, model: string): set<nat> {
    set k | k in tasks && tasks[k].model == model && Started(tasks[k])
  }

  /** The slots of a model reserved for a claim that is under way. */
  function ClaimingOn(tasks: map<nat, Thread>, model: string): set<nat> {
    set k | k in tasks && tasks[k].model == model && tasks[k].stage == Claiming
  }

  /** And those of claims that raised. */
  function StrandedOn(tasks: map<nat, Thread>, model: string): set<nat> {
    set k | k in tasks && tasks[k].model == model && tasks[k].stage == Stranded
  }

  ghost function Sum(active: map<string, nat>, models: set<string>): nat
    requires models <= active.Keys
  {
    if models == {} then 0
    else
      var m :| m in models;
      active[m] + Sum(active, models - {m})
  }

  lemma {:induction false} SumTakesAny(active: map<string, nat>, models: set<string>, x: string)
    requires models <= active.Keys && x in models
    ensures Sum(active, models) == active[x] + Sum(active, models - {x})
  {
    var m :| m in models && Sum(active, models) == active[m] + Sum(active, models - {m});
    if m != x {
      SumTakesAny(active, models - {m}, x);
      SumTakesAny(active, models - {x}, m);
      assert models - {m} - {x} == models - {x} - {m};
    }
  }

  /** The tasks on the models. */
  function OnAny(tasks: map<nat, Thread>, models: set<string>): set<nat> {
    set k | k in tasks && tasks[k].model in models
  }

  lemma {:induction false} SumCountsTasks(caps: map<string, nat>, slots: Slots, tasks: map<nat, Thread>,
                                          models: set<string>)
    requires Counted(caps, slots, tasks) && models <= slots.active.Keys
    ensures Sum(slots.active, models) == |OnAny(tasks, models)|
  {
    hide Counted;
    if models == {} {
      assert OnAny(tasks, models) == {};
    } else {
      var m :| m in models;
      SumTakesAny(slots.active, models, m);
      SumCountsTasks(caps, slots, tasks, models - {m});
      assert OnAny(tasks, models) == On(tasks, m) + OnAny(tasks, models - {m});
      assert On(tasks, m) !! OnAny(tasks, models - {m});
      CountOf(caps, slots, tasks, m);
    }
  }

  lemma CountOf(caps: map<string, nat>, slots: Slots, tasks: map<nat, Thread>, m: string)
    requires Counted(caps, slots, tasks)
    ensures Busy(slots, m) == |On(tasks, m)| && (m in slots.active ==> m in caps && slots.active[m] <= caps[m])
    ensures slots.inflight == |tasks|
  {
  }

  lemma EveryTaskCounts(caps: map<string, nat>, slots: Slots, tasks: map<nat, Thread>)
    requires Counted(caps, slots, tasks)
    ensures OnAny(tasks, slots.active.Keys) == tasks.Keys
  {
    forall k | k in tasks ensures tasks[k].model in slots.active {
      assert k in On(tasks, tasks[k].model);
    }
  }

  lemma Fewer(a: set<nat>, b: set<nat>)
    requires a <= b
    ensures |a| <= |b|
  {
    assert b == a + (b - a);
  }

  /** In every state of every run: the tasks live on a model are at most its slots
      taken, which are at most its cap; the slots taken in all are the sum over the
      models; and without tasks no slot is taken. */
  lemma SlotsAreAccounted(c: Catalog, limits: Limits, caps: map<string, nat>, sites: seq<Site>, moves: seq<Move>,
                          i: nat, model: string)
    requires CatalogOk(c) && IsSiteRun(c, limits, caps, sites, moves) && i <= |moves|
    ensures var s := sites[i];
      && |Live(s.tasks, model)| <= Busy(s.slots, model)
      && (Busy(s.slots, model) > 0 ==> model in caps && Busy(s.slots, model) <= caps[model])
      && s.slots.inflight == Sum(s.slots.active, s.slots.active.Keys) == |s.tasks|
      && (s.tasks == map[] ==> Busy(s.slots, model) == 0 && s.slots.inflight == 0)
  {
    hide CatalogOk, Can, Made, Sound, Counted, Owned, OnOwnModel;
    SiteStaysOk(c, limits, caps, sites, moves, i);
    var s := sites[i];
    CountOf(caps, s.slots, s.tasks, model);
    Fewer(Live(s.tasks, model), On(s.tasks, model));
    SumCountsTasks(caps, s.slots, s.tasks, s.slots.active.Keys);
    EveryTaskCounts(caps, s.slots, s.tasks);
    assert s.tasks == map[] ==> On(s.tasks, model) == {};
    assert |s.tasks| == |s.tasks.Keys|;
  }

  /** Whatever a task has in its hands is to run on the model whose slot it holds, a
      model its caller named: a job sent elsewhere was not kept. And no two tasks ever
      hold the lease of one job. */
  lemma HandsAreOnOwnSlot(c: Catalog, limits: Limits, caps: map<string, nat>, sites: seq<Site>, moves: seq<Move>,
                          i: nat, k: nat)
    requires CatalogOk(c) && IsSiteRun(c, limits, caps, sites, moves) && i <= |moves| && k in sites[i].tasks
    ensures forall h :: h in Hands(sites[i].tasks[k]) ==>
      ToRunOn(c, h, sites[i].tasks[k].model) && Faithful(c, h.note.requestedModel, sites[i].tasks[k].model)
    ensures Hands(sites[i].tasks[k]) != [] ==> Busy(sites[i].slots, sites[i].tasks[k].model) >= 1
    ensures var tasks, t := sites[i].tasks, sites[i].service.world.table;
      forall j, id :: j in tasks && j != k && Started(tasks[j]) && Started(tasks[k]) ==>
        Lost(t, id, tasks[j].owner) || Lost(t, id, tasks[k].owner)
  {
    hide CatalogOk, Can, Made, Sound, ToRunOn, Faithful;
    SiteStaysOk(c, limits, caps, sites, moves, i);
    assert k in On(sites[i].tasks, sites[i].tasks[k].model);
  }

  // Each slot is given back once

  predicate GivesBack(move: Move, k: nat) {
    (move.ClaimFails? || move.Finish?) && move.task == k
  }

  function Returns(moves: seq<Move>, k: nat): nat {
    if moves == [] then 0
    else Returns(moves[..|moves| - 1], k) + if GivesBack(moves[|moves| - 1], k) then 1 else 0
  }

  predicate Reserves(move: Move, k: nat) {
    move.Reserve? && move.task == k
  }

  function Grants(moves: seq<Move>, k: nat): nat {
    if moves == [] then 0
    else Grants(moves[..|moves| - 1], k) + if Reserves(moves[|moves| - 1], k) then 1 else 0
  }

  lemma MoveTouches(c: Catalog, limits: Limits, caps: map<string, nat>, s: Site, move: Move, k: nat)
    requires Can(c, caps, s, move)
    ensures var u := Made(c, limits, caps, s, move);
      && (k in u.granted <==> k in s.granted || Reserves(move, k))
      && (k in u.tasks <==> Reserves(move, k) || (k in s.tasks && !GivesBack(move, k)))
      && (GivesBack(move, k) ==> k in s.tasks) && (Reserves(move, k) ==> k !in s.granted)
  {
    hide ToRunOn, May, WorldOk, Perform, AfterRelease, AfterReserve;
  }

  /** However a task ends, its slot is given back exactly once, when it ends: not while
      it lives, and never again. When it is, the floor at zero does nothing. The slot
      of a claim that raised is never given back. */
  lemma {:induction false} EachSlotIsReturnedOnce(c: Catalog, limits: Limits, caps: map<string, nat>, sites: seq<Site>,
                                                  moves: seq<Move>, i: nat, k: nat)
    requires CatalogOk(c) && IsSiteRun(c, limits, caps, sites, moves) && i <= |moves|
    ensures Grants(moves[..i], k) == if k in sites[i].granted then 1 else 0
    ensures Returns(moves[..i], k) == if k in sites[i].granted && k !in sites[i].tasks then 1 else 0
    ensures ClaimRaises(k) in moves[..i] <==> k in sites[i].tasks && sites[i].tasks[k].stage == Stranded
    ensures i < |moves| && GivesBack(moves[i], k) ==>
      k in sites[i].tasks && Busy(sites[i].slots, sites[i].tasks[k].model) >= 1 && sites[i].slots.inflight >= 1
  {
    hide CatalogOk, Sound, Can, Made, Owned, OnOwnModel;
    SiteStaysOk(c, limits, caps, sites, moves, i);
    if i > 0 {
      EachSlotIsReturnedOnce(c, limits, caps, sites, moves, i - 1, k);
      MoveTouches(c, limits, caps, sites[i - 1], moves[i - 1], k);
      SiteStaysOk(c, limits, caps, sites, moves, i - 1);
      MoveStrands(c, limits, caps, sites[i - 1], moves[i - 1], k);
      assert moves[..i][..i - 1] == moves[..i - 1];
      assert moves[..i] == moves[..i - 1] + [moves[i - 1]];
    }
    if i < |moves| && GivesBack(moves[i], k) {
      MoveTouches(c, limits, caps, sites[i], moves[i], k);
      OneLess(caps, sites[i].slots, sites[i].tasks, k);
    }
  }

  // A task comes to an end

  /** Moves the task itself makes once it has started. */
  predicate OwnMove(move: Move, k: nat) {
    (move.HandOver? || move.Skip? || move.Infer? || move.Reply? || move.Settle? || move.Leave? || move.Finish?)
    && move.task == k
  }

  /** How many of them it has left at most. */
  function Work(stage: Stage): nat {
    match stage
    case Preparing(todo, group) => 2 * |todo| + |group| + 4
    case Inferring(hands) => |hands| + 3
    case Settling(left) => |left| + 2
    case Leaving => 1
    case _ => 0
  }

  function WorkOf(tasks: map<nat, Thread>, k: nat): nat {
    if k in tasks then Work(tasks[k].stage) else 0
  }

  lemma OwnMovesWearOut(c: Catalog, limits: Limits, caps: map<string, nat>, s: Site, move: Move, k: nat)
    requires Can(c, caps, s, move) && k in s.granted && s.tasks.Keys <= s.granted && !move.Start?
    ensures WorkOf(Made(c, limits, caps, s, move).tasks, k) + (if OwnMove(move, k) then 1 else 0) <= WorkOf(s.tasks, k)
  {
    hide ToRunOn, May, WorldOk, Perform, AfterRelease, AfterReserve;
  }

  function OwnMoves(moves: seq<Move>, k: nat, i: nat, j: nat): nat
    requires i <= j <= |moves|
    decreases j
  {
    if i == j then 0 else OwnMoves(moves, k, i, j - 1) + if OwnMove(moves[j - 1], k) then 1 else 0
  }

  lemma StartsOnce(c: Catalog, limits: Limits, caps: map<string, nat>, s: Site, move: Move, k: nat)
    requires Can(c, caps, s, move) && k in s.granted && (k in s.tasks ==> s.tasks[k].stage != Claiming)
    ensures var u := Made(c, limits, caps, s, move);
      k in u.granted && (k in u.tasks ==> k in s.tasks && u.tasks[k].stage != Claiming)
    ensures move.Start? ==> move.task != k
  {
    hide ToRunOn, May, WorldOk, Perform, AfterRelease, AfterReserve;
  }

  lemma StartWork(c: Catalog, limits: Limits, caps: map<string, nat>, s: Site, k: nat, owner: string, ids: seq<Id>)
    requires Can(c, caps, s, Start(k, owner, ids)) && s.tasks.Keys <= s.granted
    ensures var u := Made(c, limits, caps, s, Start(k, owner, ids));
      k in u.granted && k in u.tasks && u.tasks[k].stage == Preparing(ids, []) && WorkOf(u.tasks, k) == 2 * |ids| + 4
  {
    hide ToRunOn, May, WorldOk, Perform, AfterRelease, AfterReserve;
  }

  /** A task started with n jobs makes at most 2 n + 4 moves of its own, whatever happens
      in between, and none after it has left. */
  lemma {:induction false} TaskComesToAnEnd(c: Catalog, limits: Limits, caps: map<string, nat>, sites: seq<Site>,
                                            moves: seq<Move>, i: nat, j: nat, k: nat, owner: string, ids: seq<Id>)
    requires CatalogOk(c) && IsSiteRun(c, limits, caps, sites, moves) && i < j <= |moves|
    requires moves[i] == Start(k, owner, ids)
    ensures k in sites[j].granted && (k in sites[j].tasks ==> sites[j].tasks[k].stage != Claiming)
    ensures OwnMoves(moves, k, i + 1, j) + WorkOf(sites[j].tasks, k) <= 2 * |ids| + 4
    decreases j
  {
    hide CatalogOk, Sound, Can, Made, Owned, OnOwnModel, Counted, Work;
    SiteStaysOk(c, limits, caps, sites, moves, j - 1);
    if j == i + 1 {
      StartWork(c, limits, caps, sites[i], k, owner, ids);
    } else {
      TaskComesToAnEnd(c, limits, caps, sites, moves, i, j - 1, k, owner, ids);
      StartsOnce(c, limits, caps, sites[j - 1], moves[j - 1], k);
      if moves[j - 1].Start? {
        OtherStarts(c, limits, caps, sites[j - 1], moves[j - 1], k);
      } else {
        OwnMovesWearOut(c, limits, caps, sites[j - 1], moves[j - 1], k);
      }
    }
  }

  lemma OtherStarts(c: Catalog, limits: Limits, caps: map<string, nat>, s: Site, move: Move, k: nat)
    requires Can(c, caps, s, move) && move.Start? && move.task != k
    ensures WorkOf(Made(c, limits, caps, s, move).tasks, k) == WorkOf(s.tasks, k) && !OwnMove(move, k)
  {
    hide ToRunOn, May, WorldOk, Perform, AfterRelease, AfterReserve;
  }

  // Claims that raise

  predicate IsStranded(tasks: map<nat, Thread>, k: nat) {
    k in tasks && tasks[k].stage == Stranded
  }

  /** A claim is stranded by raising and in no other way, and stays so. */
  lemma MoveStrands(c: Catalog, limits: Limits, caps: map<string, nat>, s: Site, move: Move, k: nat)
    requires Can(c, caps, s, move) && s.tasks.Keys <= s.granted
    ensures var u := Made(c, limits, caps, s, move);
      && (IsStranded(u.tasks, k) <==> IsStranded(s.tasks, k) || move == ClaimRaises(k))
      && (move == ClaimRaises(k) ==> k in s.tasks && !IsStranded(s.tasks, k) && u.tasks[k].model == s.tasks[k].model)
      && (IsStranded(s.tasks, k) ==> u.tasks[k] == s.tasks[k])
  {
    hide ToRunOn, May, WorldOk, Perform, AfterRelease, AfterReserve;
  }

  /** The claims for a model that raised in the first n moves. */
  ghost function RaisedOn(sites: seq<Site>, moves: seq<Move>, model: string, n: nat): nat
    requires n <= |moves| < |sites|
  {
    if n == 0 then 0
    else RaisedOn(sites, moves, model, n - 1) + if RaisesFor(sites[n - 1], moves[n - 1], model) then 1 else 0
  }

  predicate RaisesFor(s: Site, move: Move, model: string) {
    move.ClaimRaises? && move.task in s.tasks && s.tasks[move.task].model == model
  }

  lemma MoveStrandsOn(c: Catalog, limits: Limits, caps: map<string, nat>, s: Site, move: Move, model: string)
    requires Can(c, caps, s, move) && s.tasks.Keys <= s.granted
    ensures var u := Made(c, limits, caps, s, move);
      && StrandedOn(s.tasks, model) <= StrandedOn(u.tasks, model)
      && |StrandedOn(u.tasks, model)| == |StrandedOn(s.tasks, model)| + if RaisesFor(s, move, model) then 1 else 0
  {
    hide Can, Made;
    var u := Made(c, limits, caps, s, move);
    forall k
      ensures k in StrandedOn(u.tasks, model) <==>
        k in StrandedOn(s.tasks, model) || (RaisesFor(s, move, model) && k == move.task)
      ensures RaisesFor(s, move, model) ==> move.task !in StrandedOn(s.tasks, model)
    {
      MoveStrands(c, limits, caps, s, move, k);
      if move.ClaimRaises? { MoveStrands(c, limits, caps, s, move, move.task); }
    }
    if RaisesFor(s, move, model) {
      assert StrandedOn(u.tasks, model) == StrandedOn(s.tasks, model) + {move.task};
    } else {
      assert StrandedOn(u.tasks, model) == StrandedOn(s.tasks, model);
    }
  }

  lemma {:induction false} StrandedAreRaised(c: Catalog, limits: Limits, caps: map<string, nat>, sites: seq<Site>,
                                             moves: seq<Move>, i: nat, model: string)
    requires CatalogOk(c) && IsSiteRun(c, limits, caps, sites, moves) && i <= |moves|
    ensures |StrandedOn(sites[i].tasks, model)| == RaisedOn(sites, moves, model, i)
  {
    hide CatalogOk, Can, Made, Sound, Counted, Owned, OnOwnModel;
    if i == 0 {
      assert StrandedOn(OPENING.tasks, model) == {};
    } else {
      StrandedAreRaised(c, limits, caps, sites, moves, i - 1, model);
      SiteStaysOk(c, limits, caps, sites, moves, i - 1);
      MoveStrandsOn(c, limits, caps, sites[i - 1], moves[i - 1], model);
    }
  }

  /** In every state of every run the slots taken on a model are those of its live
      tasks, of its claims under way, and of every claim for it that ever raised. */
  lemma BusyIsLiveOrRaised(c: Catalog, limits: Limits, caps: map<string, nat>, sites: seq<Site>, moves: seq<Move>,
                           i: nat, model: string)
    requires CatalogOk(c) && IsSiteRun(c, limits, caps, sites, moves) && i <= |moves|
    ensures Busy(sites[i].slots, model)
      == |Live(sites[i].tasks, model)| + |ClaimingOn(sites[i].tasks, model)| + RaisedOn(sites, moves, model, i)
  {
    hide CatalogOk, Can, Made, Sound, Counted, Owned, OnOwnModel;
    SiteStaysOk(c, limits, caps, sites, moves, i);
    StrandedAreRaised(c, limits, caps, sites, moves, i, model);
    var s := sites[i];
    CountOf(caps, s.slots, s.tasks, model);
    ThreeParts(s.tasks, model);
  }

  lemma ThreeParts(tasks: map<nat, Thread>, model: string)
    ensures |On(tasks, model)| == |Live(tasks, model)| + |ClaimingOn(tasks, model)| + |StrandedOn(tasks, model)|
  {
    assert On(tasks, model) == Live(tasks, model) + ClaimingOn(tasks, model) + StrandedOn(tasks, model);
    assert Live(tasks, model) !! ClaimingOn(tasks, model);
    assert Live(tasks, model) + ClaimingOn(tasks, model) !! StrandedOn(tasks, model);
  }

  // What can still happen from a state

  /** Moves that lead from one state to another. */
  ghost predicate Leads(c: Catalog, limits: Limits, caps: map<string, nat>, s: Site, sites: seq<Site>, moves: seq<Move>,
                        t: Site) {
    IsPath(c, limits, caps, sites, moves) && sites[0] == s && sites[|moves|] == t
  }

  lemma NoMoves(c: Catalog, limits: Limits, caps: map<string, nat>, s: Site)
    ensures Leads(c, limits, caps, s, [s], [], s)
  {
  }

  lemma OneMove(c: Catalog, limits: Limits, caps: map<string, nat>, s: Site, move: Move)
    requires Can(c, caps, s, move)
    ensures Leads(c, limits, caps, s, [s, Made(c, limits, caps, s, move)], [move], Made(c, limits, caps, s, move))
  {
    hide Can, Made;
  }

  lemma ThenLeads(c: Catalog, limits: Limits, caps: map<string, nat>, s: Site, a: seq<Site>, x: seq<Move>, t: Site,
                  b: seq<Site>, y: seq<Move>, u: Site)
    requires Leads(c, limits, caps, s, a, x, t) && Leads(c, limits, caps, t, b, y, u)
    ensures |b| >= 1 && Leads(c, limits, caps, s, a + b[1..], x + y, u)
  {
    hide Can, Made;
    var sites, moves := a + b[1..], x + y;
    forall i | 0 <= i < |moves|
      ensures Can(c, caps, sites[i], moves[i]) && sites[i + 1] == Made(c, limits, caps, sites[i], moves[i])
    {
      if i >= |x| {
        assert sites[i] == b[i - |x|] && sites[i + 1] == b[i - |x| + 1] && moves[i] == y[i - |x|];
      }
    }
  }

  /** A task that is not stranded can give its slot back in at most two moves. */
  lemma EndOne(c: Catalog, limits: Limits, caps: map<string, nat>, s: Site, k: nat)
    returns (sites: seq<Site>, moves: seq<Move>, t: Site)
    requires k in s.tasks && s.tasks[k].stage != Stranded
    ensures Leads(c, limits, caps, s, sites, moves, t) && t.tasks == s.tasks - {k} && t.granted == s.granted
  {
    hide Leads;
    if s.tasks[k].stage == Claiming {
      OneMove(c, limits, caps, s, ClaimFails(k));
      sites, moves, t := [s, Made(c, limits, caps, s, ClaimFails(k))], [ClaimFails(k)],
        Made(c, limits, caps, s, ClaimFails(k));
    } else if s.tasks[k].stage == Leaving {
      OneMove(c, limits, caps, s, Finish(k));
      sites, moves, t := [s, Made(c, limits, caps, s, Finish(k))], [Finish(k)], Made(c, limits, caps, s, Finish(k));
    } else {
      var left := Made(c, limits, caps, s, Leave(k));
      t := Made(c, limits, caps, left, Finish(k));
      OneMove(c, limits, caps, s, Leave(k));
      OneMove(c, limits, caps, left, Finish(k));
      ThenLeads(c, limits, caps, s, [s, left], [Leave(k)], left, [left, t], [Finish(k)], t);
      sites, moves := [s, left] + [left, t][1..], [Leave(k)] + [Finish(k)];
      assert left.tasks - {k} == s.tasks - {k};
    }
  }

  /** The tasks that can still end. */
  function Unstranded(tasks: map<nat, Thread>): set<nat> {
    set k | k in tasks && tasks[k].stage != Stranded
  }

  /** All of them can, one after the other. */
  lemma {:induction false} EndAll(c: Catalog, limits: Limits, caps: map<string, nat>, s: Site)
    returns (sites: seq<Site>, moves: seq<Move>, t: Site)
    ensures Leads(c, limits, caps, s, sites, moves, t) && t.tasks == s.tasks - Unstranded(s.tasks)
      && t.granted == s.granted
    decreases |Unstranded(s.tasks)|
  {
    hide Leads, IsPath;
    if Unstranded(s.tasks) == {} {
      NoMoves(c, limits, caps, s);
      sites, moves, t := [s], [], s;
      assert s.tasks - {} == s.tasks;
    } else {
      var k :| k in Unstranded(s.tasks);
      var a, x, next := EndOne(c, limits, caps, s, k);
      assert Unstranded(next.tasks) == Unstranded(s.tasks) - {k};
      var b, y;
      b, y, t := EndAll(c, limits, caps, next);
      ThenLeads(c, limits, caps, s, a, x, next, b, y, t);
      sites, moves := a + b[1..], x + y;
      assert s.tasks - {k} - (Unstranded(s.tasks) - {k}) == s.tasks - Unstranded(s.tasks);
    }
  }

  lemma {:induction false} PathKeepsCount(c: Catalog, limits: Limits, caps: map<string, nat>, sites: seq<Site>,
                                          moves: seq<Move>, i: nat)
    requires IsPath(c, limits, caps, sites, moves) && i <= |moves|
    requires Counted(caps, sites[0].slots, sites[0].tasks) && sites[0].tasks.Keys <= sites[0].granted
    ensures Counted(caps, sites[i].slots, sites[i].tasks) && sites[i].tasks.Keys <= sites[i].granted
  {
    hide Can, Made, Counted;
    if i > 0 {
      PathKeepsCount(c, limits, caps, sites, moves, i - 1);
      MoveKeepsCount(c, limits, caps, sites[i - 1], moves[i - 1]);
    }
  }

  lemma {:induction false} PathKeepsStranded(c: Catalog, limits: Limits, caps: map<string, nat>, sites: seq<Site>,
                                             moves: seq<Move>, i: nat, k: nat)
    requires IsPath(c, limits, caps, sites, moves) && i <= |moves| && IsStranded(sites[0].tasks, k)
    requires Counted(caps, sites[0].slots, sites[0].tasks) && sites[0].tasks.Keys <= sites[0].granted
    ensures k in sites[i].tasks && sites[i].tasks[k] == sites[0].tasks[k]
  {
    hide Can, Made, Counted;
    if i > 0 {
      PathKeepsStranded(c, limits, caps, sites, moves, i - 1, k);
      PathKeepsCount(c, limits, caps, sites, moves, i - 1);
      MoveStrands(c, limits, caps, sites[i - 1], moves[i - 1], k);
    }
  }

  ghost predicate CanEnd(c: Catalog, limits: Limits, caps: map<string, nat>, s: Site, k: nat) {
    exists sites, moves, t :: Leads(c, limits, caps, s, sites, moves, t) && k !in t.tasks
  }

  lemma CountedIn(c: Catalog, limits: Limits, caps: map<string, nat>, sites: seq<Site>, moves: seq<Move>, i: nat)
    requires CatalogOk(c) && IsSiteRun(c, limits, caps, sites, moves) && i <= |moves|
    ensures Counted(caps, sites[i].slots, sites[i].tasks) && sites[i].tasks.Keys <= sites[i].granted
  {
    hide CatalogOk, Can, Made, Sound, Counted, Owned, OnOwnModel;
    SiteStaysOk(c, limits, caps, sites, moves, i);
  }

  /** A task under way in any state of any run can still end, and give its slot back, if
      and only if its claim did not raise. */
  lemma TaskCanEndExactlyWhen(c: Catalog, limits: Limits, caps: map<string, nat>, sites: seq<Site>, moves: seq<Move>,
                              i: nat, k: nat)
    requires CatalogOk(c) && IsSiteRun(c, limits, caps, sites, moves) && i <= |moves| && k in sites[i].tasks
    ensures CanEnd(c, limits, caps, sites[i], k) <==> ClaimRaises(k) !in moves[..i]
  {
    hide CatalogOk, IsPath, Counted, Leads, IsSiteRun;
    assert i < |sites| by { RunLength(c, limits, caps, sites, moves); }
    CountedIn(c, limits, caps, sites, moves, i);
    EachSlotIsReturnedOnce(c, limits, caps, sites, moves, i, k);
    if ClaimRaises(k) !in moves[..i] {
      var a, x, t := EndOne(c, limits, caps, sites[i], k);
      assert Leads(c, limits, caps, sites[i], a, x, t) && k !in t.tasks;
    } else if CanEnd(c, limits, caps, sites[i], k) {
      var a, x, t :| Leads(c, limits, caps, sites[i], a, x, t) && k !in t.tasks;
      StrandedNeverEnds(c, limits, caps, sites[i], a, x, t, k);
    }
  }

  lemma StrandedNeverEnds(c: Catalog, limits: Limits, caps: map<string, nat>, s: Site, sites: seq<Site>,
                          moves: seq<Move>, t: Site, k: nat)
    requires Leads(c, limits, caps, s, sites, moves, t) && IsStranded(s.tasks, k)
    requires Counted(caps, s.slots, s.tasks) && s.tasks.Keys <= s.granted
    ensures IsStranded(t.tasks, k) && t.tasks[k] == s.tasks[k] && Counted(caps, t.slots, t.tasks)
  {
    hide Can, Made, Counted;
    PathKeepsStranded(c, limits, caps, sites, moves, |moves|, k);
    PathKeepsCount(c, limits, caps, sites, moves, |moves|);
  }

  predicate NoneTaken(slots: Slots) {
    slots.inflight == 0 && forall m :: m in slots.active ==> slots.active[m] == 0
  }

  ghost predicate CanEmpty(c: Catalog, limits: Limits, caps: map<string, nat>, s: Site) {
    exists sites, moves, t :: Leads(c, limits, caps, s, sites, moves, t) && NoneTaken(t.slots)
  }

  /** From any state of any run all slots can still come back if and only if no claim
      has raised on the way. */
  lemma AllSlotsComeBackExactlyWhen(c: Catalog, limits: Limits, caps: map<string, nat>, sites: seq<Site>,
                                    moves: seq<Move>, i: nat)
    requires CatalogOk(c) && IsSiteRun(c, limits, caps, sites, moves) && i <= |moves|
    ensures CanEmpty(c, limits, caps, sites[i]) <==> forall k :: ClaimRaises(k) !in moves[..i]
  {
    hide CatalogOk, IsPath, Counted, NoneTaken, IsSiteRun, Leads;
    assert i < |sites| by { RunLength(c, limits, caps, sites, moves); }
    var s := sites[i];
    CountedIn(c, limits, caps, sites, moves, i);
    forall k ensures ClaimRaises(k) in moves[..i] <==> IsStranded(s.tasks, k) {
      EachSlotIsReturnedOnce(c, limits, caps, sites, moves, i, k);
    }
    if forall k :: ClaimRaises(k) !in moves[..i] {
      var a, x, t := EndAll(c, limits, caps, s);
      assert s.tasks - Unstranded(s.tasks) == map[] by {
        forall k | k in s.tasks ensures k in Unstranded(s.tasks) {
          assert !IsStranded(s.tasks, k);
        }
      }
      EmptyMeansNoneTaken(c, limits, caps, s, a, x, t);
      assert Leads(c, limits, caps, s, a, x, t) && NoneTaken(t.slots);
    } else if CanEmpty(c, limits, caps, s) {
      var k :| ClaimRaises(k) in moves[..i];
      var a, x, t :| Leads(c, limits, caps, s, a, x, t) && NoneTaken(t.slots);
      StrandedNeverEnds(c, limits, caps, s, a, x, t, k);
      TakenWhileThere(caps, t, k);
    }
  }

  lemma RunLength(c: Catalog, limits: Limits, caps: map<string, nat>, sites: seq<Site>, moves: seq<Move>)
    requires IsSiteRun(c, limits, caps, sites, moves)
    ensures |sites| == |moves| + 1
  {
  }

  lemma EmptyMeansNoneTaken(c: Catalog, limits: Limits, caps: map<string, nat>, s: Site, sites: seq<Site>,
                            moves: seq<Move>, t: Site)
    requires Leads(c, limits, caps, s, sites, moves, t) && t.tasks == map[]
    requires Counted(caps, s.slots, s.tasks) && s.tasks.Keys <= s.granted
    ensures NoneTaken(t.slots)
  {
    hide Can, Made, Counted;
    PathKeepsCount(c, limits, caps, sites, moves, |moves|);
    CountOf(caps, t.slots, t.tasks, "");
    forall m | m in t.slots.active ensures t.slots.active[m] == 0 {
      CountOf(caps, t.slots, t.tasks, m);
      assert On(t.tasks, m) == {};
    }
  }

  lemma TakenWhileThere(caps: map<string, nat>, t: Site, k: nat)
    requires Counted(caps, t.slots, t.tasks) && k in t.tasks
    ensures !NoneTaken(t.slots)
  {
    assert k in t.tasks.Keys && |t.tasks| == |t.tasks.Keys|;
  }

  // A model that is never served again

  ghost predicate CanServe(c: Catalog, limits: Limits, caps: map<string, nat>, s: Site, model: string) {
    exists sites, moves, t, k :: Leads(c, limits, caps, s, sites, moves, t) && Can(c, caps, t, Reserve(k, model))
  }

  lemma RoomIsNeeded(c: Catalog, limits: Limits, caps: map<string, nat>, s: Site, sites: seq<Site>, moves: seq<Move>,
                     t: Site, k: nat, model: string)
    requires Leads(c, limits, caps, s, sites, moves, t) && Can(c, caps, t, Reserve(k, model))
    requires Counted(caps, s.slots, s.tasks) && s.tasks.Keys <= s.granted
    ensures model in caps && |StrandedOn(s.tasks, model)| < caps[model]
  {
    hide Can, Made, Counted, Leads;
    forall j | j in StrandedOn(s.tasks, model) ensures j in On(t.tasks, model) {
      StrandedNeverEnds(c, limits, caps, s, sites, moves, t, j);
    }
    Fewer(StrandedOn(s.tasks, model), On(t.tasks, model));
    LeadsToCounted(c, limits, caps, s, sites, moves, t);
    CountOf(caps, t.slots, t.tasks, model);
    ReserveNeedsRoom(c, caps, t, k, model);
  }

  lemma ReserveNeedsRoom(c: Catalog, caps: map<string, nat>, t: Site, k: nat, model: string)
    ensures Can(c, caps, t, Reserve(k, model))
      <==> k !in t.granted && model in caps && Busy(t.slots, model) < caps[model]
  {
  }

  lemma LeadsToCounted(c: Catalog, limits: Limits, caps: map<string, nat>, s: Site, sites: seq<Site>, moves: seq<Move>,
                       t: Site)
    requires Leads(c, limits, caps, s, sites, moves, t) && Counted(caps, s.slots, s.tasks) && s.tasks.Keys <= s.granted
    ensures Counted(caps, t.slots, t.tasks)
  {
    hide Can, Made, Counted;
    PathKeepsCount(c, limits, caps, sites, moves, |moves|);
  }

  lemma {:induction false} Unused(granted: set<nat>) returns (k: nat)
    ensures k !in granted && forall j :: j in granted ==> j < k
    decreases |granted|
  {
    if granted == {} {
      k := 0;
    } else {
      var j :| j in granted;
      var rest := Unused(granted - {j});
      k := if j < rest then rest else j + 1;
      forall x | x in granted ensures x < k {
        assert x == j || x in granted - {j};
      }
    }
  }

  /** From any state of any run a model can be served again if and only if fewer of its
      claims have raised than it has slots. */
  lemma ModelIsServedExactlyWhen(c: Catalog, limits: Limits, caps: map<string, nat>, sites: seq<Site>, moves: seq<Move>,
                                 i: nat, model: string)
    requires CatalogOk(c) && IsSiteRun(c, limits, caps, sites, moves) && i <= |moves|
    ensures CanServe(c, limits, caps, sites[i], model)
            <==> model in caps && RaisedOn(sites, moves, model, i) < caps[model]
  {
    hide CatalogOk, IsPath, Counted, Leads, IsSiteRun, Can;
    assert |sites| == |moves| + 1 by { RunLength(c, limits, caps, sites, moves); }
    var s := sites[i];
    CountedIn(c, limits, caps, sites, moves, i);
    StrandedAreRaised(c, limits, caps, sites, moves, i, model);
    if model in caps && RaisedOn(sites, moves, model, i) < caps[model] {
      var a, x, t := EndAll(c, limits, caps, s);
      var k := Unused(t.granted);
      LeadsToCounted(c, limits, caps, s, a, x, t);
      CountOf(caps, t.slots, t.tasks, model);
      assert On(t.tasks, model) == StrandedOn(s.tasks, model);
      ReserveNeedsRoom(c, caps, t, k, model);
      assert Leads(c, limits, caps, s, a, x, t) && Can(c, caps, t, Reserve(k, model));
    }
    if CanServe(c, limits, caps, s, model) {
      var a, x, t, k :| Leads(c, limits, caps, s, a, x, t) && Can(c, caps, t, Reserve(k, model));
      RoomIsNeeded(c, limits, caps, s, a, x, t, k, model);
    }
  }

  lemma {:induction false} RaisedOnlyGrows(sites: seq<Site>, moves: seq<Move>, model: string, i: nat, j: nat)
    requires i <= j <= |moves| < |sites|
    ensures RaisedOn(sites, moves, model, i) <= RaisedOn(sites, moves, model, j)
    decreases j
  {
    if i < j {
      RaisedOnlyGrows(sites, moves, model, i, j - 1);
    }
  }

  /** Once as many claims for a model have raised as it has slots, the dispatcher never
      reserves one for it again, for the rest of the run. */
  lemma NeverServedAgain(c: Catalog, limits: Limits, caps: map<string, nat>, sites: seq<Site>, moves: seq<Move>, i: nat,
                         j: nat, k: nat, model: string)
    requires CatalogOk(c) && IsSiteRun(c, limits, caps, sites, moves) && i <= j < |moves| && model in caps
    requires RaisedOn(sites, moves, model, i) >= caps[model]
    ensures moves[j] != Reserve(k, model)
  {
    hide CatalogOk, Can, Made;
    RaisedOnlyGrows(sites, moves, model, i, j);
    BusyIsLiveOrRaised(c, limits, caps, sites, moves, j, model);
    ReserveNeedsRoom(c, caps, sites[j], k, model);
  }

  /** Nothing but claims for the model that raised: n reservations, each followed by the
      failure of its claim. */
  function Failures(model: string, n: nat): seq<Move> {
    if n == 0 then [] else Failures(model, n - 1) + [Reserve(n - 1, model), ClaimRaises(n - 1)]
  }

  ghost predicate AllRaised(s: Site, model: string, n: nat) {
    && (forall k: nat :: k in s.granted <==> k < n)
    && (forall k: nat :: k in s.tasks <==> k < n)
    && (forall k :: k in s.tasks ==> s.tasks[k] == Thread(model, "", Stranded))
    && Busy(s.slots, model) == n
  }

  lemma OneFails(c: Catalog, limits: Limits, caps: map<string, nat>, model: string, s: Site, n: nat)
    returns (sites: seq<Site>, t: Site)
    requires model in caps && n < caps[model] && AllRaised(s, model, n)
    ensures Leads(c, limits, caps, s, sites, [Reserve(n, model), ClaimRaises(n)], t) && AllRaised(t, model, n + 1)
  {
    hide Leads, ToRunOn, May, WorldOk, Perform;
    var reserved := Made(c, limits, caps, s, Reserve(n, model));
    t := Made(c, limits, caps, reserved, ClaimRaises(n));
    OneMove(c, limits, caps, s, Reserve(n, model));
    OneMove(c, limits, caps, reserved, ClaimRaises(n));
    ThenLeads(c, limits, caps, s, [s, reserved], [Reserve(n, model)], reserved, [reserved, t], [ClaimRaises(n)], t);
    sites := [s, reserved] + [reserved, t][1..];
    assert [Reserve(n, model)] + [ClaimRaises(n)] == [Reserve(n, model), ClaimRaises(n)];
  }

  lemma {:induction false} ClaimsFail(c: Catalog, limits: Limits, caps: map<string, nat>, model: string, n: nat)
    returns (sites: seq<Site>, t: Site)
    requires model in caps && n <= caps[model]
    ensures Leads(c, limits, caps, OPENING, sites, Failures(model, n), t) && AllRaised(t, model, n)
  {
    hide Leads, Can, Made;
    if n == 0 {
      NoMoves(c, limits, caps, OPENING);
      sites, t := [OPENING], OPENING;
    } else {
      var a, s := ClaimsFail(c, limits, caps, model, n - 1);
      var b;
      b, t := OneFails(c, limits, caps, model, s, n - 1);
      ThenLeads(c, limits, caps, OPENING, a, Failures(model, n - 1), s, b, [Reserve(n - 1, model), ClaimRaises(n - 1)],
                t);
      sites := a + b[1..];
    }
  }

  /** The finding: one raising claim per slot and nothing else closes a model for good,
      although no task is live and no claim under way. With a cap of one a single
      failure does. */
  lemma RaisingClaimsCloseTheModel(c: Catalog, limits: Limits, caps: map<string, nat>, model: string)
    returns (sites: seq<Site>, moves: seq<Move>)
    requires CatalogOk(c) && model in caps
    ensures moves == Failures(model, caps[model]) && IsSiteRun(c, limits, caps, sites, moves) && |sites| == |moves| + 1
    ensures var s := sites[|moves|];
      Live(s.tasks, model) == ClaimingOn(s.tasks, model) == {} && !CanServe(c, limits, caps, s, model)
  {
    hide CatalogOk, CanServe, Can, Made, Counted;
    var t;
    sites, t := ClaimsFail(c, limits, caps, model, caps[model]);
    moves := Failures(model, caps[model]);
    RunLength(c, limits, caps, sites, moves);
    ModelIsServedExactlyWhen(c, limits, caps, sites, moves, |moves|, model);
    BusyIsLiveOrRaised(c, limits, caps, sites, moves, |moves|, model);
  }
}
