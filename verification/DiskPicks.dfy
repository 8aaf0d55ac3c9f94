/** The disk pick: a choice over a window of claimable rows, and when it equals the
    choice over the heads of a ready index. */
module DiskPicks {
  import opened Types
  import opened Picker
  import opened PickerOrder
  import opened ReadyIndexes
  import opened ClaimRuns
  import opened JobTables
  import opened JobOrder
  import opened IndexAgreement

  const SQL_TRIES: nat := 8

  /** The claimable rows of one model and class. */
  function InClass(t: Table, model: string, c: SchedulingClass, now: int): set<Id> {
    set id | id in ClaimableIds(t, now) && t.jobs[id].resolvedModel == model && t.jobs[id].schedulingClass == c
  }

  /** Of one class a window shows the first limit rows: highest priority first,
      then oldest, then by id. */
  ghost predicate Shows(window: seq<Candidate>, t: Table, model: string, c: SchedulingClass, now: int, limit: nat) {
    exists ids :: FirstOf(t.jobs, true, InClass(t, model, c, now), limit, ids) && ShowsRows(window, t.jobs, c, ids)
  }

  ghost predicate ShowsRows(window: seq<Candidate>, jobs: map<Id, Job>, c: SchedulingClass, ids: seq<Id>) {
    forall x :: x in window && x.schedulingClass == c
      <==> x.jobId in ids && x.jobId in jobs && x == CandidateOf(jobs[x.jobId])
  }

  ghost predicate IsWindow(window: seq<Candidate>, t: Table, model: string, now: int, limit: nat) {
    forall c: SchedulingClass :: Shows(window, t, model, c, now, limit)
  }

  function Minus(window: seq<Candidate>, skipped: set<Id>): (r: seq<Candidate>)
    ensures forall x :: x in r <==> x in window && x.jobId !in skipped
  {
    if window == [] then []
    else
      var front := Minus(window[..|window| - 1], skipped);
      var last := window[|window| - 1];
      assert window == window[..|window| - 1] + [last];
      if last.jobId in skipped then front else front + [last]
  }

  lemma {:induction false} MinusNothing(window: seq<Candidate>)
    ensures Minus(window, {}) == window
  {
    if window != [] {
      MinusNothing(window[..|window| - 1]);
      assert window == window[..|window| - 1] + [window[|window| - 1]];
    }
  }

  ghost predicate Misses(window: seq<Candidate>, ok: set<Id>, model: string, picker: PickerState, now: real,
                         settings: SchedulerSettings, skipped: seq<Id>) {
    forall i :: 0 <= i < |skipped| ==> Missed(window, ok, model, picker, now, settings, skipped[..i], skipped[i])
  }

  ghost predicate Missed(window: seq<Candidate>, ok: set<Id>, model: string, picker: PickerState, now: real,
                         settings: SchedulerSettings, before: seq<Id>, id: Id) {
    id !in ok
    && var choice := Chosen(picker, model, Minus(window, Members(before)), now, settings).0;
       choice.Some? && choice.value.jobId == id
  }

  /** A disk claim: up to eight picks over the window, each without the rows that
      could not be claimed so far. */
  ghost predicate DiskRun(window: seq<Candidate>, ok: set<Id>, model: string, picker: PickerState, now: real,
                          settings: SchedulerSettings, skipped: seq<Id>, claimed: Option<Id>, next: PickerState) {
    && |skipped| <= SQL_TRIES && Misses(window, ok, model, picker, now, settings, skipped)
    && var (choice, proposed) := Chosen(picker, model, Minus(window, Members(skipped)), now, settings);
       match claimed
       case Some(id) =>
         |skipped| < SQL_TRIES && id in ok && choice.Some? && choice.value.jobId == id && next == proposed
       case None => next == picker && (|skipped| == SQL_TRIES || choice.None?)
  }

  lemma MissOneMore(window: seq<Candidate>, ok: set<Id>, model: string, picker: PickerState, now: real,
                    settings: SchedulerSettings, skipped: seq<Id>, id: Id)
    requires Misses(window, ok, model, picker, now, settings, skipped) && id !in ok
    requires var choice := Chosen(picker, model, Minus(window, Members(skipped)), now, settings).0;
      choice.Some? && choice.value.jobId == id
    ensures Misses(window, ok, model, picker, now, settings, skipped + [id])
    ensures Members(skipped + [id]) == Members(skipped) + {id}
  {
    hide Chosen, Minus;
    assert Missed(window, ok, model, picker, now, settings, skipped, id);
    hide Missed;
    var more := skipped + [id];
    forall i | 0 <= i < |more| ensures Missed(window, ok, model, picker, now, settings, more[..i], more[i]) {
      assert more[..i] == skipped[..i];
      if i == |skipped| {
        assert skipped[..i] == skipped;
      }
    }
  }

  lemma DiskRunEnds(window: seq<Candidate>, ok: set<Id>, model: string, picker: PickerState, now: real,
                    settings: SchedulerSettings, skipped: seq<Id>, choice: Option<Candidate>, proposed: PickerState)
    requires Misses(window, ok, model, picker, now, settings, skipped) && |skipped| < SQL_TRIES
    requires (choice, proposed) == Chosen(picker, model, Minus(window, Members(skipped)), now, settings)
    ensures choice.None? ==> DiskRun(window, ok, model, picker, now, settings, skipped, None, picker)
    ensures choice.Some? && choice.value.jobId in ok ==>
      DiskRun(window, ok, model, picker, now, settings, skipped, Some(choice.value.jobId), proposed)
  {
  }

  lemma DiskRunGivesUp(window: seq<Candidate>, ok: set<Id>, model: string, picker: PickerState, now: real,
                       settings: SchedulerSettings, skipped: seq<Id>)
    requires Misses(window, ok, model, picker, now, settings, skipped) && |skipped| == SQL_TRIES
    ensures DiskRun(window, ok, model, picker, now, settings, skipped, None, picker)
  {
  }

  lemma WindowIsClaimable(window: seq<Candidate>, t: Table, model: string, now: int, limit: nat, x: Candidate)
    requires IsWindow(window, t, model, now, limit) && x in window
    ensures x.jobId in InClass(t, model, x.schedulingClass, now) && x == CandidateOf(t.jobs[x.jobId])
  {
    hide Earlier;
    assert Shows(window, t, model, x.schedulingClass, now, limit);
    var ids :| FirstOf(t.jobs, true, InClass(t, model, x.schedulingClass, now), limit, ids)
      && ShowsRows(window, t.jobs, x.schedulingClass, ids);
    assert x.jobId in Members(ids);
  }

  /** The window is read in the claim's own transaction, so its first pick is
      always claimed: a disk claim is one choice over the window. */
  lemma DiskRunIsOnePick(window: seq<Candidate>, t: Table, model: string, picker: PickerState, now: int,
                         settings: SchedulerSettings, limit: nat, skipped: seq<Id>, claimed: Option<Id>,
                         next: PickerState)
    requires IsWindow(window, t, model, now, limit)
    requires DiskRun(window, ClaimableIds(t, now), model, picker, Epoch(now), settings, skipped, claimed, next)
    ensures skipped == []
    ensures var (choice, proposed) := Chosen(picker, model, window, Epoch(now), settings);
      match choice
      case None => claimed.None? && next == picker
      case Some(c) => claimed == Some(c.jobId) && next == proposed
  {
    hide Contributions, Charge, CountSkips, BestOf, WinningPool, IsWindow;
    MinusNothing(window);
    assert Members([]) == {};
    assert skipped != [] ==> skipped[..0] == [];
    assert skipped != []
      ==> Missed(window, ClaimableIds(t, now), model, picker, Epoch(now), settings, skipped[..0], skipped[0]);
    ChosenIsMember(picker, model, window, Epoch(now), settings);
    var choice := Chosen(picker, model, window, Epoch(now), settings).0;
    if choice.Some? {
      WindowIsClaimable(window, t, model, now, limit, choice.value);
    }
  }

  // Against the heads of a ready index

  /** No class has more claimable rows of the model than the window shows. */
  ghost predicate Untruncated(t: Table, model: string, now: int, limit: nat) {
    forall c: SchedulingClass :: |InClass(t, model, c, now)| <= limit
  }

  lemma UntruncatedShowsAll(window: seq<Candidate>, t: Table, model: string, now: int, limit: nat, id: Id)
    requires IsWindow(window, t, model, now, limit) && Untruncated(t, model, now, limit) && JobsOk(t)
    requires id in ClaimableIds(t, now) && t.jobs[id].resolvedModel == model
    ensures CandidateOf(t.jobs[id]) in window
  {
    hide Earlier;
    var c := t.jobs[id].schedulingClass;
    assert Shows(window, t, model, c, now, limit);
    var ids :| FirstOf(t.jobs, true, InClass(t, model, c, now), limit, ids) && ShowsRows(window, t.jobs, c, ids);
    FirstOfAll(t.jobs, true, InClass(t, model, c, now), limit, ids);
    assert id in Members(ids) && t.jobs[id].jobId == id;
  }

  /** What an index lists when it holds exactly the claimable rows. */
  function ClaimableView(t: Table, now: int): View {
    map id | id in ClaimableIds(t, now) :: CandidateOf(t.jobs[id])
  }

  lemma WindowListsTheView(window: seq<Candidate>, t: Table, model: string, now: int, limit: nat)
    requires IsWindow(window, t, model, now, limit) && Untruncated(t, model, now, limit) && JobsOk(t)
    ensures Lists(window, ClaimableView(t, now), model)
    ensures DistinctIds(window)
  {
    hide IsWindow, Untruncated;
    var view := ClaimableView(t, now);
    forall x ensures x in window <==> x.jobId in view && view[x.jobId] == x && x.model == model {
      if x in window {
        WindowIsClaimable(window, t, model, now, limit, x);
      }
      if x.jobId in view && view[x.jobId] == x && x.model == model {
        UntruncatedShowsAll(window, t, model, now, limit, x.jobId);
      }
    }
  }

  /** Every claimable row of a lane was queued in priority order, at an instant of
      its own, and none in the future. */
  ghost predicate Orderly(t: Table, now: int) {
    forall a, b :: a in ClaimableIds(t, now) && b in ClaimableIds(t, now) ==>
      && t.jobs[a].createdAt <= now
      && (a != b && LaneOf(CandidateOf(t.jobs[a])) == LaneOf(CandidateOf(t.jobs[b])) ==>
           && t.jobs[a].createdAt != t.jobs[b].createdAt
           && (t.jobs[a].createdAt < t.jobs[b].createdAt ==> t.jobs[a].priority >= t.jobs[b].priority))
  }

  lemma OrderlyWindow(window: seq<Candidate>, t: Table, model: string, now: int, limit: nat)
    requires IsWindow(window, t, model, now, limit) && Orderly(t, now) && JobsOk(t)
    ensures QueuedInPriorityOrder(window) && forall x :: x in window ==> x.createdAt <= Epoch(now)
  {
    hide IsWindow;
    forall x | x in window
      ensures x.jobId in InClass(t, model, x.schedulingClass, now) && x == CandidateOf(t.jobs[x.jobId])
      ensures x.createdAt <= Epoch(now)
    {
      WindowIsClaimable(window, t, model, now, limit, x);
      assert t.jobs[x.jobId].createdAt <= now;
    }
    forall x, y | x in window && y in window && SameLane(x, y) && x != y
      ensures x.createdAt != y.createdAt && (x.createdAt < y.createdAt ==> x.priority >= y.priority)
    {
      assert x.jobId != y.jobId && LaneOf(x) == LaneOf(y);
    }
  }

  /** The hybrid pick is the disk pick: over an untruncated window and over the
      heads of an index that holds the claimable rows, the same job and the same
      next state are chosen. */
  lemma DiskPickIsHeadPick(window: seq<Candidate>, hs: seq<Candidate>, t: Table, model: string, picker: PickerState,
                           now: int, settings: SchedulerSettings, limit: nat)
    requires IsWindow(window, t, model, now, limit) && Untruncated(t, model, now, limit) && Orderly(t, now) && JobsOk(t)
    requires IsHeads(hs, ClaimableView(t, now), model)
    requires settings.ageWeight > 0.0 && settings.priorityWeight >= 0.0
    ensures Chosen(picker, model, hs, Epoch(now), settings) == Chosen(picker, model, window, Epoch(now), settings)
  {
    hide Chosen, IsWindow, Untruncated, Orderly, JobsOk;
    WindowListsTheView(window, t, model, now, limit);
    OrderlyWindow(window, t, model, now, limit);
    HeadsAreAreHeads(hs, window, ClaimableView(t, now), model);
    HeadsSuffice(picker, model, hs, window, Epoch(now), settings);
  }

  // A window that does not show all

  /** A claimable row is in the window if and only if fewer than limit rows of its class
      and model come before it. */
  lemma RowIsShownExactlyWhen(window: seq<Candidate>, t: Table, model: string, now: int, limit: nat, id: Id)
    requires IsWindow(window, t, model, now, limit) && JobsOk(t)
    requires id in ClaimableIds(t, now) && t.jobs[id].resolvedModel == model
    ensures CandidateOf(t.jobs[id]) in window
      <==> |RowsBefore(t.jobs, true, InClass(t, model, t.jobs[id].schedulingClass, now), id)| < limit
  {
    hide Earlier, RowsBefore;
    var c := t.jobs[id].schedulingClass;
    assert Shows(window, t, model, c, now, limit);
    var ids :| FirstOf(t.jobs, true, InClass(t, model, c, now), limit, ids) && ShowsRows(window, t.jobs, c, ids);
    AmongTheFirst(t.jobs, true, InClass(t, model, c, now), limit, ids, id);
    assert t.jobs[id].jobId == id;
  }

  /** The rows of this client in the class, each behind limit others of the class. */
  ghost predicate Buried(t: Table, model: string, c: SchedulingClass, client: string, now: int, limit: nat) {
    forall id :: id in InClass(t, model, c, now) && t.jobs[id].clientId == client ==>
      |RowsBefore(t.jobs, true, InClass(t, model, c, now), id)| >= limit
  }

  /** So whatever its skip count, a client buried in a class is not chosen there. */
  lemma BuriedClientIsNotChosen(window: seq<Candidate>, t: Table, model: string, c: SchedulingClass, client: string,
                                picker: PickerState, now: int, settings: SchedulerSettings, limit: nat)
    requires IsWindow(window, t, model, now, limit) && JobsOk(t) && Buried(t, model, c, client, now, limit)
    ensures client !in Clients(OfClass(window, c))
    ensures var choice := Chosen(picker, model, window, Epoch(now), settings).0;
      choice.Some? ==> choice.value.schedulingClass != c || choice.value.clientId != client
  {
    hide Chosen, IsWindow, JobsOk, RowsBefore;
    forall x | x in window ensures x.schedulingClass != c || x.clientId != client {
      WindowIsClaimable(window, t, model, now, limit, x);
      RowIsShownExactlyWhen(window, t, model, now, limit, x.jobId);
    }
    ChosenIsMember(picker, model, window, Epoch(now), settings);
  }

  lemma WindowLeads(window: seq<Candidate>, all: seq<Candidate>, t: Table, model: string, now: int, limit: nat)
    requires IsWindow(window, t, model, now, limit) && JobsOk(t) && Lists(all, ClaimableView(t, now), model)
    ensures Leading(window, all) && DistinctIds(all)
  {
    hide IsWindow;
    forall h | h in window ensures h in all {
      WindowIsClaimable(window, t, model, now, limit, h);
    }
    forall h, x | h in window && x in all && x !in window && SameLane(h, x) ensures h.priority >= x.priority {
      ShownFirst(window, t, model, now, limit, h, x);
    }
  }

  lemma ShownFirst(window: seq<Candidate>, t: Table, model: string, now: int, limit: nat, h: Candidate, x: Candidate)
    requires IsWindow(window, t, model, now, limit) && JobsOk(t) && h in window && x !in window
    requires x.jobId in InClass(t, model, h.schedulingClass, now) && x == CandidateOf(t.jobs[x.jobId])
    ensures h.priority >= x.priority
  {
    var c := h.schedulingClass;
    assert Shows(window, t, model, c, now, limit);
    var ids :| FirstOf(t.jobs, true, InClass(t, model, c, now), limit, ids) && ShowsRows(window, t.jobs, c, ids);
    assert Earlier(t.jobs, true, h.jobId, x.jobId);
  }

  /** A window of any limit picks as a list of every claimable row would, whatever the
      state and the settings, if and only if each row has a stand-in in it. */
  lemma WindowSufficesExactly(window: seq<Candidate>, all: seq<Candidate>, t: Table, model: string, now: int,
                              limit: nat)
    requires IsWindow(window, t, model, now, limit) && JobsOk(t) && Lists(all, ClaimableView(t, now), model)
    requires forall x :: x in all ==> x.createdAt <= Epoch(now)
    ensures PickedAlike(model, window, all, Epoch(now)) <==> Covers(window, all)
  {
    hide IsWindow, JobsOk, Lists, PickedAlike, Covers;
    WindowLeads(window, all, t, model, now, limit);
    SelectionSufficesExactly(model, window, all, Epoch(now));
  }

  // Reading the window

  function Listing(jobs: map<Id, Job>, ids: seq<Id>): (r: seq<Candidate>)
    requires forall id :: id in ids ==> id in jobs && jobs[id].jobId == id
    ensures forall x :: x in r <==> x.jobId in ids && x.jobId in jobs && x == CandidateOf(jobs[x.jobId])
  {
    if ids == [] then []
    else
      var last := ids[|ids| - 1];
      assert ids == ids[..|ids| - 1] + [last];
      Listing(jobs, ids[..|ids| - 1]) + [CandidateOf(jobs[last])]
  }

  ghost predicate ShowsUpTo(window: seq<Candidate>, t: Table, model: string, now: int, limit: nat, k: nat) {
    && (forall x :: x in window ==> Rank(x.schedulingClass) < k)
    && forall c: SchedulingClass :: Rank(c) < k ==> Shows(window, t, model, c, now, limit)
  }

  lemma ShowsOneMore(window: seq<Candidate>, t: Table, model: string, now: int, limit: nat, k: nat, ids: seq<Id>)
    requires ShowsUpTo(window, t, model, now, limit, k) && k < CLASS_COUNT
    requires FirstOf(t.jobs, true, InClass(t, model, ClassAt(k), now), limit, ids)
    requires forall id :: id in ids ==> id in t.jobs && t.jobs[id].jobId == id
    ensures ShowsUpTo(window + Listing(t.jobs, ids), t, model, now, limit, k + 1)
  {
    hide Earlier, FirstOf;
    var more := window + Listing(t.jobs, ids);
    InClassOnly(t, model, ClassAt(k), now, limit, ids);
    assert ShowsRows(more, t.jobs, ClassAt(k), ids);
    assert Shows(more, t, model, ClassAt(k), now, limit);
    forall c: SchedulingClass | Rank(c) < k ensures Shows(more, t, model, c, now, limit) {
      assert Shows(window, t, model, c, now, limit);
      var rows :| FirstOf(t.jobs, true, InClass(t, model, c, now), limit, rows) && ShowsRows(window, t.jobs, c, rows);
      assert ShowsRows(more, t.jobs, c, rows);
    }
    assert forall c :: Rank(c) < k + 1 <==> c == ClassAt(k) || Rank(c) < k;
  }

  lemma InClassOnly(t: Table, model: string, c: SchedulingClass, now: int, limit: nat, ids: seq<Id>)
    requires FirstOf(t.jobs, true, InClass(t, model, c, now), limit, ids)
    ensures forall id :: id in ids ==> id in t.jobs && t.jobs[id].schedulingClass == c
  {
    assert forall id :: id in ids ==> id in Members(ids);
  }
}
