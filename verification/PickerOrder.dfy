/** The choice depends only on which candidates there are, and one head per client
    and class is enough exactly when each head stands for all of its lane. */
module PickerOrder {
  import opened Types
  import opened TieBreak
  import opened Picker

  ghost predicate SameMembers(a: seq<Candidate>, b: seq<Candidate>) {
    forall x :: x in a <==> x in b
  }

  ghost predicate DistinctIds(a: seq<Candidate>) {
    forall x, y :: x in a && y in a && x.jobId == y.jobId ==> x == y
  }

  lemma Oldest(a: seq<Candidate>, now: real) returns (x: Candidate)
    requires a != []
    ensures x in a && now - x.createdAt == OldestAge(a, now)
  {
    var i :| 0 <= i < |a| && now - a[i].createdAt == OldestAge(a, now);
    x := a[i];
  }

  lemma UnbeatenIsUnique(x: Candidate, y: Candidate, skips: Skips, now: real, settings: SchedulerSettings)
    requires !Beats(x, y, skips, now, settings) && !Beats(y, x, skips, now, settings)
    ensures x.jobId == y.jobId
  {
    LexTotal(Invert(x.jobId), Invert(y.jobId));
    InvertInjective(x.jobId, y.jobId);
  }

  /** Every class weighs the same in both lists. */
  ghost predicate SameWeights(a: seq<Candidate>, b: seq<Candidate>, now: real) {
    forall c :: (OfClass(a, c) == [] <==> OfClass(b, c) == [])
      && (OfClass(a, c) != [] ==> OldestAge(OfClass(a, c), now) == OldestAge(OfClass(b, c), now))
  }

  lemma SameContributions(a: seq<Candidate>, b: seq<Candidate>, now: real, settings: SchedulerSettings)
    requires SameWeights(a, b, now)
    ensures Contributions(settings, a, now) == Contributions(settings, b, now)
  {
  }

  /** Same weights, same clients and same best job of each class give one choice. */
  lemma SameOutcome(state: PickerState, model: string, a: seq<Candidate>, b: seq<Candidate>, now: real,
                    settings: SchedulerSettings)
    requires SameWeights(a, b, now) && a != [] && b != []
    requires forall c :: OfClass(a, c) != [] && OfClass(b, c) != [] ==>
      && Clients(OfClass(a, c)) == Clients(OfClass(b, c))
      && BestOf(OfClass(a, c), SkipsOf(state, model), now, settings)
        == BestOf(OfClass(b, c), SkipsOf(state, model), now, settings)
    ensures Chosen(state, model, a, now, settings) == Chosen(state, model, b, now, settings)
  {
    hide Contributions, Charge, Clients, BestOf, CountSkips;
    SameContributions(a, b, now, settings);
    var c := WinningClass(state, model, a, now, settings);
    assert WinningPool(state, model, a, now, settings) == OfClass(a, c);
    assert WinningPool(state, model, b, now, settings) == OfClass(b, c);
  }

  /** Any order, and any repetition, of the same candidates gives the same choice
      and the same next state. */
  lemma ChoiceIgnoresOrder(state: PickerState, model: string, a: seq<Candidate>, b: seq<Candidate>, now: real,
                           settings: SchedulerSettings)
    requires SameMembers(a, b) && DistinctIds(a)
    ensures Chosen(state, model, a, now, settings) == Chosen(state, model, b, now, settings)
  {
    hide Chosen, Contributions, Charge, OldestAge, Clients, BestOf;
    SameMembersSameEmptiness(a, b);
    if a != [] {
      forall c {
        PoolIgnoresOrder(a, b, c, SkipsOf(state, model), now, settings);
      }
      SameOutcome(state, model, a, b, now, settings);
    }
  }

  lemma PoolIgnoresOrder(a: seq<Candidate>, b: seq<Candidate>, c: SchedulingClass, skips: Skips, now: real,
                         settings: SchedulerSettings)
    requires SameMembers(a, b) && DistinctIds(a)
    ensures var p, q := OfClass(a, c), OfClass(b, c);
      && (p == [] <==> q == [])
      && (p != [] && q != [] ==>
           && OldestAge(p, now) == OldestAge(q, now)
           && Clients(p) == Clients(q)
           && BestOf(p, skips, now, settings) == BestOf(q, skips, now, settings))
  {
    hide Beats;
    var p, q := OfClass(a, c), OfClass(b, c);
    SameMembersSameEmptiness(p, q);
    if p != [] {
      var x := Oldest(p, now);
      var y := Oldest(q, now);
      assert x in q && y in p;
      UnbeatenIsUnique(BestOf(p, skips, now, settings), BestOf(q, skips, now, settings), skips, now, settings);
    }
  }

  lemma SameMembersSameEmptiness(a: seq<Candidate>, b: seq<Candidate>)
    requires SameMembers(a, b)
    ensures a == [] <==> b == []
  {
    if a != [] { assert a[0] in b; }
    if b != [] { assert b[0] in a; }
  }

  // One head per client and class

  predicate SameLane(x: Candidate, y: Candidate) {
    x.schedulingClass == y.schedulingClass && x.clientId == y.clientId
  }

  /** The order of a lane's heap: highest priority, then oldest. */
  predicate NoLaterThan(x: Candidate, y: Candidate) {
    x.priority > y.priority || (x.priority == y.priority && x.createdAt <= y.createdAt)
  }

  ghost predicate HasHead(heads: seq<Candidate>, x: Candidate) {
    exists h :: h in heads && SameLane(h, x) && NoLaterThan(h, x)
  }

  ghost predicate AreHeads(heads: seq<Candidate>, all: seq<Candidate>) {
    (forall h :: h in heads ==> h in all) && forall x :: x in all ==> HasHead(heads, x)
  }

  /** In each lane the older job has at least the priority, and no two jobs were
      created at one instant. */
  ghost predicate QueuedInPriorityOrder(all: seq<Candidate>) {
    forall x, y :: x in all && y in all && SameLane(x, y) && x != y ==>
      x.createdAt != y.createdAt && (x.createdAt < y.createdAt ==> x.priority >= y.priority)
  }

  /** h stands for x: x itself, or a job of its lane with at least its priority that
      is older, or as old and ahead of it by id. */
  predicate StandsFor(h: Candidate, x: Candidate) {
    SameLane(h, x) && h.priority >= x.priority
    && (h == x || h.createdAt < x.createdAt
        || (h.createdAt == x.createdAt && LexLess(Invert(x.jobId), Invert(h.jobId))))
  }

  ghost predicate HasStandIn(p: seq<Candidate>, x: Candidate) {
    exists h :: h in p && StandsFor(h, x)
  }

  ghost predicate Covers(p: seq<Candidate>, q: seq<Candidate>) {
    (forall h :: h in p ==> h in q) && forall x :: x in q ==> HasStandIn(p, x)
  }

  lemma FindHead(heads: seq<Candidate>, x: Candidate) returns (h: Candidate)
    requires HasHead(heads, x)
    ensures h in heads && SameLane(h, x) && NoLaterThan(h, x)
  {
    h :| h in heads && SameLane(h, x) && NoLaterThan(h, x);
  }

  lemma FindStandIn(p: seq<Candidate>, x: Candidate) returns (h: Candidate)
    requires HasStandIn(p, x)
    ensures h in p && StandsFor(h, x)
  {
    h :| h in p && StandsFor(h, x);
  }

  lemma Ordered(a: real, b: real, k: real)
    requires a >= b && k >= 0.0
    ensures a * k >= b * k
    ensures a > b && k > 0.0 ==> a * k > b * k
  {
  }

  lemma StandInBeats(h: Candidate, x: Candidate, skips: Skips, now: real, settings: SchedulerSettings)
    requires StandsFor(h, x) && h != x && x.createdAt <= now
    requires settings.ageWeight > 0.0 && settings.priorityWeight >= 0.0
    ensures Beats(h, x, skips, now, settings)
  {
    Ordered(h.priority as real, x.priority as real, settings.priorityWeight);
    Ordered(now - h.createdAt, now - x.createdAt, settings.ageWeight);
    var skipped := Skipped(skips, h.clientId) as real * settings.clientSkipWeight;
    ScoreIs(h, skips, now, settings, skipped);
    ScoreIs(x, skips, now, settings, skipped);
    hide Score;
  }

  lemma ScoreIs(x: Candidate, skips: Skips, now: real, settings: SchedulerSettings, skipped: real)
    requires x.createdAt <= now && skipped == Skipped(skips, x.clientId) as real * settings.clientSkipWeight
    ensures Score(x, skips, now, settings)
      == x.priority as real * settings.priorityWeight + skipped + (now - x.createdAt) * settings.ageWeight
  {
  }

  lemma StandsForItself(x: Candidate)
    ensures StandsFor(x, x)
  {
  }

  lemma SeenBy(p: seq<Candidate>, h: Candidate, x: Candidate)
    requires h in p && StandsFor(h, x)
    ensures HasStandIn(p, x)
  {
  }

  lemma CoversEachClass(heads: seq<Candidate>, all: seq<Candidate>, c: SchedulingClass)
    requires Covers(heads, all)
    ensures Covers(OfClass(heads, c), OfClass(all, c))
  {
    hide HasStandIn, OfClass;
    forall x | x in OfClass(all, c) ensures HasStandIn(OfClass(heads, c), x) {
      var h := FindStandIn(heads, x);
      SeenBy(OfClass(heads, c), h, x);
    }
  }

  lemma HeadsOfPool(p: seq<Candidate>, q: seq<Candidate>, skips: Skips, now: real, settings: SchedulerSettings)
    requires Covers(p, q) && DistinctIds(q)
    requires forall x :: x in q ==> x.createdAt <= now
    requires settings.ageWeight > 0.0 && settings.priorityWeight >= 0.0
    ensures p == [] <==> q == []
    ensures p != [] && q != [] ==>
      && OldestAge(p, now) == OldestAge(q, now)
      && Clients(p) == Clients(q)
      && BestOf(p, skips, now, settings) == BestOf(q, skips, now, settings)
  {
    hide HasStandIn, Beats;
    if p != [] { assert p[0] in q; }
    if q != [] {
      var h := FindStandIn(p, q[0]);
      var x := Oldest(q, now);
      var y := Oldest(p, now);
      h := FindStandIn(p, x);
      forall client | client in Clients(q) ensures client in Clients(p) {
        var z :| z in q && z.clientId == client;
        var k := FindStandIn(p, z);
      }
      var best := BestOf(q, skips, now, settings);
      h := FindStandIn(p, best);
      if h != best {
        StandInBeats(h, best, skips, now, settings);
      }
      UnbeatenIsUnique(best, BestOf(p, skips, now, settings), skips, now, settings);
    }
  }

  /** Heads that stand for their lanes are picked as all the candidates would be. */
  lemma CoveringHeadsSuffice(state: PickerState, model: string, heads: seq<Candidate>, all: seq<Candidate>, now: real,
                             settings: SchedulerSettings)
    requires Covers(heads, all) && DistinctIds(all)
    requires forall x :: x in all ==> x.createdAt <= now
    requires settings.ageWeight > 0.0 && settings.priorityWeight >= 0.0
    ensures Chosen(state, model, heads, now, settings) == Chosen(state, model, all, now, settings)
  {
    hide Chosen, Contributions, Charge, OldestAge, Clients, BestOf;
    hide HasStandIn;
    if all == [] {
      SameMembersSameEmptiness(heads, all);
    } else {
      var h := FindStandIn(heads, all[0]);
      forall c
        ensures OfClass(heads, c) == [] <==> OfClass(all, c) == []
        ensures OfClass(heads, c) != [] && OfClass(all, c) != [] ==>
          && OldestAge(OfClass(heads, c), now) == OldestAge(OfClass(all, c), now)
          && Clients(OfClass(heads, c)) == Clients(OfClass(all, c))
          && BestOf(OfClass(heads, c), SkipsOf(state, model), now, settings)
            == BestOf(OfClass(all, c), SkipsOf(state, model), now, settings)
      {
        CoversEachClass(heads, all, c);
        HeadsOfPool(OfClass(heads, c), OfClass(all, c), SkipsOf(state, model), now, settings);
      }
      SameOutcome(state, model, heads, all, now, settings);
    }
  }

  lemma OrderlyHeadsCover(heads: seq<Candidate>, all: seq<Candidate>)
    requires AreHeads(heads, all) && QueuedInPriorityOrder(all)
    ensures Covers(heads, all)
  {
    hide HasHead, QueuedInPriorityOrder;
    forall x | x in all ensures HasStandIn(heads, x) {
      var h := FindHead(heads, x);
      HeadStandsFor(h, x, all);
      assert h in heads && StandsFor(h, x);
    }
  }

  lemma HeadStandsFor(h: Candidate, x: Candidate, all: seq<Candidate>)
    requires QueuedInPriorityOrder(all) && h in all && x in all
    requires SameLane(h, x) && NoLaterThan(h, x)
    ensures StandsFor(h, x)
  {
  }

  /** So they do when every lane is queued in priority order. */
  lemma HeadsSuffice(state: PickerState, model: string, heads: seq<Candidate>, all: seq<Candidate>, now: real,
                     settings: SchedulerSettings)
    requires AreHeads(heads, all) && QueuedInPriorityOrder(all) && DistinctIds(all)
    requires forall x :: x in all ==> x.createdAt <= now
    requires settings.ageWeight > 0.0 && settings.priorityWeight >= 0.0
    ensures Chosen(state, model, heads, now, settings) == Chosen(state, model, all, now, settings)
  {
    OrderlyHeadsCover(heads, all);
    CoveringHeadsSuffice(state, model, heads, all, now, settings);
  }

  // That condition is exact

  ghost predicate OneHeadPerLane(heads: seq<Candidate>) {
    forall g, h :: g in heads && h in heads && SameLane(g, h) ==> g == h
  }

  /** The same choice and next state from both lists, in every picker state and under
      all settings that value age and never penalise priority. */
  ghost predicate PickedAlike(model: string, heads: seq<Candidate>, all: seq<Candidate>, now: real) {
    forall state, settings: SchedulerSettings :: settings.ageWeight > 0.0 && settings.priorityWeight >= 0.0 ==>
      Chosen(state, model, heads, now, settings) == Chosen(state, model, all, now, settings)
  }

  /** Settings in which no class earns anything and only age and skips score. */
  const AGE_ONLY := SchedulerSettings(map[Interactive := 0.0, Normal := 0.0, Batched := 0.0, Bulk := 0.0],
                                      0.0, 0.0, 1.0, 0.0, 1.0, 0)

  /** A state in which it is the turn of one class, and there of one client. */
  function TurnOf(model: string, c: SchedulingClass, client: string, lead: nat): PickerState {
    PickerState(map[model := map[c := 1.0]], map[model := map[client := lead]])
  }

  lemma NobodyEarns(cands: seq<Candidate>, now: real)
    ensures forall c :: At(Contributions(AGE_ONLY, cands, now), c) == 0.0
  {
  }

  lemma TurnOfClass(model: string, cands: seq<Candidate>, now: real, x: Candidate, lead: nat)
    requires x in cands
    ensures WinningClass(TurnOf(model, x.schedulingClass, x.clientId, lead), model, cands, now, AGE_ONLY)
      == x.schedulingClass
  {
    var state, e := TurnOf(model, x.schedulingClass, x.clientId, lead), Contributions(AGE_ONLY, cands, now);
    hide Contributions;
    NobodyEarns(cands, now);
    assert x in OfClass(cands, x.schedulingClass);
    assert x.schedulingClass in e by { ClassIsThere(cands, now, x); }
    var raised := Raise(CreditsOf(state, model), e);
    assert At(raised, x.schedulingClass) == 1.0;
    assert forall c :: c != x.schedulingClass ==> At(raised, c) == 0.0;
  }

  lemma ClassIsThere(cands: seq<Candidate>, now: real, x: Candidate)
    requires x in cands
    ensures x.schedulingClass in Contributions(AGE_ONLY, cands, now)
  {
  }

  /** The choice in that state is a job of the lane that no other of the lane beats. */
  lemma TurnOfLane(model: string, cands: seq<Candidate>, now: real, x: Candidate, lead: nat)
    requires x in cands && forall y :: y in cands ==> 0.0 <= now - y.createdAt < lead as real
    ensures var state := TurnOf(model, x.schedulingClass, x.clientId, lead);
      var choice := Chosen(state, model, cands, now, AGE_ONLY).0;
      choice.Some? && choice.value in cands && SameLane(choice.value, x)
      && forall y :: y in cands && SameLane(y, x) ==> !Beats(y, choice.value, SkipsOf(state, model), now, AGE_ONLY)
  {
    hide Contributions, Charge, CountSkips;
    TurnOfClass(model, cands, now, x, lead);
    var state := TurnOf(model, x.schedulingClass, x.clientId, lead);
    var skips := SkipsOf(state, model);
    var best := BestOf(WinningPool(state, model, cands, now, AGE_ONLY), skips, now, AGE_ONLY);
    assert x in WinningPool(state, model, cands, now, AGE_ONLY);
    if best.clientId != x.clientId {
      LeaderBeats(model, x, best, now, lead);
    }
  }

  /** The client whose turn it is leads by more than any age. */
  lemma LeaderBeats(model: string, x: Candidate, y: Candidate, now: real, lead: nat)
    requires x.clientId != y.clientId && x.createdAt <= now && 0.0 <= now - y.createdAt < lead as real
    ensures Beats(x, y, SkipsOf(TurnOf(model, x.schedulingClass, x.clientId, lead), model), now, AGE_ONLY)
  {
    var skips := SkipsOf(TurnOf(model, x.schedulingClass, x.clientId, lead), model);
    ScoreIs(x, skips, now, AGE_ONLY, lead as real);
    ScoreIs(y, skips, now, AGE_ONLY, 0.0);
  }

  lemma NotBeatenInAge(h: Candidate, x: Candidate, skips: Skips, now: real)
    requires SameLane(h, x) && h.priority >= x.priority && !Beats(x, h, skips, now, AGE_ONLY)
    requires h.createdAt <= now && x.createdAt <= now && (h.jobId == x.jobId ==> h == x)
    ensures StandsFor(h, x)
  {
    LexTotal(Invert(x.jobId), Invert(h.jobId));
    if Invert(x.jobId) == Invert(h.jobId) {
      InvertInjective(x.jobId, h.jobId);
    }
  }

  lemma LeadOverAges(cands: seq<Candidate>, now: real) returns (lead: nat)
    requires forall y :: y in cands ==> y.createdAt <= now
    ensures forall y :: y in cands ==> 0.0 <= now - y.createdAt < lead as real
  {
    lead := if cands == [] then 0 else OldestAge(cands, now).Floor + 1;
  }

  /** A selection of the candidates that keeps back none of a higher priority than one
      it shows of the same lane. */
  ghost predicate Leading(shown: seq<Candidate>, all: seq<Candidate>) {
    && (forall h :: h in shown ==> h in all)
    && forall h, x :: h in shown && x in all && x !in shown && SameLane(h, x) ==> h.priority >= x.priority
  }

  lemma ChosenIsMember(picker: PickerState, model: string, hs: seq<Candidate>, now: real, settings: SchedulerSettings)
    ensures var choice := Chosen(picker, model, hs, now, settings).0;
      (choice.None? <==> hs == []) && (choice.Some? ==> choice.value in hs)
  {
  }

  lemma AgreementMeansCover(model: string, shown: seq<Candidate>, all: seq<Candidate>, now: real, x: Candidate)
    requires Leading(shown, all) && DistinctIds(all) && x in all
    requires forall y :: y in all ==> y.createdAt <= now
    requires PickedAlike(model, shown, all, now)
    ensures HasStandIn(shown, x)
  {
    hide Chosen, Beats, StandsFor;
    if x in shown {
      StandsForItself(x);
      SeenBy(shown, x, x);
    } else {
      var lead := LeadOverAges(all, now);
      TurnOfLane(model, all, now, x, lead);
      var state := TurnOf(model, x.schedulingClass, x.clientId, lead);
      assert Chosen(state, model, shown, now, AGE_ONLY) == Chosen(state, model, all, now, AGE_ONLY);
      ChosenIsMember(state, model, shown, now, AGE_ONLY);
      var h := Chosen(state, model, all, now, AGE_ONLY).0.value;
      NotBeatenInAge(h, x, SkipsOf(state, model), now);
      SeenBy(shown, h, x);
    }
  }

  /** A leading selection is picked as all the candidates would be, whatever the state
      and the settings, if and only if each candidate has a stand-in in it. */
  lemma SelectionSufficesExactly(model: string, shown: seq<Candidate>, all: seq<Candidate>, now: real)
    requires Leading(shown, all) && DistinctIds(all)
    requires forall x :: x in all ==> x.createdAt <= now
    ensures PickedAlike(model, shown, all, now) <==> Covers(shown, all)
  {
    hide Chosen, DistinctIds, HasStandIn;
    if Covers(shown, all) {
      forall state, settings: SchedulerSettings | settings.ageWeight > 0.0 && settings.priorityWeight >= 0.0
        ensures Chosen(state, model, shown, now, settings) == Chosen(state, model, all, now, settings)
      {
        CoveringHeadsSuffice(state, model, shown, all, now, settings);
      }
    }
    if PickedAlike(model, shown, all, now) {
      forall x | x in all ensures HasStandIn(shown, x) {
        AgreementMeansCover(model, shown, all, now, x);
      }
    }
  }

  /** One head per lane is picked as every ready job would be, whatever the state and
      the settings, if and only if each head stands for every job of its lane. */
  lemma HeadsSufficeExactly(model: string, heads: seq<Candidate>, all: seq<Candidate>, now: real)
    requires AreHeads(heads, all) && OneHeadPerLane(heads) && DistinctIds(all)
    requires forall x :: x in all ==> x.createdAt <= now
    ensures PickedAlike(model, heads, all, now) <==> Covers(heads, all)
  {
    hide Chosen, DistinctIds, PickedAlike, Covers;
    HeadsLead(heads, all);
    SelectionSufficesExactly(model, heads, all, now);
  }

  lemma HeadsLead(heads: seq<Candidate>, all: seq<Candidate>)
    requires AreHeads(heads, all) && OneHeadPerLane(heads)
    ensures Leading(heads, all)
  {
    hide HasHead;
    forall h, x | h in heads && x in all && SameLane(h, x) ensures h.priority >= x.priority {
      var g := FindHead(heads, x);
      assert g == h;
    }
  }

  // A head that does not

  const URGENT := Candidate("b", Normal, 5, 100.0, "app", "mock", "q")
  const AGED := Candidate("a", Normal, 0, 0.0, "app", "mock", "q")
  const NEWEST := Candidate("c", Interactive, 0, 100.0, "app", "mock", "q")

  /** A lane with an urgent job in front of an older one, and a job of another class. */
  predicate MixedLane(urgent: Candidate, aged: Candidate, newest: Candidate) {
    && SameLane(urgent, aged) && NoLaterThan(urgent, aged) && urgent.schedulingClass == Normal
    && newest.schedulingClass == Interactive && aged.createdAt < urgent.createdAt == newest.createdAt
  }

  lemma HeadsOfMixedLane(urgent: Candidate, aged: Candidate, newest: Candidate)
    requires MixedLane(urgent, aged, newest)
    ensures AreHeads([urgent, newest], [urgent, aged, newest])
  {
    var heads := [urgent, newest];
    assert urgent in heads && NoLaterThan(urgent, aged) && NoLaterThan(urgent, urgent) && SameLane(urgent, urgent);
    assert newest in heads && SameLane(newest, newest) && NoLaterThan(newest, newest);
  }

  lemma AgeOf(pool: seq<Candidate>, now: real, x: Candidate)
    requires x in pool && forall y :: y in pool ==> y.createdAt >= x.createdAt
    ensures OldestAge(pool, now) == now - x.createdAt
  {
  }

  /** What the two classes earn when the oldest jobs shown are n and i. */
  lemma TwoClasses(cands: seq<Candidate>, n: Candidate, i: Candidate, now: real, settings: SchedulerSettings)
    requires n in cands && i in cands && n.schedulingClass == Normal && i.schedulingClass == Interactive
    requires forall y :: y in cands ==> y == i || (y.schedulingClass == Normal && y.createdAt >= n.createdAt)
    ensures Contributions(settings, cands, now)
      == map[Interactive := Contribution(settings, Interactive, now - i.createdAt),
             Normal := Contribution(settings, Normal, now - n.createdAt)]
  {
    hide Contribution, OfClass, OldestAge;
    AgeOf(OfClass(cands, Normal), now, n);
    AgeOf(OfClass(cands, Interactive), now, i);
    forall c ensures OfClass(cands, c) != [] <==> c == Normal || c == Interactive {
      if OfClass(cands, c) != [] { assert OfClass(cands, c)[0] in cands; }
      assert n in OfClass(cands, Normal) && i in OfClass(cands, Interactive);
    }
  }

  lemma ChargeOfTwo(x: real, y: real)
    requires y < x
    ensures var e := map[Interactive := x, Normal := y]; Interactive in e && At(Charge(map[], e), Interactive) == -y
  {
  }

  lemma CreditsAfter(model: string, cands: seq<Candidate>, now: real, settings: SchedulerSettings)
    requires cands != []
    ensures Contributions(settings, cands, now) != map[]
    ensures CreditsOf(Chosen(FRESH, model, cands, now, settings).1, model)
      == Charge(map[], Contributions(settings, cands, now))
  {
    SomeClassPresent(settings, cands, now);
  }

  /** Interactive, outweighing the other class, pays that class's weight. */
  lemma CreditOfInteractive(model: string, cands: seq<Candidate>, n: Candidate, i: Candidate, now: real,
                            settings: SchedulerSettings)
    requires n in cands && i in cands && n.schedulingClass == Normal && i.schedulingClass == Interactive
    requires forall y :: y in cands ==> y == i || (y.schedulingClass == Normal && y.createdAt >= n.createdAt)
    requires Contribution(settings, Interactive, now - i.createdAt) > Contribution(settings, Normal, now - n.createdAt)
    ensures At(CreditsOf(Chosen(FRESH, model, cands, now, settings).1, model), Interactive)
      == -Contribution(settings, Normal, now - n.createdAt)
  {
    hide Chosen, Contributions, Contribution, Charge, CreditsOf;
    TwoClasses(cands, n, i, now, settings);
    ChargeOfTwo(Contribution(settings, Interactive, now - i.createdAt),
                Contribution(settings, Normal, now - n.createdAt));
    CreditsAfter(model, cands, now, settings);
  }

  /** When a lane mixes priorities the head hides an older job, and with it the boost
      that job gives its class: wherever that boost counts, the two picks charge
      different pots and so leave different credits behind. */
  lemma HeadHidesBoost(model: string, urgent: Candidate, aged: Candidate, newest: Candidate,
                       settings: SchedulerSettings)
    requires MixedLane(urgent, aged, newest)
    requires var aging := Contribution(settings, Normal, newest.createdAt - aged.createdAt);
      Contribution(settings, Interactive, 0.0) > aging > Contribution(settings, Normal, 0.0)
    ensures Chosen(FRESH, model, [urgent, newest], newest.createdAt, settings)
         != Chosen(FRESH, model, [urgent, aged, newest], newest.createdAt, settings)
  {
    hide Chosen, Contribution, CreditsOf;
    CreditOfInteractive(model, [urgent, newest], urgent, newest, newest.createdAt, settings);
    CreditOfInteractive(model, [urgent, aged, newest], aged, newest, newest.createdAt, settings);
  }

  /** With the default settings an urgent job in front of an old one does. */
  lemma HeadsCanHideTheBacklog()
    ensures AreHeads([URGENT, NEWEST], [URGENT, AGED, NEWEST])
    ensures Chosen(FRESH, "mock", [URGENT, NEWEST], 100.0, DEFAULTS)
         != Chosen(FRESH, "mock", [URGENT, AGED, NEWEST], 100.0, DEFAULTS)
  {
    hide Chosen, AreHeads, Contribution;
    DefaultWeights();
    HeadsOfMixedLane(URGENT, AGED, NEWEST);
    HeadHidesBoost("mock", URGENT, AGED, NEWEST, DEFAULTS);
  }

  lemma DefaultWeights()
    ensures Contribution(DEFAULTS, Interactive, 0.0) == 8.0
    ensures Contribution(DEFAULTS, Normal, 0.0) == 4.0 && Contribution(DEFAULTS, Normal, 100.0) == 6.0
  {
  }
}
