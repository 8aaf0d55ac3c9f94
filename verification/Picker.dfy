/** Deterministic weighted scheduling: weighted credit between classes, skip
    counts, priority and age between the clients of the winning class. */
module Picker {
  import opened Types
  import opened TieBreak

  type Credits = map<SchedulingClass, real>
  type Skips = map<string, nat>

  /** Credit and skip counts, per model. */
  datatype PickerState = PickerState(credit: map<string, Credits>, skips: map<string, Skips>)

  const FRESH := PickerState(map[], map[])

  function At(m: Credits, c: SchedulingClass): real {
    if c in m then m[c] else 0.0
  }

  function Skipped(skips: Skips, client: string): nat {
    if client in skips then skips[client] else 0
  }

  function CreditsOf(state: PickerState, model: string): Credits {
    if model in state.credit then state.credit[model] else map[]
  }

  function SkipsOf(state: PickerState, model: string): Skips {
    if model in state.skips then state.skips[model] else map[]
  }

  // Weights

  function OfClass(cands: seq<Candidate>, c: SchedulingClass): (r: seq<Candidate>)
    ensures forall x :: x in r <==> x in cands && x.schedulingClass == c
  {
    if cands == [] then []
    else
      var last := cands[|cands| - 1];
      var front := OfClass(cands[..|cands| - 1], c);
      assert cands == cands[..|cands| - 1] + [last];
      if last.schedulingClass == c then front + [last] else front
  }

  function OldestAge(pool: seq<Candidate>, now: real): (r: real)
    requires pool != []
    ensures exists i :: 0 <= i < |pool| && now - pool[i].createdAt == r
    ensures forall x :: x in pool ==> now - x.createdAt <= r
  {
    var age := now - pool[0].createdAt;
    assert pool == [pool[0]] + pool[1..];
    if |pool| == 1 then age
    else
      var rest := OldestAge(pool[1..], now);
      assert exists i :: 0 <= i < |pool| && now - pool[i].createdAt == rest by {
        var i :| 0 <= i < |pool| - 1 && now - pool[1..][i].createdAt == rest;
        assert now - pool[i + 1].createdAt == rest;
      }
      Max(age, rest)
  }

  function BaseWeight(settings: SchedulerSettings, c: SchedulingClass): real {
    if c in settings.classWeights then settings.classWeights[c] else 1.0
  }

  function Boost(settings: SchedulerSettings, oldestAge: real): real {
    if settings.starvationSeconds > 0.0
    then Min(oldestAge / settings.starvationSeconds, settings.starvationBoostCap)
    else 0.0
  }

  function LowestHigher(settings: SchedulerSettings, c: SchedulingClass): real
    requires c != Interactive
  {
    var top := BaseWeight(settings, Interactive);
    match c
    case Normal => top
    case Batched => Min(top, BaseWeight(settings, Normal))
    case Bulk => Min(Min(top, BaseWeight(settings, Normal)), BaseWeight(settings, Batched))
  }

  /** What a class with work is credited at one pick. */
  function Contribution(settings: SchedulerSettings, c: SchedulingClass, oldestAge: real): (r: real)
    ensures r >= 0.0
  {
    var weight := BaseWeight(settings, c);
    var boosted := weight + Boost(settings, oldestAge);
    var ceiling := if c == Interactive then boosted else LowestHigher(settings, c) * 0.75;
    Max(0.0, Min(boosted, Max(weight, ceiling)))
  }

  /** One entry per class that has a candidate. */
  function Contributions(settings: SchedulerSettings, cands: seq<Candidate>, now: real): Credits {
    map c: SchedulingClass | OfClass(cands, c) != [] :: Contribution(settings, c, OldestAge(OfClass(cands, c), now))
  }

  function Total(m: Credits): real {
    At(m, Interactive) + At(m, Normal) + At(m, Batched) + At(m, Bulk)
  }

  // Class choice

  function Raise(credits: Credits, e: Credits): Credits {
    map c | c in credits.Keys + e.Keys :: At(credits, c) + At(e, c)
  }

  /** Equal credit falls through to the higher class. */
  predicate Ahead(raised: Credits, a: SchedulingClass, b: SchedulingClass) {
    At(raised, a) > At(raised, b) || (At(raised, a) == At(raised, b) && Rank(a) < Rank(b))
  }

  function Present(e: Credits, upTo: nat := CLASS_COUNT): (r: seq<SchedulingClass>)
    requires upTo <= CLASS_COUNT
    ensures forall c :: c in r <==> Rank(c) < upTo && c in e
  {
    if upTo == 0 then []
    else
      var last := ClassAt(upTo - 1);
      var front := Present(e, upTo - 1);
      assert forall c :: Rank(c) < upTo <==> c == last || Rank(c) < upTo - 1;
      if last in e then front + [last] else front
  }

  function BestClass(raised: Credits, present: seq<SchedulingClass>): (r: SchedulingClass)
    requires present != []
    ensures r in present
    ensures forall c :: c in present ==> c == r || Ahead(raised, r, c)
  {
    var last := present[|present| - 1];
    assert present == present[..|present| - 1] + [last];
    if |present| == 1 then last
    else
      var best := BestClass(raised, present[..|present| - 1]);
      assert Rank(last) == Rank(best) ==> last == best;
      if Ahead(raised, last, best) then last else best
  }

  function Winner(raised: Credits, e: Credits): (r: SchedulingClass)
    requires e != map[]
    ensures r in e
    ensures forall c :: c in e ==> c == r || Ahead(raised, r, c)
  {
    assert forall c :: c in e ==> c in Present(e);
    BestClass(raised, Present(e))
  }

  // Client choice

  function Score(x: Candidate, skips: Skips, now: real, settings: SchedulerSettings): real {
    x.priority as real * settings.priorityWeight
    + Skipped(skips, x.clientId) as real * settings.clientSkipWeight
    + Max(0.0, now - x.createdAt) * settings.ageWeight
  }

  /** x is strictly preferred to y. */
  predicate Beats(x: Candidate, y: Candidate, skips: Skips, now: real, settings: SchedulerSettings) {
    Score(x, skips, now, settings) > Score(y, skips, now, settings)
    || (Score(x, skips, now, settings) == Score(y, skips, now, settings)
        && LexLess(Invert(y.jobId), Invert(x.jobId)))
  }

  lemma BeatsTransitive(x: Candidate, y: Candidate, z: Candidate, skips: Skips, now: real, settings: SchedulerSettings)
    requires !Beats(y, x, skips, now, settings) && !Beats(z, y, skips, now, settings)
    ensures !Beats(z, x, skips, now, settings)
  {
    if Beats(z, x, skips, now, settings) && Score(x, skips, now, settings) == Score(z, skips, now, settings) {
      LexTotal(Invert(y.jobId), Invert(z.jobId));
      LexTotal(Invert(x.jobId), Invert(y.jobId));
      LexTotal(Invert(x.jobId), Invert(z.jobId));
      if Invert(x.jobId) != Invert(y.jobId) && Invert(y.jobId) != Invert(z.jobId) {
        LexTransitive(Invert(z.jobId), Invert(y.jobId), Invert(x.jobId));
      }
    }
  }

  /** The first candidate that no other beats. */
  function BestOf(pool: seq<Candidate>, skips: Skips, now: real, settings: SchedulerSettings): (r: Candidate)
    requires pool != []
    ensures r in pool
    ensures forall y :: y in pool ==> !Beats(y, r, skips, now, settings)
  {
    var last := pool[|pool| - 1];
    assert pool == pool[..|pool| - 1] + [last];
    if |pool| == 1 then
      LexTotal(Invert(last.jobId), Invert(last.jobId));
      last
    else
      var best := BestOf(pool[..|pool| - 1], skips, now, settings);
      LexTotal(Invert(last.jobId), Invert(last.jobId));
      LexTotal(Invert(best.jobId), Invert(last.jobId));
      if Beats(last, best, skips, now, settings) then
        assert forall y :: y in pool ==> !Beats(y, last, skips, now, settings) by {
          forall y | y in pool[..|pool| - 1] ensures !Beats(y, last, skips, now, settings) {
            BeatsTransitive(last, best, y, skips, now, settings);
          }
        }
        last
      else best
  }

  function Clients(pool: seq<Candidate>): set<string> {
    set x | x in pool :: x.clientId
  }

  /** The winner's client starts over; every other client of the pool waited once more. */
  function CountSkips(skips: Skips, clients: set<string>, winner: string): Skips {
    map client | client in skips.Keys + clients ::
      if client !in clients then skips[client]
      else if client == winner then 0
      else Skipped(skips, client) + 1
  }

  // One pick

  lemma SomeClassPresent(settings: SchedulerSettings, cands: seq<Candidate>, now: real)
    requires cands != []
    ensures Contributions(settings, cands, now) != map[]
  {
    var c := cands[0].schedulingClass;
    assert cands[0] in OfClass(cands, c);
    assert c in Contributions(settings, cands, now);
  }

  function WinningClass(state: PickerState, model: string, cands: seq<Candidate>, now: real,
                        settings: SchedulerSettings): (r: SchedulingClass)
    requires cands != []
    ensures r in Contributions(settings, cands, now)
  {
    SomeClassPresent(settings, cands, now);
    var e := Contributions(settings, cands, now);
    Winner(Raise(CreditsOf(state, model), e), e)
  }

  function WinningPool(state: PickerState, model: string, cands: seq<Candidate>, now: real,
                       settings: SchedulerSettings): (r: seq<Candidate>)
    requires cands != []
    ensures r != [] && forall x :: x in r ==> x in cands
  {
    OfClass(cands, WinningClass(state, model, cands, now, settings))
  }

  /** Every class with work is credited; the winner pays the whole pot. */
  function Charge(credits: Credits, e: Credits): Credits
    requires e != map[]
  {
    var raised := Raise(credits, e);
    var winner := Winner(raised, e);
    raised[winner := At(raised, winner) - Total(e)]
  }

  /** The chosen candidate and the state to commit if its claim succeeds. */
  function Chosen(state: PickerState, model: string, cands: seq<Candidate>, now: real,
                  settings: SchedulerSettings): (Option<Candidate>, PickerState) {
    if cands == [] then (None, state)
    else
      SomeClassPresent(settings, cands, now);
      var pool := WinningPool(state, model, cands, now, settings);
      var best := BestOf(pool, SkipsOf(state, model), now, settings);
      (Some(best),
       PickerState(
         state.credit[model := Charge(CreditsOf(state, model), Contributions(settings, cands, now))],
         state.skips[model := CountSkips(SkipsOf(state, model), Clients(pool), best.clientId)]))
  }

  // What a pick means, in the fields of settings and candidates

  ghost predicate OldestOfClass(cands: seq<Candidate>, x: Candidate) {
    x in cands && forall y :: y in cands && y.schedulingClass == x.schedulingClass ==> x.createdAt <= y.createdAt
  }

  /** The weight of a class before any ceiling: its base weight, and one more for every
      starvationSeconds its oldest job has waited, up to the cap. */
  ghost predicate GrowsTo(settings: SchedulerSettings, c: SchedulingClass, age: real, grown: real) {
    var base := if c in settings.classWeights then settings.classWeights[c] else 1.0;
    var s, cap := settings.starvationSeconds, settings.starvationBoostCap;
    && (s <= 0.0 ==> grown == base)
    && (s > 0.0 && age <= cap * s ==> (grown - base) * s == age)
    && (s > 0.0 && age >= cap * s ==> grown == base + cap)
  }

  /** What the class earns: that weight, unless it has outgrown its own base weight and
      three quarters of the lowest base weight above it, which is then the ceiling. */
  ghost predicate EarnsAt(settings: SchedulerSettings, c: SchedulingClass, grown: real, w: real) {
    var base := BaseWeight(settings, c);
    var fits := grown <= base || forall h :: Rank(h) < Rank(c) ==> 4.0 * grown <= 3.0 * BaseWeight(settings, h);
    && (fits ==> w == Max(0.0, grown))
    && (!fits ==> exists h ::
          Rank(h) < Rank(c) && (forall k :: Rank(k) < Rank(c) ==> BaseWeight(settings, h) <= BaseWeight(settings, k))
          && w == Max(0.0, Max(base, 0.75 * BaseWeight(settings, h))))
  }

  ghost predicate Earns(settings: SchedulerSettings, cands: seq<Candidate>, now: real, c: SchedulingClass, w: real) {
    && ((forall x :: x in cands ==> x.schedulingClass != c) ==> w == 0.0)
    && forall x :: OldestOfClass(cands, x) && x.schedulingClass == c ==>
         exists grown :: GrowsTo(settings, c, now - x.createdAt, grown) && EarnsAt(settings, c, grown, w)
  }

  ghost predicate AllEarn(settings: SchedulerSettings, cands: seq<Candidate>, now: real, e: Credits) {
    forall c: SchedulingClass :: Earns(settings, cands, now, c, At(e, c))
  }

  /** Every class earns by the age of its oldest job; the class picked had the most
      credit of those with jobs, ties to the higher, and pays for all of them. */
  ghost predicate CreditedByAge(before: Credits, after: Credits, settings: SchedulerSettings, cands: seq<Candidate>,
                                now: real, picked: SchedulingClass) {
    exists e :: AllEarn(settings, cands, now, e) && PaidBy(before, after, e, cands, picked)
  }

  ghost predicate PaidBy(before: Credits, after: Credits, e: Credits, cands: seq<Candidate>, picked: SchedulingClass) {
    && (forall c: SchedulingClass :: c != picked ==> At(after, c) == At(before, c) + At(e, c))
    && At(after, picked)
       == At(before, picked) + At(e, picked) - (At(e, Interactive) + At(e, Normal) + At(e, Batched) + At(e, Bulk))
    && forall x :: x in cands ==>
         var mine, most := At(before, x.schedulingClass) + At(e, x.schedulingClass), At(before, picked) + At(e, picked);
         mine < most || (mine == most && Rank(picked) <= Rank(x.schedulingClass))
  }

  /** x scores at most what best does: priority, turns its client was passed over, and
      age, each by its weight. */
  predicate NotAbove(x: Candidate, best: Candidate, skips: Skips, now: real, settings: SchedulerSettings) {
    (x.priority - best.priority) as real * settings.priorityWeight
    + (Skipped(skips, x.clientId) - Skipped(skips, best.clientId)) as real * settings.clientSkipWeight
    + (Max(0.0, now - x.createdAt) - Max(0.0, now - best.createdAt)) * settings.ageWeight <= 0.0
  }

  /** Between equal scores the smaller id wins, unless one id is a prefix of the other. */
  ghost predicate TieGoesTo(winner: Id, loser: Id) {
    winner == loser || IdBefore(winner, loser) || loser < winner
  }

  lemma BoostIsAge(settings: SchedulerSettings, c: SchedulingClass, age: real)
    ensures GrowsTo(settings, c, age, BaseWeight(settings, c) + Boost(settings, age))
  {
    var s, cap := settings.starvationSeconds, settings.starvationBoostCap;
    if s > 0.0 {
      assert (age / s) * s == age;
      if age <= cap * s {
        assert age / s <= cap;
      } else {
        assert age / s > cap;
      }
    }
  }

  lemma ContributionIsEarned(settings: SchedulerSettings, c: SchedulingClass, age: real)
    ensures EarnsAt(settings, c, BaseWeight(settings, c) + Boost(settings, age), Contribution(settings, c, age))
  {
    hide Boost, BaseWeight, LowestHigher;
    if c != Interactive {
      LowestIsLeast(settings, c);
      var h := LowestIsOne(settings, c);
    }
  }

  lemma LowestIsLeast(settings: SchedulerSettings, c: SchedulingClass)
    requires c != Interactive
    ensures forall h :: Rank(h) < Rank(c) ==> LowestHigher(settings, c) <= BaseWeight(settings, h)
  {
  }

  lemma LowestIsOne(settings: SchedulerSettings, c: SchedulingClass) returns (h: SchedulingClass)
    requires c != Interactive
    ensures Rank(h) < Rank(c) && BaseWeight(settings, h) == LowestHigher(settings, c)
  {
    h :| Rank(h) < Rank(c) && BaseWeight(settings, h) == LowestHigher(settings, c);
  }

  lemma ContributionsAreEarned(settings: SchedulerSettings, cands: seq<Candidate>, now: real)
    ensures AllEarn(settings, cands, now, Contributions(settings, cands, now))
  {
    hide Contributions, Earns;
    forall c: SchedulingClass ensures Earns(settings, cands, now, c, At(Contributions(settings, cands, now), c)) {
      ClassEarns(settings, cands, now, c);
    }
  }

  lemma ClassEarns(settings: SchedulerSettings, cands: seq<Candidate>, now: real, c: SchedulingClass)
    ensures Earns(settings, cands, now, c, At(Contributions(settings, cands, now), c))
  {
    hide Boost, Contribution, GrowsTo, EarnsAt, BaseWeight, OldestAge, OfClass;
    if OfClass(cands, c) == [] {
      NobodyOfClass(cands, c);
    } else {
      var age := OldestAge(OfClass(cands, c), now);
      assert At(Contributions(settings, cands, now), c) == Contribution(settings, c, age);
      BoostIsAge(settings, c, age);
      ContributionIsEarned(settings, c, age);
      forall x | OldestOfClass(cands, x) && x.schedulingClass == c ensures now - x.createdAt == age {
        OldestHasTheAge(cands, now, x);
      }
      SomebodyOfClass(cands, c);
    }
  }

  lemma NobodyOfClass(cands: seq<Candidate>, c: SchedulingClass)
    requires OfClass(cands, c) == []
    ensures forall x :: x in cands ==> x.schedulingClass != c
  {
    forall x | x in cands ensures x.schedulingClass != c {
      assert x.schedulingClass == c ==> x in OfClass(cands, c);
    }
  }

  lemma SomebodyOfClass(cands: seq<Candidate>, c: SchedulingClass)
    requires OfClass(cands, c) != []
    ensures exists x :: x in cands && x.schedulingClass == c
  {
    assert OfClass(cands, c)[0] in cands;
  }

  lemma OldestHasTheAge(cands: seq<Candidate>, now: real, x: Candidate)
    requires OldestOfClass(cands, x)
    ensures OfClass(cands, x.schedulingClass) != []
    ensures OldestAge(OfClass(cands, x.schedulingClass), now) == now - x.createdAt
  {
    assert x in OfClass(cands, x.schedulingClass);
  }

  lemma PickIsEarned(state: PickerState, model: string, cands: seq<Candidate>, now: real, settings: SchedulerSettings)
    ensures var (choice, next) := Chosen(state, model, cands, now, settings);
      && (choice.None? <==> cands == [])
      && (choice.Some? ==> choice.value in cands)
      && (choice.Some? ==>
            CreditedByAge(CreditsOf(state, model), CreditsOf(next, model), settings, cands, now,
                          choice.value.schedulingClass))
  {
    if cands != [] {
      var before, e := CreditsOf(state, model), Contributions(settings, cands, now);
      SomeClassPresent(settings, cands, now);
      ContributionsAreEarned(settings, cands, now);
      hide Contributions, AllEarn, BestOf;
      var (choice, next) := Chosen(state, model, cands, now, settings);
      var picked := choice.value.schedulingClass;
      assert picked == Winner(Raise(before, e), e);
      PresentAreThere(settings, cands, now);
      WinnerPays(before, e, cands, picked);
      assert PaidBy(before, CreditsOf(next, model), e, cands, picked);
    }
  }

  lemma PresentAreThere(settings: SchedulerSettings, cands: seq<Candidate>, now: real)
    ensures forall x :: x in cands ==> x.schedulingClass in Contributions(settings, cands, now)
  {
    forall x | x in cands ensures x.schedulingClass in Contributions(settings, cands, now) {
      assert x in OfClass(cands, x.schedulingClass);
    }
  }

  lemma WinnerPays(before: Credits, e: Credits, cands: seq<Candidate>, picked: SchedulingClass)
    requires e != map[] && picked == Winner(Raise(before, e), e)
    requires forall x :: x in cands ==> x.schedulingClass in e
    ensures PaidBy(before, Charge(before, e), e, cands, picked)
  {
    hide Winner, Total;
    var raised := Raise(before, e);
    forall c: SchedulingClass ensures At(raised, c) == At(before, c) + At(e, c) {
    }
    forall x | x in cands ensures x.schedulingClass == picked || Ahead(raised, picked, x.schedulingClass) {
    }
    PotIs(e);
  }

  lemma PotIs(e: Credits)
    ensures Total(e) == At(e, Interactive) + At(e, Normal) + At(e, Batched) + At(e, Bulk)
  {
  }

  lemma PickScoresMost(state: PickerState, model: string, cands: seq<Candidate>, now: real, settings: SchedulerSettings)
    ensures var choice := Chosen(state, model, cands, now, settings).0;
      forall x :: choice.Some? && x in cands && x.schedulingClass == choice.value.schedulingClass ==>
        NotAbove(x, choice.value, SkipsOf(state, model), now, settings)
        && (NotAbove(choice.value, x, SkipsOf(state, model), now, settings) ==> TieGoesTo(choice.value.jobId, x.jobId))
  {
    hide TieGoesTo;
    hide Contributions, Charge, CountSkips, Score, NotAbove;
    var choice := Chosen(state, model, cands, now, settings).0;
    forall x | choice.Some? && x in cands && x.schedulingClass == choice.value.schedulingClass
      ensures NotAbove(x, choice.value, SkipsOf(state, model), now, settings)
      ensures NotAbove(choice.value, x, SkipsOf(state, model), now, settings) ==> TieGoesTo(choice.value.jobId, x.jobId)
    {
      assert x in WinningPool(state, model, cands, now, settings);
      assert !Beats(x, choice.value, SkipsOf(state, model), now, settings);
      UnbeatenScoresMost(x, choice.value, SkipsOf(state, model), now, settings);
    }
  }

  lemma UnbeatenScoresMost(x: Candidate, best: Candidate, skips: Skips, now: real, settings: SchedulerSettings)
    requires !Beats(x, best, skips, now, settings)
    ensures NotAbove(x, best, skips, now, settings)
    ensures NotAbove(best, x, skips, now, settings) ==> TieGoesTo(best.jobId, x.jobId)
  {
    ScoresApart(x, best, skips, now, settings);
    ScoresApart(best, x, skips, now, settings);
    UninvertedTie(best.jobId, x.jobId);
    hide NotAbove, Score, TieGoesTo;
  }

  lemma UninvertedTie(best: Id, x: Id)
    ensures !LexLess(Invert(best), Invert(x)) ==> TieGoesTo(best, x)
  {
    LexTotal(Invert(best), Invert(x));
    LexTotal(Codes(best), Codes(x));
    CodesInjective(best, x);
    InvertReverses(best, x);
    LexIsStringOrder(best, x);
  }

  lemma ScoresApart(x: Candidate, best: Candidate, skips: Skips, now: real, settings: SchedulerSettings)
    ensures NotAbove(x, best, skips, now, settings)
      <==> Score(x, skips, now, settings) <= Score(best, skips, now, settings)
  {
    Apart(x.priority as real, best.priority as real, settings.priorityWeight);
    Apart(Skipped(skips, x.clientId) as real, Skipped(skips, best.clientId) as real, settings.clientSkipWeight);
    Apart(Max(0.0, now - x.createdAt), Max(0.0, now - best.createdAt), settings.ageWeight);
  }

  lemma Apart(a: real, b: real, k: real)
    ensures (a - b) * k == a * k - b * k
  {
  }

  method WeighGroups(settings: SchedulerSettings, ghost cands: seq<Candidate>, now: real,
                     byClass: map<SchedulingClass, seq<Candidate>>)
    returns (e: Credits)
    requires forall c: SchedulingClass :: c in byClass && byClass[c] == OfClass(cands, c)
    ensures e == Contributions(settings, cands, now)
  {
    hide Contribution, OldestAge, OfClass;
    e := map c: SchedulingClass | byClass[c] != [] :: Contribution(settings, c, OldestAge(byClass[c], now));
  }

  method Select(state: PickerState, model: string, cands: seq<Candidate>, now: real, settings: SchedulerSettings)
    returns (choice: Option<Candidate>, next: PickerState)
    ensures (choice, next) == Chosen(state, model, cands, now, settings)
    ensures choice.None? <==> cands == []
    ensures choice.Some? ==> choice.value in cands
    ensures choice.Some? ==>
      CreditedByAge(CreditsOf(state, model), CreditsOf(next, model), settings, cands, now, choice.value.schedulingClass)
    ensures forall x :: choice.Some? && x in cands && x.schedulingClass == choice.value.schedulingClass ==>
      NotAbove(x, choice.value, SkipsOf(state, model), now, settings)
      && (NotAbove(choice.value, x, SkipsOf(state, model), now, settings) ==> TieGoesTo(choice.value.jobId, x.jobId))
  {
    hide CreditedByAge, NotAbove, TieGoesTo, Contribution, Charge, CountSkips, OldestAge;
    PickIsEarned(state, model, cands, now, settings);
    PickScoresMost(state, model, cands, now, settings);
    if cands == [] {
      return None, state;
    }
    SomeClassPresent(settings, cands, now);
    var byClass := GroupByClass(cands);
    var e := WeighGroups(settings, cands, now, byClass);
    var chosenClass, credits := ChooseClass(CreditsOf(state, model), e);
    var pool := byClass[chosenClass];
    var skips := SkipsOf(state, model);
    var best := BestOf(pool, skips, now, settings);
    var counted := CountLoop(skips, Clients(pool), best.clientId);
    next := PickerState(state.credit[model := credits], state.skips[model := counted]);
    choice := Some(best);
  }

  method ChooseClass(before: Credits, e: Credits) returns (chosenClass: SchedulingClass, credits: Credits)
    requires e != map[]
    ensures chosenClass == Winner(Raise(before, e), e) && credits == Charge(before, e)
  {
    var total, present;
    credits, total, present := RaiseCredits(before, e);
    PresentIsNonEmpty(e);
    chosenClass := BestClass(credits, present);
    credits := credits[chosenClass := At(credits, chosenClass) - total];
  }

  lemma PresentIsNonEmpty(e: Credits)
    requires e != map[]
    ensures Present(e) != []
  {
  }

  method GroupByClass(cands: seq<Candidate>) returns (byClass: map<SchedulingClass, seq<Candidate>>)
    ensures forall c: SchedulingClass :: c in byClass && byClass[c] == OfClass(cands, c)
  {
    byClass := map[Interactive := [], Normal := [], Batched := [], Bulk := []];
    assert forall c: SchedulingClass :: Rank(c) < CLASS_COUNT ==> c in byClass && byClass[c] == [];
    for i := 0 to |cands|
      invariant forall c: SchedulingClass :: c in byClass && byClass[c] == OfClass(cands[..i], c)
    {
      assert cands[..i + 1][..i] == cands[..i];
      var c := cands[i].schedulingClass;
      byClass := byClass[c := byClass[c] + [cands[i]]];
    }
    assert cands[..|cands|] == cands;
  }

  function SumUpTo(m: Credits, k: nat): real
    requires k <= CLASS_COUNT
  {
    if k == 0 then 0.0 else SumUpTo(m, k - 1) + At(m, ClassAt(k - 1))
  }

  lemma SumOfAll(m: Credits)
    ensures SumUpTo(m, CLASS_COUNT) == Total(m)
  {
    assert SumUpTo(m, 4) == SumUpTo(m, 3) + At(m, Bulk);
    assert SumUpTo(m, 3) == SumUpTo(m, 2) + At(m, Batched);
    assert SumUpTo(m, 2) == SumUpTo(m, 1) + At(m, Normal);
    assert SumUpTo(m, 1) == SumUpTo(m, 0) + At(m, Interactive);
  }

  method RaiseCredits(before: Credits, e: Credits)
    returns (credits: Credits, total: real, present: seq<SchedulingClass>)
    ensures credits == Raise(before, e) && total == Total(e) && present == Present(e)
  {
    credits, total, present := before, 0.0, [];
    for k := 0 to CLASS_COUNT
      invariant present == Present(e, k)
      invariant total == SumUpTo(e, k)
      invariant forall c: SchedulingClass :: c in credits <==> c in before || (c in e && Rank(c) < k)
      invariant forall c: SchedulingClass ::
        At(credits, c) == At(before, c) + (if Rank(c) < k then At(e, c) else 0.0)
    {
      var name := ClassAt(k);
      assert forall c :: Rank(c) < k + 1 <==> c == name || Rank(c) < k;
      if name in e {
        credits := credits[name := At(credits, name) + e[name]];
        total := total + e[name];
        present := present + [name];
      }
    }
    SumOfAll(e);
    RaiseByEntries(before, e, credits);
  }

  lemma RaiseByEntries(before: Credits, e: Credits, credits: Credits)
    requires forall c: SchedulingClass :: c in credits <==> c in before || c in e
    requires forall c: SchedulingClass :: At(credits, c) == At(before, c) + At(e, c)
    ensures credits == Raise(before, e)
  {
  }

  /** Visits the clients of the pool in any order. */
  lemma OneMoreCounted(skips: Skips, counted: set<string>, winner: string, client: string)
    requires client !in counted
    ensures var before := CountSkips(skips, counted, winner);
      CountSkips(skips, counted + {client}, winner)
      == before[client := if client == winner then 0 else Skipped(before, client) + 1]
  {
  }

  lemma NoneCounted(skips: Skips, winner: string)
    ensures CountSkips(skips, {}, winner) == skips
  {
  }

  method CountLoop(skips: Skips, clients: set<string>, winner: string) returns (r: Skips)
    ensures r == CountSkips(skips, clients, winner)
  {
    hide CountSkips;
    NoneCounted(skips, winner);
    r := skips;
    var left := clients;
    ghost var counted: set<string> := {};
    while left != {}
      invariant counted + left == clients && counted !! left
      invariant r == CountSkips(skips, counted, winner)
      decreases |left|
    {
      var client :| client in left;
      OneMoreCounted(skips, counted, winner, client);
      if client == winner {
        r := r[client := 0];
      } else {
        r := r[client := Skipped(r, client) + 1];
      }
      left, counted := left - {client}, counted + {client};
    }
  }
}
