/** Class credit over whole runs of the picker: conservation, bounds that no
    sequence of backlogs can exceed, and the fairness that follows from them. */
module CreditRuns {
  import opened Types
  import opened Picker

  // The weights the settings allow

  function BoostCap(settings: SchedulerSettings): real {
    if settings.starvationSeconds > 0.0 then settings.starvationBoostCap else 0.0
  }

  /** The largest contribution a class can make, whatever its backlog. */
  function Ceiling(settings: SchedulerSettings, c: SchedulingClass): real {
    var weight := BaseWeight(settings, c);
    var boosted := weight + BoostCap(settings);
    Max(0.0, if c == Interactive then boosted else Min(boosted, Max(weight, LowestHigher(settings, c) * 0.75)))
  }

  /** w bounds every effective weight the settings allow. */
  ghost predicate CapsWeights(settings: SchedulerSettings, w: real) {
    forall c: SchedulingClass :: Ceiling(settings, c) <= w
  }

  lemma ContributionBound(settings: SchedulerSettings, c: SchedulingClass, age: real)
    ensures 0.0 <= Contribution(settings, c, age) <= Ceiling(settings, c)
  {
  }

  /** The caps are exactly the bounds of the weights: each ceiling is reached by some
      backlog. */
  lemma CeilingAttained(settings: SchedulerSettings, c: SchedulingClass)
    ensures exists age :: age >= 0.0 && Contribution(settings, c, age) == Ceiling(settings, c)
  {
    var capped := settings.starvationSeconds > 0.0 && settings.starvationBoostCap > 0.0;
    var age := if capped then settings.starvationSeconds * settings.starvationBoostCap else 0.0;
    if capped {
      assert age / settings.starvationSeconds == settings.starvationBoostCap;
    }
    assert Contribution(settings, c, age) == Ceiling(settings, c);
  }

  /** The boost keeps a class below every higher one, for every backlog age, if and
      only if the lowest higher weight is positive and above the class's own weight,
      or above it once a negative boost is added. */
  lemma BoostStaysBelowHigherClass(settings: SchedulerSettings, c: SchedulingClass)
    requires c != Interactive
    ensures (forall age :: Contribution(settings, c, age) < LowestHigher(settings, c))
            <==> LowestHigher(settings, c) > 0.0
                 && Min(BaseWeight(settings, c), BaseWeight(settings, c) + BoostCap(settings))
                   < LowestHigher(settings, c)
  {
    forall age { ContributionBound(settings, c, age); }
    var age :| Contribution(settings, c, age) == Ceiling(settings, c) by { CeilingAttained(settings, c); }
  }

  // One step

  function SumOver(x: set<SchedulingClass>, m: Credits): real {
    (if Interactive in x then At(m, Interactive) else 0.0)
    + (if Normal in x then At(m, Normal) else 0.0)
    + (if Batched in x then At(m, Batched) else 0.0)
    + (if Bulk in x then At(m, Bulk) else 0.0)
  }

  function Count(x: set<SchedulingClass>): nat {
    (if Interactive in x then 1 else 0) + (if Normal in x then 1 else 0)
    + (if Batched in x then 1 else 0) + (if Bulk in x then 1 else 0)
  }

  /** How many maximal weights any k classes together can be in credit. */
  function Slack(k: nat): real {
    if k == 1 then 5.0 else if k == 2 then 8.0 else if k == 3 then 7.0 else 0.0
  }

  ghost predicate Bounded(credits: Credits, w: real) {
    && Total(credits) == 0.0
    && forall x: set<SchedulingClass> :: SumOver(x, credits) <= Slack(Count(x)) * w
  }

  ghost predicate Weights(e: Credits, w: real) {
    forall c :: c in e ==> 0.0 <= e[c] <= w
  }

  lemma ChargeEntry(credits: Credits, e: Credits, c: SchedulingClass)
    requires e != map[]
    ensures At(Charge(credits, e), c)
      == At(credits, c) + At(e, c) - (if c == Winner(Raise(credits, e), e) then Total(e) else 0.0)
  {
  }

  lemma ChargeSum(credits: Credits, e: Credits, x: set<SchedulingClass>)
    requires e != map[]
    ensures SumOver(x, Charge(credits, e))
      == SumOver(x, credits) + SumOver(x, e) - (if Winner(Raise(credits, e), e) in x then Total(e) else 0.0)
  {
    hide Charge, Raise, Winner, Total;
    forall c: SchedulingClass
      ensures At(Charge(credits, e), c)
        == At(credits, c) + At(e, c) - (if c == Winner(Raise(credits, e), e) then Total(e) else 0.0)
    {
      ChargeEntry(credits, e, c);
    }
  }

  lemma SumShrinks(x: set<SchedulingClass>, c: SchedulingClass, m: Credits)
    requires c in x
    ensures SumOver(x - {c}, m) == SumOver(x, m) - At(m, c)
    ensures Count(x - {c}) == Count(x) - 1
  {
  }

  lemma SumGrows(x: set<SchedulingClass>, c: SchedulingClass, m: Credits)
    requires c !in x
    ensures SumOver(x + {c}, m) == SumOver(x, m) + At(m, c)
    ensures Count(x + {c}) == Count(x) + 1
  {
  }

  lemma WeightSum(e: Credits, w: real, x: set<SchedulingClass>)
    requires Weights(e, w) && w >= 0.0
    ensures 0.0 <= SumOver(x, e) <= Count(x) as real * w
    ensures SumOver(x, e) <= Total(e)
  {
  }

  /** A set of classes without the winner: its richest present member bounds the
      winner from below, and the two neighbouring set sizes bound the set. */
  lemma LosersStayBounded(credits: Credits, e: Credits, w: real, x: set<SchedulingClass>, i: SchedulingClass,
                          j: SchedulingClass)
    requires Bounded(credits, w) && Weights(e, w) && w >= 0.0
    requires i in x && j !in x
    requires At(credits, i) + At(e, i) <= At(credits, j) + At(e, j)
    ensures SumOver(x, credits) + SumOver(x, e) <= Slack(Count(x)) * w
  {
    hide Bounded, Weights, SumOver;
    Neighbours(credits, w, x, i, j);
    LosersWeigh(e, w, x, i);
    Midpoint(Count(x), w, SumOver(x, credits), SumOver(x, e), At(credits, i), At(e, i), At(credits, j), At(e, j));
  }

  lemma Neighbours(credits: Credits, w: real, x: set<SchedulingClass>, i: SchedulingClass, j: SchedulingClass)
    requires Bounded(credits, w) && i in x && j !in x
    ensures 1 <= Count(x) <= 3
    ensures SumOver(x, credits) - At(credits, i) <= Slack(Count(x) - 1) * w
    ensures SumOver(x, credits) + At(credits, j) <= Slack(Count(x) + 1) * w
  {
    SumShrinks(x, i, credits);
    SumGrows(x, j, credits);
    assert SumOver(x - {i}, credits) <= Slack(Count(x - {i})) * w;
    assert SumOver(x + {j}, credits) <= Slack(Count(x + {j})) * w;
  }

  lemma LosersWeigh(e: Credits, w: real, x: set<SchedulingClass>, i: SchedulingClass)
    requires Weights(e, w) && w >= 0.0 && i in x
    ensures SumOver(x, e) - At(e, i) <= (Count(x) - 1) as real * w
    ensures forall c :: At(e, c) <= w
  {
    SumShrinks(x, i, e);
    WeightSum(e, w, x - {i});
  }

  lemma WinnerIsRichest(credits: Credits, e: Credits, i: SchedulingClass)
    requires e != map[] && i in e
    ensures var j := Winner(Raise(credits, e), e);
      At(credits, i) + At(e, i) <= At(credits, j) + At(e, j)
  {
  }

  lemma Midpoint(k: nat, w: real, credit: real, weight: real, ci: real, ei: real, cj: real, ej: real)
    requires 1 <= k <= 3
    requires credit - ci <= Slack(k - 1) * w && credit + cj <= Slack(k + 1) * w
    requires ci + ei <= cj + ej && ei <= w && ej <= w && weight - ei <= (k - 1) as real * w
    ensures credit + weight <= Slack(k) * w
  {
  }

  lemma ChargeKeepsBounds(credits: Credits, e: Credits, w: real)
    requires Bounded(credits, w) && Weights(e, w) && w >= 0.0 && e != map[]
    ensures Bounded(Charge(credits, e), w)
  {
    var next := Charge(credits, e);
    forall x: set<SchedulingClass>
      ensures SumOver(x, next) <= Slack(Count(x)) * w
    {
      ChargeSum(credits, e, x);
      WeightSum(e, w, x);
      if Winner(Raise(credits, e), e) !in x {
        if i :| i in x && i in e {
          WinnerIsRichest(credits, e, i);
          LosersStayBounded(credits, e, w, x, i, Winner(Raise(credits, e), e));
        } else {
          assert SumOver(x, e) == 0.0;
        }
      }
    }
    ChargeSum(credits, e, {Interactive, Normal, Batched, Bulk});
    assert Winner(Raise(credits, e), e) in {Interactive, Normal, Batched, Bulk};
  }

  // Rounds: the weights of the classes with work, pick after pick

  function Play(credits: Credits, rounds: seq<Credits>): Credits
    requires map[] !in rounds
  {
    if rounds == [] then credits
    else Charge(Play(credits, rounds[..|rounds| - 1]), rounds[|rounds| - 1])
  }

  ghost predicate WeightRounds(rounds: seq<Credits>, w: real) {
    w >= 0.0 && map[] !in rounds && forall e :: e in rounds ==> Weights(e, w)
  }

  lemma {:induction false} PlayKeepsBounds(credits: Credits, rounds: seq<Credits>, w: real)
    requires Bounded(credits, w) && WeightRounds(rounds, w)
    ensures Bounded(Play(credits, rounds), w)
  {
    if rounds != [] {
      PlayKeepsBounds(credits, rounds[..|rounds| - 1], w);
      ChargeKeepsBounds(Play(credits, rounds[..|rounds| - 1]), rounds[|rounds| - 1], w);
    }
  }

  lemma EntryBound(credits: Credits, w: real, c: SchedulingClass)
    requires Bounded(credits, w)
    ensures -7.0 * w <= At(credits, c) <= 5.0 * w
  {
    var all := {Interactive, Normal, Batched, Bulk};
    assert SumOver({c}, credits) == At(credits, c) && Count({c}) == 1;
    SumShrinks(all, c, credits);
    assert SumOver(all - {c}, credits) <= Slack(Count(all - {c})) * w;
  }

  // Runs of the picker

  /** One call of the picker. A lost claim discards the proposed state. */
  datatype Pick = Pick(model: string, cands: seq<Candidate>, now: real, claimed: bool)

  function Next(state: PickerState, p: Pick, settings: SchedulerSettings): PickerState {
    if p.claimed then Chosen(state, p.model, p.cands, p.now, settings).1 else state
  }

  function After(state: PickerState, run: seq<Pick>, settings: SchedulerSettings): PickerState {
    if run == [] then state
    else Next(After(state, run[..|run| - 1], settings), run[|run| - 1], settings)
  }

  /** A pick that changes the state of a model. */
  predicate Counts(p: Pick, model: string) {
    p.claimed && p.model == model && p.cands != []
  }

  /** The rounds a run plays on one model. */
  function Rounds(run: seq<Pick>, settings: SchedulerSettings, model: string): (r: seq<Credits>)
    ensures map[] !in r
  {
    if run == [] then []
    else
      var p := run[|run| - 1];
      var front := Rounds(run[..|run| - 1], settings, model);
      if Counts(p, model) then
        SomeClassPresent(settings, p.cands, p.now);
        front + [Contributions(settings, p.cands, p.now)]
      else front
  }

  lemma ContributionsAreWeights(settings: SchedulerSettings, cands: seq<Candidate>, now: real, w: real)
    requires CapsWeights(settings, w)
    ensures Weights(Contributions(settings, cands, now), w) && w >= 0.0
  {
    var e := Contributions(settings, cands, now);
    forall c | c in e ensures 0.0 <= e[c] <= w {
      ContributionBound(settings, c, OldestAge(OfClass(cands, c), now));
    }
    assert Ceiling(settings, Interactive) >= 0.0;
  }

  lemma {:induction false} RoundsAreWeights(run: seq<Pick>, settings: SchedulerSettings, model: string, w: real)
    requires CapsWeights(settings, w)
    ensures WeightRounds(Rounds(run, settings, model), w)
  {
    hide Ceiling;
    ContributionsAreWeights(settings, [], 0.0, w);
    if run != [] {
      RoundsAreWeights(run[..|run| - 1], settings, model, w);
      ContributionsAreWeights(settings, run[|run| - 1].cands, run[|run| - 1].now, w);
    }
  }

  /** A counting pick plays its round: the chosen job belongs to the round's
      winning class and only that model's credits are charged. */
  lemma PickPlaysRound(state: PickerState, p: Pick, settings: SchedulerSettings)
    requires p.cands != []
    ensures Contributions(settings, p.cands, p.now) != map[]
    ensures var e := Contributions(settings, p.cands, p.now);
      var (choice, next) := Chosen(state, p.model, p.cands, p.now, settings);
      && choice.Some? && choice.value in p.cands
      && choice.value.schedulingClass == Winner(Raise(CreditsOf(state, p.model), e), e)
      && next.credit == state.credit[p.model := Charge(CreditsOf(state, p.model), e)]
  {
    SomeClassPresent(settings, p.cands, p.now);
  }

  lemma {:induction false} CreditsFollowRounds(state: PickerState, run: seq<Pick>, settings: SchedulerSettings,
                                               model: string)
    ensures CreditsOf(After(state, run, settings), model) == Play(CreditsOf(state, model), Rounds(run, settings, model))
  {
    hide Charge, Contributions;
    if run != [] {
      var front, p := run[..|run| - 1], run[|run| - 1];
      CreditsFollowRounds(state, front, settings, model);
      if p.cands != [] {
        PickPlaysRound(After(state, front, settings), p, settings);
      }
      if Counts(p, model) {
        var rounds := Rounds(run, settings, model);
        assert rounds[..|rounds| - 1] == Rounds(front, settings, model);
      }
    }
  }

  lemma HistoryIsBounded(history: seq<Pick>, settings: SchedulerSettings, model: string, w: real)
    requires CapsWeights(settings, w)
    ensures Bounded(CreditsOf(After(FRESH, history, settings), model), w)
  {
    RoundsAreWeights(history, settings, model, w);
    assert Bounded(map[], w);
    PlayKeepsBounds(map[], Rounds(history, settings, model), w);
    CreditsFollowRounds(FRESH, history, settings, model);
  }

  /** Main bound. From an empty picker, whatever the candidates, ages and claim
      outcomes, a model's credits sum to zero and stay in [-7w, 5w]. */
  lemma CreditStaysBounded(run: seq<Pick>, settings: SchedulerSettings, model: string, w: real, c: SchedulingClass)
    requires CapsWeights(settings, w)
    ensures Total(CreditsOf(After(FRESH, run, settings), model)) == 0.0
    ensures -7.0 * w <= At(CreditsOf(After(FRESH, run, settings), model), c) <= 5.0 * w
  {
    HistoryIsBounded(run, settings, model, w);
    EntryBound(CreditsOf(After(FRESH, run, settings), model), w, c);
  }
}
