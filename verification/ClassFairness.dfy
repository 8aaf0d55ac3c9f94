/** What bounded credit means for the classes: over any stretch of any run, what
    a class pays for its turns tracks what it was credited. */
module ClassFairness {
  import opened Types
  import opened Picker
  import opened CreditRuns

  /** The class that wins each round. */
  function Winners(credits: Credits, rounds: seq<Credits>): (r: seq<SchedulingClass>)
    requires map[] !in rounds
    ensures |r| == |rounds|
  {
    if rounds == [] then []
    else
      var front, e := rounds[..|rounds| - 1], rounds[|rounds| - 1];
      Winners(credits, front) + [Winner(Raise(Play(credits, front), e), e)]
  }

  function Turns(winners: seq<SchedulingClass>, c: SchedulingClass): nat {
    if winners == [] then 0
    else Turns(winners[..|winners| - 1], c) + if winners[|winners| - 1] == c then 1 else 0
  }

  /** The pots a class paid for its turns. */
  function Paid(rounds: seq<Credits>, winners: seq<SchedulingClass>, c: SchedulingClass): real
    requires |winners| == |rounds|
  {
    if rounds == [] then 0.0
    else
      Paid(rounds[..|rounds| - 1], winners[..|rounds| - 1], c)
      + if winners[|rounds| - 1] == c then Total(rounds[|rounds| - 1]) else 0.0
  }

  /** The weights a class was credited. */
  function Earned(rounds: seq<Credits>, c: SchedulingClass): real {
    if rounds == [] then 0.0
    else Earned(rounds[..|rounds| - 1], c) + At(rounds[|rounds| - 1], c)
  }

  /** The rounds at which a class has work. */
  function Chances(rounds: seq<Credits>, c: SchedulingClass): nat {
    if rounds == [] then 0
    else Chances(rounds[..|rounds| - 1], c) + if c in rounds[|rounds| - 1] then 1 else 0
  }

  lemma {:induction false} CreditIsEarnedMinusPaid(credits: Credits, rounds: seq<Credits>, c: SchedulingClass)
    requires map[] !in rounds
    ensures At(Play(credits, rounds), c)
      == At(credits, c) + Earned(rounds, c) - Paid(rounds, Winners(credits, rounds), c)
  {
    if rounds != [] {
      var front, e := rounds[..|rounds| - 1], rounds[|rounds| - 1];
      CreditIsEarnedMinusPaid(credits, front, c);
      ChargeEntry(Play(credits, front), e, c);
      assert Winners(credits, rounds)[..|front|] == Winners(credits, front);
    }
  }

  lemma PaymentsTrackCreditFrom(credits: Credits, rounds: seq<Credits>, w: real, c: SchedulingClass)
    requires Bounded(credits, w) && WeightRounds(rounds, w)
    ensures -12.0 * w <= Earned(rounds, c) - Paid(rounds, Winners(credits, rounds), c) <= 12.0 * w
  {
    PlayKeepsBounds(credits, rounds, w);
    EntryBound(credits, w, c);
    EntryBound(Play(credits, rounds), w, c);
    CreditIsEarnedMinusPaid(credits, rounds, c);
  }

  /** After any history, however the backlog and the weights change from pick to
      pick, payments and credit never drift apart by more than 12 weights. */
  lemma PaymentsTrackCredit(history: seq<Pick>, run: seq<Pick>, settings: SchedulerSettings, model: string, w: real,
                            c: SchedulingClass)
    requires CapsWeights(settings, w)
    ensures var rounds := Rounds(run, settings, model);
      var winners := Winners(CreditsOf(After(FRESH, history, settings), model), rounds);
      -12.0 * w <= Earned(rounds, c) - Paid(rounds, winners, c) <= 12.0 * w
  {
    HistoryIsBounded(history, settings, model, w);
    RoundsAreWeights(run, settings, model, w);
    PaymentsTrackCreditFrom(CreditsOf(After(FRESH, history, settings), model), Rounds(run, settings, model), w, c);
  }

  // No class starves

  /** n times x, in a form that needs no non-linear arithmetic. */
  function Times(n: nat, x: real): real {
    if n == 0 then 0.0 else Times(n - 1, x) + x
  }

  lemma {:induction false} TimesIsProduct(n: nat, x: real)
    ensures Times(n, x) == n as real * x
  {
    if n > 0 {
      TimesIsProduct(n - 1, x);
      assert n as real * x == (n - 1) as real * x + x;
    }
  }

  lemma {:induction false} ChancesEarn(rounds: seq<Credits>, c: SchedulingClass, least: real)
    requires forall e :: e in rounds && c in e ==> e[c] >= least
    ensures Earned(rounds, c) >= Times(Chances(rounds, c), least)
  {
    if rounds != [] {
      ChancesEarn(rounds[..|rounds| - 1], c, least);
    }
  }

  lemma {:induction false} NoTurnsNoPayment(rounds: seq<Credits>, winners: seq<SchedulingClass>, c: SchedulingClass)
    requires |winners| == |rounds| && Turns(winners, c) == 0
    ensures Paid(rounds, winners, c) == 0.0
  {
    if rounds != [] {
      NoTurnsNoPayment(rounds[..|rounds| - 1], winners[..|rounds| - 1], c);
    }
  }

  lemma MoreThanFloor(n: nat, bound: real, w: real)
    requires w > 0.0 && n >= (bound / w).Floor + 1
    ensures Times(n, w) > bound
  {
    TimesIsProduct(n, w);
    var q := bound / w;
    assert n as real > q;
    ScaleUp(n as real, q, w);
    assert q * w == bound;
  }

  lemma ScaleUp(a: real, b: real, w: real)
    requires a > b && w > 0.0
    ensures a * w > b * w
  {
  }

  /** A class left out of a stretch was credited at most 12 weights in it. */
  lemma LeftOutEarnsLittle(credits: Credits, rounds: seq<Credits>, w: real, c: SchedulingClass, least: real)
    requires Bounded(credits, w) && WeightRounds(rounds, w)
    requires forall e :: e in rounds && c in e ==> e[c] >= least
    requires c !in Winners(credits, rounds)
    ensures Times(Chances(rounds, c), least) <= 12.0 * w
  {
    NeverListed(Winners(credits, rounds), c);
    NoTurnsNoPayment(rounds, Winners(credits, rounds), c);
    ChancesEarn(rounds, c, least);
    PaymentsTrackCreditFrom(credits, rounds, w, c);
  }

  lemma {:induction false} NeverListed(winners: seq<SchedulingClass>, c: SchedulingClass)
    requires c !in winners
    ensures Turns(winners, c) == 0
  {
    if winners != [] {
      NeverListed(winners[..|winners| - 1], c);
    }
  }

  /** After any history, a class that is credited at least `least` whenever it has
      work gets a turn in any stretch with floor(12w/least) + 1 chances. */
  lemma NoClassStarves(history: seq<Pick>, run: seq<Pick>, settings: SchedulerSettings, model: string, w: real,
                       c: SchedulingClass, least: real)
    requires CapsWeights(settings, w) && least > 0.0
    requires forall e :: e in Rounds(run, settings, model) && c in e ==> e[c] >= least
    requires Chances(Rounds(run, settings, model), c) >= (12.0 * w / least).Floor + 1
    ensures c in Winners(CreditsOf(After(FRESH, history, settings), model), Rounds(run, settings, model))
  {
    HistoryIsBounded(history, settings, model, w);
    RoundsAreWeights(run, settings, model, w);
    var credits, rounds := CreditsOf(After(FRESH, history, settings), model), Rounds(run, settings, model);
    MoreThanFloor(Chances(rounds, c), 12.0 * w, least);
    if c !in Winners(credits, rounds) {
      LeftOutEarnsLittle(credits, rounds, w, c, least);
    }
  }

  // Proportional share under steady weights

  ghost predicate Steady(rounds: seq<Credits>, e: Credits) {
    forall i :: 0 <= i < |rounds| ==> rounds[i] == e
  }

  lemma {:induction false} SteadyEarnings(rounds: seq<Credits>, e: Credits, c: SchedulingClass)
    requires Steady(rounds, e)
    ensures Earned(rounds, c) == Times(|rounds|, At(e, c))
  {
    if rounds != [] {
      SteadyEarnings(rounds[..|rounds| - 1], e, c);
    }
  }

  lemma {:induction false} SteadyPayments(rounds: seq<Credits>, winners: seq<SchedulingClass>, e: Credits,
                                          c: SchedulingClass)
    requires |winners| == |rounds| && Steady(rounds, e)
    ensures Paid(rounds, winners, c) == Times(Turns(winners, c), Total(e))
  {
    if rounds != [] {
      SteadyPayments(rounds[..|rounds| - 1], winners[..|rounds| - 1], e, c);
    }
  }

  /** Over N picks with the same weights, turns times the pot stays within twelve
      weights of N times the class's own weight. */
  lemma ProportionalShare(credits: Credits, rounds: seq<Credits>, w: real, e: Credits, c: SchedulingClass)
    requires Bounded(credits, w) && WeightRounds(rounds, w) && Steady(rounds, e)
    ensures var turns := Turns(Winners(credits, rounds), c);
      -12.0 * w <= Times(turns, Total(e)) - Times(|rounds|, At(e, c)) <= 12.0 * w
  {
    SteadyEarnings(rounds, e, c);
    SteadyPayments(rounds, Winners(credits, rounds), e, c);
    PaymentsTrackCreditFrom(credits, rounds, w, c);
  }

  /** The heavier of two classes takes strictly more turns once its lead in
      weight has grown past 24 weights. */
  lemma HeavierClassTakesMore(credits: Credits, rounds: seq<Credits>, w: real, e: Credits, high: SchedulingClass,
                              low: SchedulingClass)
    requires Bounded(credits, w) && WeightRounds(rounds, w) && Steady(rounds, e)
    requires Times(|rounds|, At(e, high)) - Times(|rounds|, At(e, low)) > 24.0 * w
    ensures Turns(Winners(credits, rounds), high) > Turns(Winners(credits, rounds), low)
  {
    var winners := Winners(credits, rounds);
    ProportionalShare(credits, rounds, w, e, high);
    ProportionalShare(credits, rounds, w, e, low);
    if Turns(winners, high) <= Turns(winners, low) {
      assert rounds != [] && rounds[0] == e;
      WeightSum(e, w, {});
      TimesMonotone(Turns(winners, high), Turns(winners, low), Total(e));
    }
  }

  lemma {:induction false} TimesMonotone(m: nat, n: nat, x: real)
    requires m <= n && x >= 0.0
    ensures Times(m, x) <= Times(n, x)
    decreases n
  {
    if m < n {
      TimesMonotone(m, n - 1, x);
    }
  }

  // The same about the picks themselves

  /** The classes of the jobs claimed, pick after pick. */
  function ClassesServed(state: PickerState, run: seq<Pick>, settings: SchedulerSettings,
                         model: string): seq<SchedulingClass> {
    if run == [] then []
    else
      var front, p := run[..|run| - 1], run[|run| - 1];
      var served := ClassesServed(state, front, settings, model);
      if Counts(p, model)
      then served + [Chosen(After(state, front, settings), model, p.cands, p.now, settings).0.value.schedulingClass]
      else served
  }

  lemma {:induction false} ClassesServedAreWinners(state: PickerState, run: seq<Pick>, settings: SchedulerSettings,
                                                   model: string)
    ensures ClassesServed(state, run, settings, model) == Winners(CreditsOf(state, model), Rounds(run, settings, model))
  {
    hide Chosen, Contributions, Raise, Play, Next, Charge;
    if run != [] {
      var front, p := run[..|run| - 1], run[|run| - 1];
      ClassesServedAreWinners(state, front, settings, model);
      if Counts(p, model) {
        CreditsFollowRounds(state, front, settings, model);
        PickPlaysRound(After(state, front, settings), p, settings);
        var rounds := Rounds(run, settings, model);
        assert rounds[..|rounds| - 1] == Rounds(front, settings, model);
      }
    }
  }

  /** After any history a job of the class is claimed in any run with enough chances,
      whatever the other classes and the lost claims in between. */
  lemma ClassIsServed(history: seq<Pick>, run: seq<Pick>, settings: SchedulerSettings, model: string, w: real,
                      c: SchedulingClass, least: real)
    requires CapsWeights(settings, w) && least > 0.0
    requires forall e :: e in Rounds(run, settings, model) && c in e ==> e[c] >= least
    requires Chances(Rounds(run, settings, model), c) >= (12.0 * w / least).Floor + 1
    ensures c in ClassesServed(After(FRESH, history, settings), run, settings, model)
  {
    NoClassStarves(history, run, settings, model, w, c, least);
    ClassesServedAreWinners(After(FRESH, history, settings), run, settings, model);
  }

  /** After any history, over any run whose picks all offer the same weights, the
      jobs claimed of a class times the pot stay within twelve weights of the jobs
      claimed in all times the class's own weight. */
  lemma ClaimsAreProportional(history: seq<Pick>, run: seq<Pick>, settings: SchedulerSettings, model: string, w: real,
                              e: Credits, c: SchedulingClass)
    requires CapsWeights(settings, w) && Steady(Rounds(run, settings, model), e)
    ensures var served := ClassesServed(After(FRESH, history, settings), run, settings, model);
      -12.0 * w <= Times(Turns(served, c), Total(e)) - Times(|served|, At(e, c)) <= 12.0 * w
  {
    HistoryIsBounded(history, settings, model, w);
    RoundsAreWeights(run, settings, model, w);
    ClassesServedAreWinners(After(FRESH, history, settings), run, settings, model);
    ProportionalShare(CreditsOf(After(FRESH, history, settings), model), Rounds(run, settings, model), w, e, c);
  }

  /** And the heavier of two classes has strictly more jobs claimed once its lead in
      weight has grown past 24 weights. */
  lemma HeavierClassIsServedMore(history: seq<Pick>, run: seq<Pick>, settings: SchedulerSettings, model: string,
                                 w: real, e: Credits, high: SchedulingClass, low: SchedulingClass)
    requires CapsWeights(settings, w) && Steady(Rounds(run, settings, model), e)
    requires var picks := |Rounds(run, settings, model)|;
      Times(picks, At(e, high)) - Times(picks, At(e, low)) > 24.0 * w
    ensures var served := ClassesServed(After(FRESH, history, settings), run, settings, model);
      Turns(served, high) > Turns(served, low)
  {
    HistoryIsBounded(history, settings, model, w);
    RoundsAreWeights(run, settings, model, w);
    ClassesServedAreWinners(After(FRESH, history, settings), run, settings, model);
    HeavierClassTakesMore(CreditsOf(After(FRESH, history, settings), model), Rounds(run, settings, model), w, e, high,
                          low);
  }
}
