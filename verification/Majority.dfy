/** Whether backlogs of lower classes can outweigh interactive work, at one pick and
    over whole runs: the exact condition on the settings for each. */
module Majority {
  import opened Types
  import opened Picker
  import opened CreditRuns
  import opened ClassFairness

  // Backlogs

  /** No candidate was created in the future. */
  ghost predicate Timely(cands: seq<Candidate>, now: real) {
    forall x :: x in cands ==> x.createdAt <= now
  }

  /** A job of the class that has waited that long at time zero. */
  function Aged(c: SchedulingClass, age: real): Candidate {
    Candidate("job", c, 0, -age, "app", "model", "q")
  }

  /** One job of each class, as old as given. */
  function Backlog(interactive: real, normal: real, batched: real, bulk: real): seq<Candidate> {
    [Aged(Interactive, interactive), Aged(Normal, normal), Aged(Batched, batched), Aged(Bulk, bulk)]
  }

  function AgeIn(i: real, n: real, b: real, k: real, c: SchedulingClass): real {
    match c case Interactive => i case Normal => n case Batched => b case Bulk => k
  }

  lemma BacklogClass(i: real, n: real, b: real, k: real, c: SchedulingClass)
    ensures OfClass(Backlog(i, n, b, k), c) == [Aged(c, AgeIn(i, n, b, k, c))]
  {
    var all := Backlog(i, n, b, k);
    assert all[..4] == all && all[..4][..3] == all[..3] && all[..3][..2] == all[..2] && all[..2][..1] == all[..1];
    assert all[..1][..0] == [];
    OfClassLast(all[..1], c);
    OfClassLast(all[..2], c);
    OfClassLast(all[..3], c);
    OfClassLast(all[..4], c);
  }

  lemma OfClassLast(cands: seq<Candidate>, c: SchedulingClass)
    requires cands != []
    ensures OfClass(cands, c)
      == OfClass(cands[..|cands| - 1], c) + if cands[|cands| - 1].schedulingClass == c then [cands[|cands| - 1]] else []
  {
  }

  lemma BacklogWeight(settings: SchedulerSettings, i: real, n: real, b: real, k: real, c: SchedulingClass)
    ensures var e := Contributions(settings, Backlog(i, n, b, k), 0.0);
      c in e && At(e, c) == Contribution(settings, c, AgeIn(i, n, b, k, c))
  {
    hide Contribution, OfClass, Backlog, AgeIn;
    BacklogClass(i, n, b, k, c);
  }

  lemma BacklogIsTimely(i: real, n: real, b: real, k: real)
    requires i >= 0.0 && n >= 0.0 && b >= 0.0 && k >= 0.0
    ensures Timely(Backlog(i, n, b, k), 0.0)
  {
  }

  lemma LongestWait(settings: SchedulerSettings, c: SchedulingClass) returns (age: real)
    ensures age >= 0.0 && Contribution(settings, c, age) == Ceiling(settings, c)
  {
    CeilingAttained(settings, c);
    age :| age >= 0.0 && Contribution(settings, c, age) == Ceiling(settings, c);
  }

  /** Interactive work weighs least when it is fresh. */
  lemma FreshWeighsLeast(settings: SchedulerSettings, age: real)
    requires age >= 0.0
    ensures Contribution(settings, Interactive, age) >= Contribution(settings, Interactive, 0.0)
  {
  }

  lemma WeightOf(settings: SchedulerSettings, cands: seq<Candidate>, now: real, c: SchedulingClass)
    requires Timely(cands, now)
    ensures At(Contributions(settings, cands, now), c) <= Ceiling(settings, c)
    ensures c == Interactive && c in Contributions(settings, cands, now) ==>
      At(Contributions(settings, cands, now), c) >= Contribution(settings, Interactive, 0.0)
  {
    hide Contribution, Ceiling;
    var pool := OfClass(cands, c);
    if pool != [] {
      ContributionBound(settings, c, OldestAge(pool, now));
      if c == Interactive {
        assert now - pool[0].createdAt <= OldestAge(pool, now);
        FreshWeighsLeast(settings, OldestAge(pool, now));
      }
    } else {
      ContributionBound(settings, c, 0.0);
    }
  }

  // At one pick

  /** At every pick interactive outweighs the class. */
  ghost predicate Outweighs(settings: SchedulerSettings, low: SchedulingClass) {
    forall cands, now ::
      Timely(cands, now) && {Interactive, low} <= Contributions(settings, cands, now).Keys ==>
        At(Contributions(settings, cands, now), Interactive) > At(Contributions(settings, cands, now), low)
  }

  /** Interactive outweighs a lower class at every pick, whatever the ages, if and
      only if fresh interactive work outweighs the class at its ceiling. */
  lemma InteractiveOutweighs(settings: SchedulerSettings, low: SchedulingClass)
    requires low != Interactive
    ensures Outweighs(settings, low) <==> Ceiling(settings, low) < Contribution(settings, Interactive, 0.0)
  {
    hide Contributions, Contribution, Ceiling, Timely, Backlog;
    if Ceiling(settings, low) < Contribution(settings, Interactive, 0.0) {
      forall cands, now |
        Timely(cands, now) && Interactive in Contributions(settings, cands, now)
          && low in Contributions(settings, cands, now)
        ensures At(Contributions(settings, cands, now), Interactive) > At(Contributions(settings, cands, now), low)
      {
        WeightOf(settings, cands, now, Interactive);
        WeightOf(settings, cands, now, low);
      }
    }
    if Outweighs(settings, low) {
      var age := LongestWait(settings, low);
      BacklogIsTimely(0.0, age, age, age);
      BacklogWeight(settings, 0.0, age, age, age, Interactive);
      BacklogWeight(settings, 0.0, age, age, age, low);
      var e := Contributions(settings, Backlog(0.0, age, age, age), 0.0);
      assert low == Normal || low == Batched || low == Bulk;
      assert At(e, Interactive) > At(e, low);
    }
  }

  function Lower(e: Credits): real {
    At(e, Normal) + At(e, Batched) + At(e, Bulk)
  }

  function LowerCeilings(settings: SchedulerSettings): real {
    Ceiling(settings, Normal) + Ceiling(settings, Batched) + Ceiling(settings, Bulk)
  }

  /** At every pick interactive weighs at least what the lower classes weigh together. */
  ghost predicate OutweighsAll(settings: SchedulerSettings) {
    forall cands, now :: Timely(cands, now) && Interactive in Contributions(settings, cands, now) ==>
      Lower(Contributions(settings, cands, now)) <= At(Contributions(settings, cands, now), Interactive)
  }

  /** The settings under which no backlogs, however old, outweigh interactive work. */
  predicate NoMajority(settings: SchedulerSettings) {
    LowerCeilings(settings) <= Contribution(settings, Interactive, 0.0)
  }

  lemma WorstBacklog(settings: SchedulerSettings) returns (cands: seq<Candidate>)
    ensures Timely(cands, 0.0) && Interactive in Contributions(settings, cands, 0.0) && cands != []
    ensures At(Contributions(settings, cands, 0.0), Interactive) == Contribution(settings, Interactive, 0.0)
    ensures Lower(Contributions(settings, cands, 0.0)) == LowerCeilings(settings)
  {
    hide Contributions, Contribution, Ceiling, Timely;
    var n := LongestWait(settings, Normal);
    var b := LongestWait(settings, Batched);
    var k := LongestWait(settings, Bulk);
    BacklogIsTimely(0.0, n, b, k);
    BacklogWeight(settings, 0.0, n, b, k, Interactive);
    BacklogWeight(settings, 0.0, n, b, k, Normal);
    BacklogWeight(settings, 0.0, n, b, k, Batched);
    BacklogWeight(settings, 0.0, n, b, k, Bulk);
    cands := Backlog(0.0, n, b, k);
  }

  lemma InteractiveOutweighsAll(settings: SchedulerSettings)
    ensures OutweighsAll(settings) <==> NoMajority(settings)
  {
    hide Contributions, Contribution, Ceiling, Timely;
    if NoMajority(settings) {
      forall cands, now | Timely(cands, now) && Interactive in Contributions(settings, cands, now)
        ensures Lower(Contributions(settings, cands, now)) <= At(Contributions(settings, cands, now), Interactive)
      {
        WeightOf(settings, cands, now, Interactive);
        WeightOf(settings, cands, now, Normal);
        WeightOf(settings, cands, now, Batched);
        WeightOf(settings, cands, now, Bulk);
      }
    }
    if OutweighsAll(settings) {
      var cands := WorstBacklog(settings);
      assert Lower(Contributions(settings, cands, 0.0)) <= At(Contributions(settings, cands, 0.0), Interactive);
    }
  }

  // Over runs of picks

  function EarnedBelow(rounds: seq<Credits>): real {
    Earned(rounds, Normal) + Earned(rounds, Batched) + Earned(rounds, Bulk)
  }

  function PaidBelow(rounds: seq<Credits>, winners: seq<SchedulingClass>): real
    requires |winners| == |rounds|
  {
    Paid(rounds, winners, Normal) + Paid(rounds, winners, Batched) + Paid(rounds, winners, Bulk)
  }

  /** What the lower classes pay together tracks what they earn together as closely
      as for one class: their joint credit is what interactive owes. */
  lemma JointPaymentsTrackCredit(credits: Credits, rounds: seq<Credits>, w: real)
    requires Bounded(credits, w) && WeightRounds(rounds, w)
    ensures PaidBelow(rounds, Winners(credits, rounds)) <= EarnedBelow(rounds) + 12.0 * w
    ensures PaidBelow(rounds, Winners(credits, rounds)) >= EarnedBelow(rounds) - 12.0 * w
  {
    hide Paid, Earned, Winners, Play, Weights;
    PlayKeepsBounds(credits, rounds, w);
    EntryBound(credits, w, Interactive);
    EntryBound(Play(credits, rounds), w, Interactive);
    CreditIsEarnedMinusPaid(credits, rounds, Normal);
    CreditIsEarnedMinusPaid(credits, rounds, Batched);
    CreditIsEarnedMinusPaid(credits, rounds, Bulk);
  }

  ghost predicate InteractiveLeads(rounds: seq<Credits>) {
    forall e :: e in rounds ==> Lower(e) <= At(e, Interactive)
  }

  lemma {:induction false} LeadersEarnMore(rounds: seq<Credits>)
    requires InteractiveLeads(rounds)
    ensures EarnedBelow(rounds) <= Earned(rounds, Interactive)
  {
    if rounds != [] {
      assert rounds[|rounds| - 1] in rounds;
      LeadersEarnMore(rounds[..|rounds| - 1]);
    }
  }

  /** Every pick of the model offers interactive work, and no job from the future. */
  ghost predicate InteractiveWaits(run: seq<Pick>, model: string) {
    forall p :: p in run && Counts(p, model) ==> Timely(p.cands, p.now) && OfClass(p.cands, Interactive) != []
  }

  lemma {:induction false} WaitingLeads(run: seq<Pick>, settings: SchedulerSettings, model: string)
    requires InteractiveWaits(run, model) && OutweighsAll(settings)
    ensures InteractiveLeads(Rounds(run, settings, model))
  {
    hide Timely, Lower;
    if run != [] {
      var front, p := run[..|run| - 1], run[|run| - 1];
      assert p in run;
      WaitingLeads(front, settings, model);
    }
  }

  /** Over the run, after the history, the lower classes pay together at most 24
      weights more than interactive does. */
  ghost predicate PaysItsWay(history: seq<Pick>, run: seq<Pick>, settings: SchedulerSettings, model: string, w: real) {
    var rounds := Rounds(run, settings, model);
    var served := ClassesServed(After(FRESH, history, settings), run, settings, model);
    |served| == |rounds| && PaidBelow(rounds, served) <= Paid(rounds, served, Interactive) + 24.0 * w
  }

  ghost predicate KeepsTheMajority(settings: SchedulerSettings, model: string, w: real) {
    forall history, run :: InteractiveWaits(run, model) ==> PaysItsWay(history, run, settings, model, w)
  }

  lemma NoMajorityPays(history: seq<Pick>, run: seq<Pick>, settings: SchedulerSettings, model: string, w: real)
    requires CapsWeights(settings, w) && NoMajority(settings) && InteractiveWaits(run, model)
    ensures PaysItsWay(history, run, settings, model, w)
  {
    hide NoMajority, CapsWeights, InteractiveWaits, InteractiveLeads, WeightRounds, Bounded, EarnedBelow, PaidBelow;
    var credits, rounds := CreditsOf(After(FRESH, history, settings), model), Rounds(run, settings, model);
    InteractiveOutweighsAll(settings);
    WaitingLeads(run, settings, model);
    LeadersEarnMore(rounds);
    HistoryIsBounded(history, settings, model, w);
    RoundsAreWeights(run, settings, model, w);
    ClassesServedAreWinners(After(FRESH, history, settings), run, settings, model);
    JointPaymentsTrackCredit(credits, rounds, w);
    PaymentsTrackCreditFrom(credits, rounds, w, Interactive);
  }

  // When the condition fails

  /** The same pick, claimed n times over. */
  function Again(p: Pick, n: nat): (run: seq<Pick>)
    ensures |run| == n && forall i :: 0 <= i < n ==> run[i] == p
  {
    seq(n, i => p)
  }

  lemma {:induction false} AgainIsSteady(p: Pick, n: nat, settings: SchedulerSettings)
    requires p.claimed && p.cands != []
    ensures var rounds := Rounds(Again(p, n), settings, p.model);
      |rounds| == n && Steady(rounds, Contributions(settings, p.cands, p.now))
  {
    hide Contributions;
    if n > 0 {
      assert Again(p, n)[..n - 1] == Again(p, n - 1);
      AgainIsSteady(p, n - 1, settings);
    }
  }

  lemma SteadyBelow(credits: Credits, rounds: seq<Credits>, w: real, e: Credits)
    requires Bounded(credits, w) && WeightRounds(rounds, w) && Steady(rounds, e)
    ensures PaidBelow(rounds, Winners(credits, rounds)) - Paid(rounds, Winners(credits, rounds), Interactive)
      >= Times(|rounds|, Lower(e) - At(e, Interactive)) - 24.0 * w
  {
    hide Paid, Winners, WeightRounds, Bounded, Steady;
    SteadyEarnings(rounds, e, Interactive);
    SteadyEarnings(rounds, e, Normal);
    SteadyEarnings(rounds, e, Batched);
    SteadyEarnings(rounds, e, Bulk);
    JointPaymentsTrackCredit(credits, rounds, w);
    PaymentsTrackCreditFrom(credits, rounds, w, Interactive);
    TimesSpreads(|rounds|, At(e, Normal), At(e, Batched), At(e, Bulk), At(e, Interactive));
  }

  lemma {:induction false} TimesSpreads(n: nat, a: real, b: real, c: real, d: real)
    ensures Times(n, a + b + c - d) == Times(n, a) + Times(n, b) + Times(n, c) - Times(n, d)
  {
    if n > 0 {
      TimesSpreads(n - 1, a, b, c, d);
    }
  }

  lemma EnoughTimes(x: real, bound: real) returns (n: nat)
    requires x > 0.0
    ensures Times(n, x) > bound
  {
    var q := (bound / x).Floor + 1;
    n := if q >= 0 then q else 0;
    MoreThanFloor(n, bound, x);
  }

  /** Fresh interactive work against the worst backlogs: after enough claims it has
      fallen behind by more than any bound. */
  lemma MajorityIsLost(settings: SchedulerSettings, model: string, w: real, bound: real) returns (run: seq<Pick>)
    requires CapsWeights(settings, w) && !NoMajority(settings)
    ensures InteractiveWaits(run, model) && FallsBehind(settings, run, model, bound)
    ensures exists e :: Steady(Rounds(run, settings, model), e)
  {
    hide CapsWeights, Contributions, Contribution, Ceiling, Timely, Times, FallsBehind, OfClass, Steady;
    var cands := WorstBacklog(settings);
    var e := Contributions(settings, cands, 0.0);
    var n := EnoughTimes(Lower(e) - At(e, Interactive), bound + 24.0 * w);
    var p := Pick(model, cands, 0.0, true);
    run := Again(p, n);
    HasInteractive(settings, cands, 0.0);
    RepeatedPickPays(settings, p, n, w, bound);
    AgainIsSteady(p, n, settings);
  }

  ghost predicate FallsBehind(settings: SchedulerSettings, run: seq<Pick>, model: string, bound: real) {
    var rounds, served := Rounds(run, settings, model), ClassesServed(FRESH, run, settings, model);
    |served| == |rounds| && PaidBelow(rounds, served) > Paid(rounds, served, Interactive) + bound
  }

  lemma FreshIsBounded(settings: SchedulerSettings, model: string, w: real)
    requires CapsWeights(settings, w)
    ensures Bounded(CreditsOf(FRESH, model), w)
  {
    HistoryIsBounded([], settings, model, w);
  }

  lemma RepeatedPickPays(settings: SchedulerSettings, p: Pick, n: nat, w: real, bound: real)
    requires CapsWeights(settings, w) && p.claimed && p.cands != []
    requires var e := Contributions(settings, p.cands, p.now);
      Times(n, Lower(e) - At(e, Interactive)) > bound + 24.0 * w
    ensures FallsBehind(settings, Again(p, n), p.model, bound)
  {
    hide CapsWeights, WeightRounds, Bounded, PaidBelow, Paid, Contributions, Steady, Times, Again, Rounds;
    hide ClassesServed;
    hide Lower, Winners, CreditsOf;
    var run := Again(p, n);
    AgainIsSteady(p, n, settings);
    FreshIsBounded(settings, p.model, w);
    RoundsAreWeights(run, settings, p.model, w);
    ClassesServedAreWinners(FRESH, run, settings, p.model);
    SteadyBelow(CreditsOf(FRESH, p.model), Rounds(run, settings, p.model), w, Contributions(settings, p.cands, p.now));
  }

  function JobsBelow(served: seq<SchedulingClass>): nat {
    Turns(served, Normal) + Turns(served, Batched) + Turns(served, Bulk)
  }

  /** Counted in jobs: some run that always offers interactive work claims more jobs
      of the lower classes than interactive ones. */
  lemma BacklogsOutnumber(settings: SchedulerSettings, model: string, w: real) returns (run: seq<Pick>)
    requires CapsWeights(settings, w) && !NoMajority(settings)
    ensures InteractiveWaits(run, model)
    ensures var served := ClassesServed(FRESH, run, settings, model); JobsBelow(served) > Turns(served, Interactive)
  {
    hide CapsWeights, NoMajority, InteractiveWaits, Steady, Rounds, ClassesServed, Paid, Turns, Times, WeightRounds;
    run := MajorityIsLost(settings, model, w, 0.0);
    var rounds, served := Rounds(run, settings, model), ClassesServed(FRESH, run, settings, model);
    var e :| Steady(rounds, e);
    SteadyPayments(rounds, served, e, Normal);
    SteadyPayments(rounds, served, e, Batched);
    SteadyPayments(rounds, served, e, Bulk);
    SteadyPayments(rounds, served, e, Interactive);
    TimesAdds(Turns(served, Normal), Turns(served, Batched), Total(e));
    TimesAdds(Turns(served, Normal) + Turns(served, Batched), Turns(served, Bulk), Total(e));
    RoundsAreWeights(run, settings, model, w);
    if JobsBelow(served) <= Turns(served, Interactive) {
      PotIsPositive(rounds, served, w, e);
      TimesMonotone(JobsBelow(served), Turns(served, Interactive), Total(e));
    }
  }

  lemma {:induction false} TimesAdds(m: nat, n: nat, x: real)
    ensures Times(m + n, x) == Times(m, x) + Times(n, x)
  {
    if n > 0 {
      TimesAdds(m, n - 1, x);
    }
  }

  lemma PotIsPositive(rounds: seq<Credits>, winners: seq<SchedulingClass>, w: real, e: Credits)
    requires |winners| == |rounds| && WeightRounds(rounds, w) && Steady(rounds, e)
    requires PaidBelow(rounds, winners) > Paid(rounds, winners, Interactive)
    ensures Total(e) >= 0.0
  {
    assert rounds != [];
    assert rounds[0] == e && e in rounds;
    WeightSum(e, w, {});
  }

  lemma HasInteractive(settings: SchedulerSettings, cands: seq<Candidate>, now: real)
    requires Interactive in Contributions(settings, cands, now)
    ensures OfClass(cands, Interactive) != []
  {
  }

  /** A backlog cannot take the majority from interactive work, over any history and
      any run in which there always is some, if and only if the ceilings of the lower
      classes together stay within the weight of fresh interactive work. */
  lemma BacklogsCannotTakeTheMajority(settings: SchedulerSettings, model: string, w: real)
    requires CapsWeights(settings, w)
    ensures KeepsTheMajority(settings, model, w) <==> NoMajority(settings)
  {
    hide CapsWeights, NoMajority, InteractiveWaits;
    if NoMajority(settings) {
      forall history, run | InteractiveWaits(run, model) {
        NoMajorityPays(history, run, settings, model, w);
      }
    } else {
      var run := MajorityIsLost(settings, model, w, 24.0 * w);
      assert After(FRESH, [], settings) == FRESH;
      assert !PaysItsWay([], run, settings, model, w);
    }
  }

  /** Under the default weights no single class can, but all together can. */
  lemma DefaultsLoseTheMajority()
    ensures forall low :: low != Interactive ==> Outweighs(DEFAULTS, low)
    ensures !NoMajority(DEFAULTS)
  {
    hide Outweighs;
    forall low | low != Interactive ensures Outweighs(DEFAULTS, low) {
      InteractiveOutweighs(DEFAULTS, low);
    }
  }
}
