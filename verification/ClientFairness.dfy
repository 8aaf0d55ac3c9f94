/** Skip counts keep a waiting client from starving: a pigeonhole argument over
    the winners of any run in which the client always takes part. */
module ClientFairness {
  import opened Types
  import opened Picker
  import opened CreditRuns

  /** What a pick means to the skip counts: who took part and who won. */
  datatype Round = Round(clients: set<string>, winner: string)

  function Wait(skips: Skips, rounds: seq<Round>): Skips {
    if rounds == [] then skips
    else
      var last := rounds[|rounds| - 1];
      CountSkips(Wait(skips, rounds[..|rounds| - 1]), last.clients, last.winner)
  }

  lemma WaitStep(skips: Skips, rounds: seq<Round>, t: nat, client: string)
    requires t < |rounds|
    ensures var before, r := Skipped(Wait(skips, rounds[..t]), client), rounds[t];
      Skipped(Wait(skips, rounds[..t + 1]), client)
        == if client !in r.clients then before else if client == r.winner then 0 else before + 1
  {
    assert rounds[..t + 1][..t] == rounds[..t];
  }

  /** A client that takes part and keeps losing is skipped once per round. */
  lemma {:induction false} LosingClientWaits(skips: Skips, rounds: seq<Round>, client: string, t: nat)
    requires t <= |rounds|
    requires forall i :: 0 <= i < t ==> client in rounds[i].clients && rounds[i].winner != client
    ensures Skipped(Wait(skips, rounds[..t]), client) == Skipped(skips, client) + t
  {
    if t == 0 {
      assert rounds[..0] == [];
    } else {
      LosingClientWaits(skips, rounds, client, t - 1);
      WaitStep(skips, rounds, t - 1, client);
    }
  }

  /** After a turn, a client has been skipped no more often than rounds passed. */
  lemma {:induction false} WinnerStartsOver(skips: Skips, rounds: seq<Round>, u: nat, t: nat)
    requires u < t <= |rounds| && rounds[u].winner in rounds[u].clients
    ensures Skipped(Wait(skips, rounds[..t]), rounds[u].winner) <= t - u - 1
    decreases t
  {
    if t == u + 1 {
      WaitStep(skips, rounds, u, rounds[u].winner);
    } else {
      WinnerStartsOver(skips, rounds, u, t - 1);
      WaitStep(skips, rounds, t - 1, rounds[u].winner);
    }
  }

  /** The winner was never more than `lead` skips behind the waiting client. */
  ghost predicate WithinLead(skips: Skips, rounds: seq<Round>, client: string, lead: nat) {
    forall t :: 0 <= t < |rounds| ==>
      && rounds[t].winner in rounds[t].clients && client in rounds[t].clients
      && Skipped(Wait(skips, rounds[..t]), client) <= Skipped(Wait(skips, rounds[..t]), rounds[t].winner) + lead
  }

  lemma LateWinnersDiffer(skips: Skips, rounds: seq<Round>, client: string, lead: nat, u: nat, t: nat)
    requires WithinLead(skips, rounds, client, lead) && lead <= u < t < |rounds|
    requires forall i :: 0 <= i < |rounds| ==> rounds[i].winner != client
    ensures rounds[u].winner != rounds[t].winner
  {
    LosingClientWaits(skips, rounds, client, t);
    WinnerStartsOver(skips, rounds, u, t);
  }

  lemma {:induction false} DistinctFit(s: seq<string>, bound: set<string>)
    requires forall i :: 0 <= i < |s| ==> s[i] in bound
    requires forall i, j :: 0 <= i < j < |s| ==> s[i] != s[j]
    ensures |s| <= |bound|
  {
    if s != [] {
      var last := s[|s| - 1];
      DistinctFit(s[..|s| - 1], bound - {last});
    }
  }

  lemma ClientWinsInTime(skips: Skips, rounds: seq<Round>, client: string, lead: nat, known: set<string>)
    requires WithinLead(skips, rounds, client, lead)
    requires forall i :: 0 <= i < |rounds| ==> rounds[i].clients <= known
    requires |rounds| >= lead + |known|
    requires |rounds| > 0
    ensures exists t :: 0 <= t < |rounds| && rounds[t].winner == client
  {
    hide WithinLead;
    if forall i :: 0 <= i < |rounds| ==> rounds[i].winner != client {
      TakersAreKnown(skips, rounds, client, lead, known);
      var late := seq(|known|, i requires 0 <= i < |known| => rounds[lead + i].winner);
      forall i, j | 0 <= i < j < |late| ensures late[i] != late[j] {
        LateWinnersDiffer(skips, rounds, client, lead, lead + i, lead + j);
      }
      DistinctFit(late, known - {client});
    }
  }

  lemma TakersAreKnown(skips: Skips, rounds: seq<Round>, client: string, lead: nat, known: set<string>)
    requires WithinLead(skips, rounds, client, lead) && forall i :: 0 <= i < |rounds| ==> rounds[i].clients <= known
    ensures forall i :: 0 <= i < |rounds| ==> rounds[i].winner in known
    ensures rounds != [] ==> client in known
  {
    hide Wait;
    assert rounds != [] ==> client in rounds[0].clients;
  }

  // Rounds of the picker

  /** The pool of the winning class at one pick. */
  datatype Turn = Turn(pool: seq<Candidate>, now: real)

  function Elect(turn: Turn, skips: Skips, settings: SchedulerSettings): Candidate
    requires turn.pool != []
  {
    BestOf(turn.pool, skips, turn.now, settings)
  }

  predicate Played(turns: seq<Turn>) {
    forall i :: 0 <= i < |turns| ==> turns[i].pool != []
  }

  function RoundsOf(skips: Skips, turns: seq<Turn>, settings: SchedulerSettings): (r: seq<Round>)
    requires Played(turns)
    ensures |r| == |turns|
  {
    if turns == [] then []
    else
      var last := turns[|turns| - 1];
      var front := RoundsOf(skips, turns[..|turns| - 1], settings);
      front + [Round(Clients(last.pool), Elect(last, Wait(skips, front), settings).clientId)]
  }

  lemma {:induction false} RoundsAt(skips: Skips, turns: seq<Turn>, settings: SchedulerSettings, i: nat)
    requires Played(turns) && i < |turns|
    ensures var rounds := RoundsOf(skips, turns, settings);
      && rounds[..i] == RoundsOf(skips, turns[..i], settings)
      && rounds[i] == Round(Clients(turns[i].pool), Elect(turns[i], Wait(skips, rounds[..i]), settings).clientId)
  {
    hide Elect, Clients, Wait;
    var front := turns[..|turns| - 1];
    var rounds := RoundsOf(skips, turns, settings);
    assert rounds[..|front|] == RoundsOf(skips, front, settings);
    if i < |front| {
      RoundsAt(skips, front, settings, i);
      assert front[..i] == turns[..i];
      assert rounds[..|front|][..i] == rounds[..i];
    }
  }

  /** Score without the skip count. */
  function Base(x: Candidate, now: real, settings: SchedulerSettings): real {
    x.priority as real * settings.priorityWeight + Max(0.0, now - x.createdAt) * settings.ageWeight
  }

  /** The client has a job in the pool whose base score is within `lead` skips of
      every other job there. */
  ghost predicate Competes(turn: Turn, settings: SchedulerSettings, client: string, lead: nat) {
    exists y :: y in turn.pool && y.clientId == client
      && forall x :: x in turn.pool ==>
        Base(x, turn.now, settings) <= Base(y, turn.now, settings) + lead as real * settings.clientSkipWeight
  }

  lemma WinnerWithinLead(turn: Turn, skips: Skips, settings: SchedulerSettings, client: string, lead: nat)
    requires turn.pool != [] && settings.clientSkipWeight > 0.0
    requires Competes(turn, settings, client, lead)
    ensures client in Clients(turn.pool)
    ensures Elect(turn, skips, settings).clientId in Clients(turn.pool)
    ensures Skipped(skips, client) <= Skipped(skips, Elect(turn, skips, settings).clientId) + lead
  {
    var y :| y in turn.pool && y.clientId == client
      && forall x :: x in turn.pool ==>
        Base(x, turn.now, settings) <= Base(y, turn.now, settings) + lead as real * settings.clientSkipWeight;
    var best := Elect(turn, skips, settings);
    assert !Beats(y, best, skips, turn.now, settings);
    ScoresBoundSkips(best, y, skips, turn.now, settings, lead);
  }

  lemma ScoresBoundSkips(best: Candidate, mine: Candidate, skips: Skips, now: real, settings: SchedulerSettings,
                         lead: nat)
    requires settings.clientSkipWeight > 0.0
    requires Base(best, now, settings) <= Base(mine, now, settings) + lead as real * settings.clientSkipWeight
    requires Score(best, skips, now, settings) >= Score(mine, skips, now, settings)
    ensures Skipped(skips, mine.clientId) <= Skipped(skips, best.clientId) + lead
  {
  }

  /** From any skip counts: a client that competes in every pool, against at most
      |known| clients in all, is picked within lead + |known| turns. */
  lemma NoClientStarves(skips: Skips, turns: seq<Turn>, settings: SchedulerSettings, client: string, lead: nat,
                        known: set<string>)
    requires settings.clientSkipWeight > 0.0 && Played(turns)
    requires forall i :: 0 <= i < |turns| ==>
      Competes(turns[i], settings, client, lead) && Clients(turns[i].pool) <= known
    requires |turns| >= lead + |known| && |turns| > 0
    ensures exists t ::
      0 <= t < |turns|
      && Elect(turns[t], Wait(skips, RoundsOf(skips, turns, settings)[..t]), settings).clientId == client
  {
    hide Competes, Clients, Wait, Elect;
    var rounds := RoundsOf(skips, turns, settings);
    forall i | 0 <= i < |turns|
      ensures rounds[i] == Round(Clients(turns[i].pool), Elect(turns[i], Wait(skips, rounds[..i]), settings).clientId)
      ensures rounds[i].winner in rounds[i].clients && client in rounds[i].clients && rounds[i].clients <= known
      ensures Skipped(Wait(skips, rounds[..i]), client) <= Skipped(Wait(skips, rounds[..i]), rounds[i].winner) + lead
    {
      RoundsAt(skips, turns, settings, i);
      WinnerWithinLead(turns[i], Wait(skips, rounds[..i]), settings, client, lead);
    }
    ClientWinsInTime(skips, rounds, client, lead, known);
  }

  // Runs of the picker, with lost claims and other models in between

  function TurnsOf(state: PickerState, run: seq<Pick>, settings: SchedulerSettings, model: string): (r: seq<Turn>)
    ensures Played(r)
  {
    if run == [] then []
    else
      var front, p := run[..|run| - 1], run[|run| - 1];
      var turns := TurnsOf(state, front, settings, model);
      if Counts(p, model)
      then turns + [Turn(WinningPool(After(state, front, settings), model, p.cands, p.now, settings), p.now)]
      else turns
  }

  /** A counting pick takes the turn: it chooses the turn's job and moves the
      model's skip counts as the turn says. */
  lemma PickTakesTurn(state: PickerState, p: Pick, settings: SchedulerSettings)
    requires p.cands != []
    ensures var turn := Turn(WinningPool(state, p.model, p.cands, p.now, settings), p.now);
      var skips := SkipsOf(state, p.model);
      var (choice, next) := Chosen(state, p.model, p.cands, p.now, settings);
      && choice == Some(Elect(turn, skips, settings))
      && next.skips
        == state.skips[p.model := CountSkips(skips, Clients(turn.pool), Elect(turn, skips, settings).clientId)]
  {
    hide WinningPool, Contributions, Charge, CountSkips, Clients, BestOf;
  }

  lemma NextSkips(state: PickerState, p: Pick, settings: SchedulerSettings, model: string)
    ensures Counts(p, model) ==>
      var turn := Turn(WinningPool(state, model, p.cands, p.now, settings), p.now);
      var skips := SkipsOf(state, model);
      SkipsOf(Next(state, p, settings), model)
        == CountSkips(skips, Clients(turn.pool), Elect(turn, skips, settings).clientId)
    ensures !Counts(p, model) ==> SkipsOf(Next(state, p, settings), model) == SkipsOf(state, model)
  {
    hide WinningPool, Elect, Clients, Chosen, CountSkips;
    if p.cands != [] {
      PickTakesTurn(state, p, settings);
    } else {
      NoCandidatesNoChange(state, p, settings);
    }
  }

  lemma NoCandidatesNoChange(state: PickerState, p: Pick, settings: SchedulerSettings)
    requires p.cands == []
    ensures Chosen(state, p.model, p.cands, p.now, settings) == (None, state)
  {
  }

  lemma {:induction false} SkipsFollowTurns(state: PickerState, run: seq<Pick>, settings: SchedulerSettings,
                                            model: string)
    ensures var skips := SkipsOf(state, model);
      SkipsOf(After(state, run, settings), model)
        == Wait(skips, RoundsOf(skips, TurnsOf(state, run, settings, model), settings))
  {
    hide WinningPool, Elect, Clients, Next, CountSkips;
    if run != [] {
      var front, p := run[..|run| - 1], run[|run| - 1];
      SkipsFollowTurns(state, front, settings, model);
      NextSkips(After(state, front, settings), p, settings, model);
      if Counts(p, model) {
        var skips := SkipsOf(state, model);
        var turns := TurnsOf(state, run, settings, model);
        assert turns[..|turns| - 1] == TurnsOf(state, front, settings, model);
        var rounds := RoundsOf(skips, turns, settings);
        assert rounds[..|rounds| - 1] == RoundsOf(skips, turns[..|turns| - 1], settings);
      }
    }
  }

  /** The clients whose jobs were claimed, pick after pick. */
  function Served(state: PickerState, run: seq<Pick>, settings: SchedulerSettings, model: string): (r: seq<string>)
    ensures |r| == |TurnsOf(state, run, settings, model)|
  {
    if run == [] then []
    else
      var front, p := run[..|run| - 1], run[|run| - 1];
      var served := Served(state, front, settings, model);
      if Counts(p, model)
      then served + [Chosen(After(state, front, settings), model, p.cands, p.now, settings).0.value.clientId]
      else served
  }

  lemma {:induction false} ServedAreWinners(state: PickerState, run: seq<Pick>, settings: SchedulerSettings,
                                            model: string, t: nat)
    requires t < |Served(state, run, settings, model)|
    ensures var turns := TurnsOf(state, run, settings, model);
      var skips := SkipsOf(state, model);
      Served(state, run, settings, model)[t]
        == Elect(turns[t], Wait(skips, RoundsOf(skips, turns, settings)[..t]), settings).clientId
  {
    hide WinningPool, Elect, Clients, Next, CountSkips, Chosen, Wait;
    var front, p := run[..|run| - 1], run[|run| - 1];
    var skips, turns := SkipsOf(state, model), TurnsOf(state, run, settings, model);
    var before := TurnsOf(state, front, settings, model);
    if t < |before| {
      ServedAreWinners(state, front, settings, model, t);
      if Counts(p, model) {
        assert turns[..|before|] == before;
        RoundsAt(skips, turns, settings, |before|);
        assert RoundsOf(skips, turns, settings)[..|before|][..t] == RoundsOf(skips, turns, settings)[..t];
      }
    } else {
      assert turns[..t] == before;
      RoundsAt(skips, turns, settings, t);
      SkipsFollowTurns(state, front, settings, model);
      PickTakesTurn(After(state, front, settings), p, settings);
    }
  }

  /** The same about the picks themselves: from any picker state, whatever else
      happens in between, one of the client's jobs is claimed. */
  lemma ClientIsServed(state: PickerState, run: seq<Pick>, settings: SchedulerSettings, model: string,
                       client: string, lead: nat, known: set<string>)
    requires settings.clientSkipWeight > 0.0
    requires forall turn :: turn in TurnsOf(state, run, settings, model) ==>
      Competes(turn, settings, client, lead) && Clients(turn.pool) <= known
    requires |TurnsOf(state, run, settings, model)| >= lead + |known| && TurnsOf(state, run, settings, model) != []
    ensures client in Served(state, run, settings, model)
  {
    hide Competes, Clients, Wait, Elect, Served, TurnsOf;
    var turns, skips := TurnsOf(state, run, settings, model), SkipsOf(state, model);
    NoClientStarves(skips, turns, settings, client, lead, known);
    var t :| 0 <= t < |turns| && Elect(turns[t], Wait(skips, RoundsOf(skips, turns, settings)[..t]), settings).clientId
      == client;
    ServedAreWinners(state, run, settings, model, t);
  }
}
