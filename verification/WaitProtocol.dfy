/** Waiting for a result: a waiter looks at the row, makes and clears the job's
    event, looks again and blocks; whoever commits a final state then looks the
    event up and sets it. Any interleaving of those actions for one job. */
module WaitProtocol {

  datatype Pc = Look | Make | Clear | LookAgain | Blocked | Done

  /** pcs: the waiters of the job. toRead and toSet: deliveries that have still to
      look the event up, and those that found it and have still to set it. */
  datatype State = State(finished: bool, made: bool, flag: bool, toRead: nat, toSet: nat, pcs: seq<Pc>)

  datatype Step =
    | Commit         // a final state is committed; its delivery follows
    | CommitOnly     // a final state is committed and never delivered
    | Requeue        // an operator puts the job back in the queue
    | Deliver        // a delivery without a transition
    | ReadEvent      // a delivery looks the event up
    | SetEvent       // a delivery sets the event
    | Wait(i: nat)   // a waiter takes its next action

  function Waited(s: State, i: nat): State
    requires i < |s.pcs|
  {
    match s.pcs[i]
    case Look => s.(pcs := s.pcs[i := if s.finished then Done else Make])
    case Make => s.(made := true, pcs := s.pcs[i := Clear])
    case Clear => s.(flag := false, pcs := s.pcs[i := LookAgain])
    case LookAgain => s.(pcs := s.pcs[i := if s.finished then Done else Blocked])
    case Blocked => if s.flag then s.(pcs := s.pcs[i := Look]) else s
    case Done => s
  }

  /** A step that cannot be taken leaves the state alone. */
  function Next(s: State, step: Step): State {
    match step
    case Commit => if s.finished then s else s.(finished := true, toRead := s.toRead + 1)
    case CommitOnly => s.(finished := true)
    case Requeue => s.(finished := false)
    case Deliver => s.(toRead := s.toRead + 1)
    case ReadEvent =>
      if s.toRead == 0 then s else s.(toRead := s.toRead - 1, toSet := if s.made then s.toSet + 1 else s.toSet)
    case SetEvent => if s.toSet == 0 then s else s.(toSet := s.toSet - 1, flag := true)
    case Wait(i) => if i < |s.pcs| then Waited(s, i) else s
  }

  function After(s: State, steps: seq<Step>): State {
    if steps == [] then s else Next(After(s, steps[..|steps| - 1]), steps[|steps| - 1])
  }

  function Start(finished: bool, waiters: nat): State {
    State(finished, false, false, 0, 0, seq(waiters, _ => Look))
  }

  /** Blocked on a finished job with nothing left that would wake it. */
  predicate Stuck(s: State, i: nat) {
    i < |s.pcs| && s.pcs[i] == Blocked && s.finished && !s.flag && s.toRead == 0 && s.toSet == 0
  }

  predicate Sound(s: State) {
    && |s.pcs| <= 1
    && (forall i :: 0 <= i < |s.pcs| && (s.pcs[i] == Clear || s.pcs[i] == LookAgain || s.pcs[i] == Blocked) ==> s.made)
    && (forall i :: 0 <= i < |s.pcs| && s.pcs[i] == Blocked && s.finished ==> s.flag || s.toRead > 0 || s.toSet > 0)
  }

  lemma NextKeepsSound(s: State, step: Step)
    requires Sound(s) && step != CommitOnly
    ensures Sound(Next(s, step))
  {
  }

  lemma {:induction false} AfterIsSound(finished: bool, waiters: nat, steps: seq<Step>)
    requires waiters <= 1 && CommitOnly !in steps
    ensures Sound(After(Start(finished, waiters), steps))
  {
    if steps != [] {
      AfterIsSound(finished, waiters, steps[..|steps| - 1]);
      NextKeepsSound(After(Start(finished, waiters), steps[..|steps| - 1]), steps[|steps| - 1]);
    }
  }

  /** One waiter per job and a delivery after every final transition: no
      interleaving leaves the waiter blocked on a finished job. */
  lemma NoLostWakeup(finished: bool, waiters: nat, steps: seq<Step>, i: nat)
    requires waiters <= 1 && CommitOnly !in steps
    ensures !Stuck(After(Start(finished, waiters), steps), i)
  {
    AfterIsSound(finished, waiters, steps);
  }

  predicate Helps(step: Step) {
    step == ReadEvent || step == SetEvent || step == Wait(0)
  }

  lemma {:induction false} AfterConcat(s: State, a: seq<Step>, b: seq<Step>)
    ensures After(s, a + b) == After(After(s, a), b)
  {
    if b == [] {
      assert a + b == a;
    } else {
      AfterConcat(s, a, b[..|b| - 1]);
      assert (a + b)[..|a + b| - 1] == a + b[..|b| - 1];
    }
  }

  lemma After1(s: State, step: Step)
    ensures After(s, [step]) == Next(s, step)
  {
  }

  /** And it does return: once the pending deliveries have run, two actions of the
      waiter are enough, whatever interleaving led here. */
  lemma {:induction false} WaiterReturns(s: State) returns (rest: seq<Step>)
    requires Sound(s) && s.pcs == [Blocked] && s.finished
    ensures (forall step :: step in rest ==> Helps(step)) && |rest| <= 2 * s.toRead + s.toSet + 2
    ensures After(s, rest).pcs == [Done]
    decreases 2 * s.toRead + s.toSet
  {
    assert s.pcs[0] == Blocked;
    if s.flag {
      rest := [Wait(0), Wait(0)];
      After1(s, Wait(0));
      assert rest[..1] == [Wait(0)];
    } else {
      var step := if s.toSet > 0 then SetEvent else ReadEvent;
      NextKeepsSound(s, step);
      var later := WaiterReturns(Next(s, step));
      rest := [step] + later;
      After1(s, step);
      AfterConcat(s, [step], later);
    }
  }

  // When a wakeup can be lost

  lemma StepOne(s: State, steps: seq<Step>, k: nat)
    requires k < |steps|
    ensures After(s, steps[..k + 1]) == Next(After(s, steps[..k]), steps[k])
  {
    assert steps[..k + 1][..k] == steps[..k];
  }

  lemma TwoSteps(s: State, x: Step, y: Step)
    ensures After(s, [x, y]) == Next(Next(s, x), y)
  {
    var steps := [x, y];
    StepOne(s, steps, 0);
    StepOne(s, steps, 1);
    assert steps[..0] == [] && steps[..2] == steps;
  }

  lemma FirstLooks(s: State)
    requires s.pcs != [] && s.pcs[0] == Look && !s.finished
    ensures After(s, [Wait(0), Wait(0)]) == s.(made := true, pcs := s.pcs[0 := Clear])
  {
    hide After;
    TwoSteps(s, Wait(0), Wait(0));
    assert s.pcs[0 := Make][0 := Clear] == s.pcs[0 := Clear];
  }

  lemma FirstWaits(s: State)
    requires s.pcs != [] && s.pcs[0] == Clear && !s.finished && !s.flag
    ensures After(s, [Wait(0), Wait(0)]) == s.(pcs := s.pcs[0 := Blocked])
  {
    hide After;
    TwoSteps(s, Wait(0), Wait(0));
    assert s.pcs[0 := LookAgain][0 := Blocked] == s.pcs[0 := Blocked];
  }

  /** The first waiter, alone so far, goes all the way to blocked. */
  lemma FirstBlocks(s: State)
    requires s.pcs != [] && s.pcs[0] == Look && !s.finished && !s.flag
    ensures After(s, [Wait(0), Wait(0)] + [Wait(0), Wait(0)]) == s.(made := true, pcs := s.pcs[0 := Blocked])
  {
    hide After;
    AfterConcat(s, [Wait(0), Wait(0)], [Wait(0), Wait(0)]);
    FirstLooks(s);
    FirstWaits(s.(made := true, pcs := s.pcs[0 := Clear]));
    assert s.pcs[0 := Clear][0 := Blocked] == s.pcs[0 := Blocked];
  }

  /** The second looks at the unfinished job and finds the event. */
  lemma SecondLooks(s: State)
    requires |s.pcs| >= 2 && s.pcs[1] == Look && !s.finished && s.made
    ensures After(s, [Wait(1), Wait(1)]) == s.(pcs := s.pcs[1 := Clear])
  {
    hide After;
    TwoSteps(s, Wait(1), Wait(1));
  }

  /** The job finishes and its delivery sets the event. */
  lemma Delivers(s: State)
    requires !s.finished && s.made && s.toRead == 0 && s.toSet == 0
    ensures After(s, [Commit, ReadEvent] + [SetEvent]) == s.(finished := true, flag := true)
  {
    AfterConcat(s, [Commit, ReadEvent], [SetEvent]);
    TwoSteps(s, Commit, ReadEvent);
    After1(s.(finished := true, toSet := 1), SetEvent);
  }

  /** The second clears it before the first has woken, and returns. */
  lemma SecondClears(s: State)
    requires |s.pcs| >= 2 && s.pcs[1] == Clear && s.finished
    ensures After(s, [Wait(1), Wait(1)]) == s.(flag := false, pcs := s.pcs[1 := Done])
  {
    hide After;
    TwoSteps(s, Wait(1), Wait(1));
  }

  /** Two or more waiters share the event, and one can clear what was meant for all. */
  lemma SharedEventLosesOne(waiters: nat) returns (steps: seq<Step>)
    requires waiters >= 2
    ensures CommitOnly !in steps && Stuck(After(Start(false, waiters), steps), 0)
  {
    hide After;
    var s0 := Start(false, waiters);
    var a := [Wait(0), Wait(0)] + [Wait(0), Wait(0)];
    var b := [Wait(1), Wait(1)];
    var c := [Commit, ReadEvent] + [SetEvent];
    FirstBlocks(s0);
    var s1 := After(s0, a);
    SecondLooks(s1);
    var s2 := After(s1, b);
    Delivers(s2);
    SecondClears(After(s2, c));
    AfterConcat(s0, a, b);
    AfterConcat(s0, a + b, c);
    AfterConcat(s0, a + b + c, b);
    steps := a + b + c + b;
  }

  /** A final state that is never delivered, as when a whole batch is cancelled,
      leaves even a single waiter blocked. */
  lemma UndeliveredLosesOne() returns (steps: seq<Step>)
    ensures Stuck(After(Start(false, 1), steps), 0)
  {
    hide After;
    var s, a := Start(false, 1), [Wait(0), Wait(0)] + [Wait(0), Wait(0)];
    FirstBlocks(s);
    AfterConcat(s, a, [CommitOnly]);
    After1(After(s, a), CommitOnly);
    steps := a + [CommitOnly];
  }

  /** Some interleaving leaves some waiter stuck. undelivered says whether a final
      state may be committed and never delivered. */
  ghost predicate CanStrand(waiters: nat, undelivered: bool) {
    exists finished, steps, i :: Strands(finished, waiters, undelivered, steps, i)
  }

  predicate Strands(finished: bool, waiters: nat, undelivered: bool, steps: seq<Step>, i: nat) {
    (undelivered || CommitOnly !in steps) && Stuck(After(Start(finished, waiters), steps), i)
  }

  lemma {:induction false} WaitersStay(s: State, steps: seq<Step>)
    ensures |After(s, steps).pcs| == |s.pcs|
  {
    if steps != [] {
      WaitersStay(s, steps[..|steps| - 1]);
    }
  }

  /** A wakeup can be lost if and only if several waiters share the job, or a single
      one waits while a final state may go undelivered. */
  lemma WakeupIsLostExactlyWhen(waiters: nat, undelivered: bool)
    ensures CanStrand(waiters, undelivered) <==> waiters >= 2 || (waiters == 1 && undelivered)
  {
    hide After, Stuck;
    if waiters >= 2 {
      var steps := SharedEventLosesOne(waiters);
      assert Strands(false, waiters, undelivered, steps, 0);
    } else if waiters == 1 && undelivered {
      var steps := UndeliveredLosesOne();
      assert Strands(false, waiters, undelivered, steps, 0);
    } else {
      forall finished, steps, i ensures !Strands(finished, waiters, undelivered, steps, i) {
        NobodyToStrand(finished, waiters, undelivered, steps, i);
      }
    }
  }

  lemma NobodyToStrand(finished: bool, waiters: nat, undelivered: bool, steps: seq<Step>, i: nat)
    requires waiters == 0 || (waiters == 1 && !undelivered)
    ensures !Strands(finished, waiters, undelivered, steps, i)
  {
    hide After;
    WaitersStay(Start(finished, waiters), steps);
    if waiters == 1 && CommitOnly !in steps {
      NoLostWakeup(finished, waiters, steps, i);
    }
  }

  /** What is stuck stays so until a delivery comes without a transition, or the job
      is put back in the queue. */
  lemma {:induction false} StuckUntilDelivered(s: State, steps: seq<Step>, i: nat)
    requires Stuck(s, i) && Deliver !in steps && Requeue !in steps
    ensures Stuck(After(s, steps), i)
  {
    if steps != [] {
      StuckUntilDelivered(s, steps[..|steps| - 1], i);
    }
  }
}
