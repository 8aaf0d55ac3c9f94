/** Recovery in the two stores. In memory one pass takes one branch per job; the
    SQLite store runs four sweeps, each over the rows the sweeps before it left. */
module Recovery {
  import opened Types
  import opened JobTables

  datatype Event = Recovered | Promoted | DeadLettered | ExpiredCancelled | DeadlineHit

  type Report = set<(Event, Id)>

  // One pass in memory

  /** What a pass reports about one job. */
  function PassEvents(job: Job, now: int): set<Event> {
    if LeaseOver(job, now) then ExpiryEvents(job)
    else if job.state == RetryWait && Due(job.notBefore, now) then {Promoted}
    else if job.state == Queued && Passed(job.deadlineAt, now) then {DeadlineHit}
    else if Cancellable(job.state) && job.state != Leased && job.cancelRequested then {ExpiredCancelled}
    else {}
  }

  function ExpiryEvents(job: Job): set<Event> {
    if job.cancelRequested then {ExpiredCancelled}
    else if job.attemptCount >= job.maxAttempts then {DeadLettered}
    else {Recovered}
  }

  function PassReport(jobs: map<Id, Job>, now: int): Report {
    PassReportOn(jobs, jobs.Keys, now)
  }

  function PassReportOn(jobs: map<Id, Job>, ids: set<Id>, now: int): Report {
    set id, e | id in ids && id in jobs && e in PassEvents(jobs[id], now) :: (e, id)
  }

  function Tagged(events: set<Event>, id: Id): Report {
    set e | e in events :: (e, id)
  }

  lemma ReportGrows(jobs: map<Id, Job>, todo: set<Id>, id: Id, now: int)
    requires id in todo && id in jobs
    ensures PassReportOn(jobs, jobs.Keys - (todo - {id}), now)
      == PassReportOn(jobs, jobs.Keys - todo, now) + Tagged(PassEvents(jobs[id], now), id)
  {
  }

  lemma ReportEnds(jobs: map<Id, Job>, now: int)
    ensures PassReportOn(jobs, jobs.Keys - jobs.Keys, now) == {}
    ensures PassReportOn(jobs, jobs.Keys - {}, now) == PassReport(jobs, now)
  {
  }

  // One transaction in SQLite

  predicate DueAgain(job: Job, now: int) {
    job.state == RetryWait && Due(job.notBefore, now)
  }

  predicate Late(job: Job, now: int) {
    job.state == Queued && Passed(job.deadlineAt, now)
  }

  predicate FlaggedIdle(job: Job) {
    job.cancelRequested && Cancellable(job.state) && job.state != Leased
  }

  function ExpireSwept(job: Job, now: int): Job {
    if LeaseOver(job, now) then Expired(job, now) else job
  }

  function PromoteSwept(job: Job, now: int): Job {
    if DueAgain(job, now) then Queueing(job, now) else job
  }

  function DeadlineSwept(job: Job, now: int): Job {
    if Late(job, now) then FailedWith(job, DEADLINE, false, now) else job
  }

  function CancelSwept(job: Job, now: int): Job {
    if FlaggedIdle(job) then CancelledAt(job, now) else job
  }

  function Swept(job: Job, now: int): Job {
    CancelSwept(DeadlineSwept(PromoteSwept(ExpireSwept(job, now), now), now), now)
  }

  /** What the four sweeps report about one job. */
  function SweptEvents(job: Job, now: int): set<Event> {
    var expired := ExpireSwept(job, now);
    var promoted := PromoteSwept(expired, now);
    var late := DeadlineSwept(promoted, now);
    (if LeaseOver(job, now) then ExpiryEvents(job) else {})
    + (if DueAgain(expired, now) then {Promoted} else {})
    + (if Late(promoted, now) then {DeadlineHit} else {})
    + (if FlaggedIdle(late) then {ExpiredCancelled} else {})
  }

  function SweptReport(jobs: map<Id, Job>, now: int): Report {
    set id, e | id in jobs && e in SweptEvents(jobs[id], now) :: (e, id)
  }

  function SweepTable(t: Table, now: int): Table {
    t.(jobs := map id | id in t.jobs :: Swept(t.jobs[id], now))
  }

  // The four sweeps

  function AfterExpiry(jobs: map<Id, Job>, now: int): map<Id, Job> {
    map id | id in jobs :: ExpireSwept(jobs[id], now)
  }

  function AfterPromotion(jobs: map<Id, Job>, now: int): map<Id, Job> {
    map id | id in jobs :: PromoteSwept(jobs[id], now)
  }

  function AfterDeadlines(jobs: map<Id, Job>, now: int): map<Id, Job> {
    map id | id in jobs :: DeadlineSwept(jobs[id], now)
  }

  function AfterCancels(jobs: map<Id, Job>, now: int): map<Id, Job> {
    map id | id in jobs :: CancelSwept(jobs[id], now)
  }

  function ExpiryReport(jobs: map<Id, Job>, now: int): Report {
    set id, e | id in jobs && LeaseOver(jobs[id], now) && e in ExpiryEvents(jobs[id]) :: (e, id)
  }

  function PromotionReport(jobs: map<Id, Job>, now: int): Report {
    set id | id in jobs && DueAgain(jobs[id], now) :: (Promoted, id)
  }

  function DeadlineReport(jobs: map<Id, Job>, now: int): Report {
    set id | id in jobs && Late(jobs[id], now) :: (DeadlineHit, id)
  }

  function CancelReport(jobs: map<Id, Job>): Report {
    set id | id in jobs && FlaggedIdle(jobs[id]) :: (ExpiredCancelled, id)
  }

  /** Sweeping the table four times sweeps each job through all four. */
  lemma SweepsCompose(jobs: map<Id, Job>, now: int)
    ensures var a := AfterExpiry(jobs, now);
      var b := AfterPromotion(a, now);
      var c := AfterDeadlines(b, now);
      && AfterCancels(c, now) == (map id | id in jobs :: Swept(jobs[id], now))
      && ExpiryReport(jobs, now) + PromotionReport(a, now) + DeadlineReport(b, now) + CancelReport(c)
        == SweptReport(jobs, now)
  {
    hide ExpireSwept, PromoteSwept, DeadlineSwept, CancelSwept, LeaseOver, DueAgain, Late, FlaggedIdle, ExpiryEvents;
  }

  // How they compare

  /** For every job, however odd its fields: two passes in memory do what one
      transaction does and report the same events. */
  lemma TwoPassesAreOneSweep(job: Job, now: int)
    ensures Maintained(Maintained(job, now), now) == Swept(job, now)
    ensures PassEvents(job, now) + PassEvents(Maintained(job, now), now) == SweptEvents(job, now)
  {
  }

  /** After that, neither store changes the job or reports anything again. */
  lemma SweptIsSettled(job: Job, now: int)
    ensures var settled := Swept(job, now);
      && Maintained(settled, now) == settled && PassEvents(settled, now) == {}
      && Swept(settled, now) == settled && SweptEvents(settled, now) == {}
  {
  }

  /** A job that one pass queues although it is late or its cancellation was
      requested: a lease that ran out with attempts left after the deadline, or a
      retry that fell due late or cancelled. */
  predicate QueuedTooSoon(job: Job, now: int) {
    || (LeaseOver(job, now) && !job.cancelRequested && job.attemptCount < job.maxAttempts
        && Passed(job.deadlineAt, now))
    || (job.state == RetryWait && Due(job.notBefore, now) && (Passed(job.deadlineAt, now) || job.cancelRequested))
  }

  /** For any other job, and for no such job, one pass already does what the
      transaction does. */
  lemma OnePassIsEnoughWhen(job: Job, now: int)
    ensures Maintained(job, now) == Swept(job, now) <==> !QueuedTooSoon(job, now)
  {
  }

  lemma SweptKeepsIdentity(job: Job, now: int)
    ensures SameIdentity(job, Swept(job, now))
  {
    hide Swept, Maintained;
    TwoPassesAreOneSweep(job, now);
    MaintainedStaysGood(job, map[], now);
    MaintainedStaysGood(Maintained(job, now), map[], now);
  }

  /** The same for whole tables and whole reports. */
  lemma RecoveryAgrees(t: Table, now: int)
    ensures Maintain(Maintain(t, now), now) == SweepTable(t, now)
    ensures PassReport(t.jobs, now) + PassReport(Maintain(t, now).jobs, now) == SweptReport(t.jobs, now)
    ensures Maintain(SweepTable(t, now), now) == SweepTable(t, now)
    ensures SweepTable(SweepTable(t, now), now) == SweepTable(t, now)
  {
    hide Maintained, Swept, PassEvents, SweptEvents;
    var once, swept := Maintain(t, now), SweepTable(t, now);
    forall id | id in t.jobs
      ensures Maintained(once.jobs[id], now) == Swept(t.jobs[id], now)
      ensures PassEvents(t.jobs[id], now) + PassEvents(once.jobs[id], now) == SweptEvents(t.jobs[id], now)
      ensures Maintained(swept.jobs[id], now) == swept.jobs[id] == Swept(swept.jobs[id], now)
    {
      TwoPassesAreOneSweep(t.jobs[id], now);
      SweptIsSettled(t.jobs[id], now);
    }
    var both := PassReport(t.jobs, now) + PassReport(once.jobs, now);
    forall p ensures p in both <==> p in SweptReport(t.jobs, now) {
      if p.1 in t.jobs {
        assert p.0 in PassEvents(t.jobs[p.1], now) + PassEvents(once.jobs[p.1], now)
          <==> p.0 in SweptEvents(t.jobs[p.1], now);
      }
    }
  }
}
