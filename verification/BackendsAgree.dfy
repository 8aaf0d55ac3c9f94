/** One contract, three stores: over the same rows, with an index that lists them
    all, they claim the same job and commit the same picker state. */
module BackendsAgree {
  import opened Types
  import opened Picker
  import opened ReadyIndexes
  import opened ClaimRuns
  import opened DiskPicks
  import opened JobTables
  import opened IndexAgreement
  import opened HybridBackends
  import Recovery

  /** No queued row is late or has a cancellation pending. */
  ghost predicate NoDeadWood(t: Table, now: int) {
    forall id :: id in t.jobs && t.jobs[id].state == Queued
      ==> !t.jobs[id].cancelRequested && !Passed(t.jobs[id].deadlineAt, now)
  }

  /** That is how a recovery pass of either kind leaves the rows. */
  lemma SweptHasNoDeadWood(t: Table, now: int)
    ensures NoDeadWood(Recovery.SweepTable(t, now), now)
    ensures NoDeadWood(Maintain(Maintain(t, now), now), now)
  {
    hide Recovery.Swept, Maintained;
    Recovery.RecoveryAgrees(t, now);
    forall id | id in t.jobs && Recovery.Swept(t.jobs[id], now).state == Queued
      ensures var job := Recovery.Swept(t.jobs[id], now); !job.cancelRequested && !Passed(job.deadlineAt, now)
    {
      SettledQueued(t.jobs[id], now);
    }
  }

  lemma SettledQueued(job: Job, now: int)
    requires Recovery.Swept(job, now).state == Queued
    ensures !Recovery.Swept(job, now).cancelRequested && !Passed(Recovery.Swept(job, now).deadlineAt, now)
  {
  }

  /** Then an index in agreement lists exactly the ready rows, and those are the
      rows that can be claimed. */
  lemma AgreedViewIsReady(t: Table, view: View, now: int)
    requires JobsOk(t) && Agrees(view, t, now) && NoDeadWood(t, now)
    ensures view == ReadyView(t) == ClaimableView(t, now)
  {
  }

  lemma OrderlyIsTieFree(t: Table, now: int)
    requires Orderly(t, now) && JobsOk(t)
    ensures TieFree(ClaimableView(t, now)) && Keyed(ClaimableView(t, now))
  {
  }

  /** The hybrid store claims what the memory store claims. */
  lemma HybridFollowsMemory(t: Table, view: View, model: string, picker: PickerState, now: int,
                            settings: SchedulerSettings, r1: seq<Id>, c1: Option<Id>, n1: PickerState, r2: seq<Id>,
                            c2: Option<Id>, n2: PickerState)
    requires JobsOk(t) && Agrees(view, t, now) && NoDeadWood(t, now) && TieFree(view)
    requires ClaimRun(view, ClaimableIds(t, now), model, picker, Epoch(now), settings, r1, c1, n1)
    requires ClaimRun(ReadyView(t), ClaimableIds(t, now), model, picker, Epoch(now), settings, r2, c2, n2)
    ensures c1 == c2 && n1 == n2 && r1 == r2
  {
    hide ClaimRun, Agrees, NoDeadWood, TieFree, ClaimableIds;
    AgreedViewIsReady(t, view, now);
    ReadyViewIsKeyed(t);
    ClaimRunsAgree(view, ClaimableIds(t, now), model, picker, Epoch(now), settings, r1, c1, n1, r2, c2, n2);
  }

  lemma ReadyViewIsKeyed(t: Table)
    requires JobsOk(t)
    ensures Keyed(ReadyView(t))
  {
  }

  /** An index of claimable rows never proposes a row that is refused. */
  lemma NothingRejected(view: View, ok: set<Id>, model: string, picker: PickerState, now: real,
                        settings: SchedulerSettings, rejects: seq<Id>, claimed: Option<Id>, next: PickerState)
    requires ClaimRun(view, ok, model, picker, now, settings, rejects, claimed, next) && view.Keys <= ok
    ensures rejects == []
  {
    assert rejects != [] ==> rejects[0] in rejects;
    ClaimIsSafe(view, ok, model, picker, now, settings, rejects, claimed, next);
  }

  /** And the disk store claims what the hybrid store claims, as long as no class
      overflows its window and lanes are queued in priority order. */
  lemma DiskFollowsHybrid(t: Table, model: string, picker: PickerState, now: int, settings: SchedulerSettings,
                          window: seq<Candidate>, skipped: seq<Id>, c1: Option<Id>, n1: PickerState, rejects: seq<Id>,
                          c2: Option<Id>, n2: PickerState)
    requires JobsOk(t) && Orderly(t, now) && Untruncated(t, model, now, settings.diskCandidatesPerClass)
    requires settings.ageWeight > 0.0 && settings.priorityWeight >= 0.0
    requires IsWindow(window, t, model, now, settings.diskCandidatesPerClass)
    requires DiskRun(window, ClaimableIds(t, now), model, picker, Epoch(now), settings, skipped, c1, n1)
    requires ClaimRun(ClaimableView(t, now), ClaimableIds(t, now), model, picker, Epoch(now), settings, rejects, c2, n2)
    ensures c1 == c2 && n1 == n2
  {
    hide JobsOk, Orderly, Untruncated, IsWindow, DiskRun, Chosen, ClaimableIds;
    var view := ClaimableView(t, now);
    NothingRejected(view, ClaimableIds(t, now), model, picker, Epoch(now), settings, rejects, c2, n2);
    assert view - Members([]) == view;
    var last, proposed := EndOf(view, ClaimableIds(t, now), model, picker, Epoch(now), settings, [], c2, n2);
    var hs :| IsHeads(hs, view, model) && Chosen(picker, model, hs, Epoch(now), settings) == (last, proposed);
    DiskRunIsOnePick(window, t, model, picker, now, settings, settings.diskCandidatesPerClass, skipped, c1, n1);
    DiskPickIsHeadPick(window, hs, t, model, picker, now, settings, settings.diskCandidatesPerClass);
  }

  /** All three at once. */
  lemma StoresClaimAlike(t: Table, view: View, model: string, picker: PickerState, now: int,
                         settings: SchedulerSettings, r1: seq<Id>, memory: Option<Id>, n1: PickerState, r2: seq<Id>,
                         hybrid: Option<Id>, n2: PickerState, window: seq<Candidate>, skipped: seq<Id>,
                         disk: Option<Id>, n3: PickerState)
    requires JobsOk(t) && Agrees(view, t, now) && NoDeadWood(t, now) && Orderly(t, now)
    requires settings.ageWeight > 0.0 && settings.priorityWeight >= 0.0
    requires Untruncated(t, model, now, settings.diskCandidatesPerClass)
    requires ClaimRun(view, ClaimableIds(t, now), model, picker, Epoch(now), settings, r1, memory, n1)
    requires ClaimRun(ReadyView(t), ClaimableIds(t, now), model, picker, Epoch(now), settings, r2, hybrid, n2)
    requires IsWindow(window, t, model, now, settings.diskCandidatesPerClass)
    requires DiskRun(window, ClaimableIds(t, now), model, picker, Epoch(now), settings, skipped, disk, n3)
    ensures memory == hybrid == disk && n1 == n2 == n3
  {
    hide JobsOk, Agrees, NoDeadWood, Orderly, Untruncated, ClaimRun, IsWindow, DiskRun, ClaimableIds, ClaimableView;
    hide ReadyView, TieFree;
    AgreedViewIsReady(t, view, now);
    OrderlyIsTieFree(t, now);
    HybridFollowsMemory(t, view, model, picker, now, settings, r1, memory, n1, r2, hybrid, n2);
    DiskFollowsHybrid(t, model, picker, now, settings, window, skipped, disk, n3, r2, hybrid, n2);
  }

  // How the hint keeps up

  /** A hint that lists exactly the ready rows still does after recovery. */
  lemma MaintenanceKeepsTheHint(t: Table, now: int)
    requires TableOk(t)
    ensures var u := Recovery.SweepTable(t, now);
      Refreshed(ReadyView(t), ReportedIds(Recovery.SweptReport(t.jobs, now)), u.jobs) == ReadyView(u)
  {
    hide TableOk, Recovery.Swept, Recovery.SweptEvents, CandidateOf, Recovery.SweptReport, ReportedIds;
    var u := Recovery.SweepTable(t, now);
    var next := Refreshed(ReadyView(t), ReportedIds(Recovery.SweptReport(t.jobs, now)), u.jobs);
    NothingElseReported(t, now);
    forall id | id in t.jobs
      ensures id in next <==> id in ReadyView(u)
      ensures id in next && id in ReadyView(u) ==> next[id] == ReadyView(u)[id]
    {
      WhatIsReported(t, id, now);
      QuietMeansUnchanged(t.jobs[id], now);
      QueuedIsActive(t, id, now);
    }
  }

  lemma WhatIsReported(t: Table, id: Id, now: int)
    requires id in t.jobs
    ensures id in ReportedIds(Recovery.SweptReport(t.jobs, now)) <==> Recovery.SweptEvents(t.jobs[id], now) != {}
  {
    hide Recovery.SweptEvents;
    if Recovery.SweptEvents(t.jobs[id], now) != {} {
      var e :| e in Recovery.SweptEvents(t.jobs[id], now);
      assert (e, id) in Recovery.SweptReport(t.jobs, now);
    }
  }

  lemma NothingElseReported(t: Table, now: int)
    ensures ReportedIds(Recovery.SweptReport(t.jobs, now)) <= t.jobs.Keys
  {
  }

  lemma QuietMeansUnchanged(job: Job, now: int)
    ensures Recovery.SweptEvents(job, now) == {} ==> Recovery.Swept(job, now) == job
  {
  }

  lemma QueuedIsActive(t: Table, id: Id, now: int)
    requires TableOk(t) && id in t.jobs
    ensures Recovery.Swept(t.jobs[id], now).state == Queued
      ==> BatchActive(t.batches, Recovery.Swept(t.jobs[id], now).batchId)
  {
  }

  /** A release goes straight to the rows: the released job is ready, but the hint
      does not list it until the next reconcile. */
  lemma ReleaseLeavesTheHintBehind(t: Table, id: Id, owner: string, resolved: Option<string>, decrement: bool, now: int)
    requires TableOk(t) && ApplyLease(t, id, owner, Release(resolved, decrement), now).1
    ensures var u := ApplyLease(t, id, owner, Release(resolved, decrement), now).0;
      id !in ReadyView(t) && id in ReadyView(u) && ReadyView(u) - {id} == ReadyView(t)
  {
    var u := ApplyLease(t, id, owner, Release(resolved, decrement), now).0;
    assert FitsBatch(t.batches, t.jobs[id]);
    assert ReadyIds(u) == ReadyIds(t) + {id};
  }
}
