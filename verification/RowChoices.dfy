/** Which job a claim takes, said in the fields of the rows. */
module RowChoices {
  import opened Types
  import opened TieBreak
  import opened Picker
  import opened PickerOrder
  import opened ReadyIndexes
  import opened ClaimRuns
  import opened JobTables
  import opened JobOrder
  import opened IndexAgreement
  import opened DiskPicks
  import opened NativeBatches
  import opened Outcomes

  predicate SameClass(a: Job, b: Job) {
    a.resolvedModel == b.resolvedModel && a.schedulingClass == b.schedulingClass
  }

  predicate SameQueue(a: Job, b: Job) {
    SameClass(a, b) && a.clientId == b.clientId
  }

  /** Of a higher priority, or of the same and no younger. */
  predicate NotAfter(a: Job, b: Job) {
    b.priority < a.priority || (b.priority == a.priority && a.createdAt <= b.createdAt)
  }

  /** How long the job has waited, in seconds. */
  function Waited(job: Job, now: int): real {
    Max(0.0, (now - job.createdAt) as real / 1000.0)
  }

  /** a scores at most what b does. */
  predicate ScoresAtMost(a: Job, b: Job, skips: Skips, now: int, settings: SchedulerSettings) {
    (a.priority - b.priority) as real * settings.priorityWeight
    + (Skipped(skips, a.clientId) - Skipped(skips, b.clientId)) as real * settings.clientSkipWeight
    + (Waited(a, now) - Waited(b, now)) * settings.ageWeight <= 0.0
  }

  // From an index

  /** No job that could have been claimed comes before this one in its queue. */
  ghost predicate FirstInQueue(t: Table, id: Id, now: int)
    requires id in t.jobs
  {
    forall y :: y in t.jobs && MayClaim(t.jobs[y], t.batches, now) && SameQueue(t.jobs[y], t.jobs[id]) ==>
      NotAfter(t.jobs[id], t.jobs[y])
  }

  /** Every other queued job of its queue comes strictly after it. */
  ghost predicate HeadsQueue(t: Table, y: Id)
    requires y in t.jobs
  {
    forall z :: z in t.jobs && z != y && t.jobs[z].state == Queued && SameQueue(t.jobs[z], t.jobs[y]) ==>
      t.jobs[z].priority < t.jobs[y].priority
      || (t.jobs[z].priority == t.jobs[y].priority && t.jobs[y].createdAt < t.jobs[z].createdAt)
  }

  /** No job of its class that heads a queue and could have been claimed scores more. */
  ghost predicate ScoresMostOfHeads(t: Table, id: Id, skips: Skips, now: int, settings: SchedulerSettings)
    requires id in t.jobs
  {
    forall y ::
      (y in t.jobs && MayClaim(t.jobs[y], t.batches, now) && SameClass(t.jobs[y], t.jobs[id]) && HeadsQueue(t, y)) ==>
        ScoresAtMost(t.jobs[y], t.jobs[id], skips, now, settings)
  }

  /** The index lists queued jobs only, as their rows say, and every one that may be
      claimed. */
  ghost predicate ListsClaimable(view: View, t: Table, now: int) {
    && (forall id :: id in view ==>
          id in t.jobs && t.jobs[id].state == Queued && view[id] == CandidateOf(t.jobs[id]) && t.jobs[id].jobId == id)
    && (forall id :: id in t.jobs && MayClaim(t.jobs[id], t.batches, now) ==> id in view)
  }

  lemma AgreementLists(t: Table, view: View, now: int)
    requires JobsOk(t) && Agrees(view, t, now)
    ensures ListsClaimable(view, t, now)
  {
    forall id | id in t.jobs && MayClaim(t.jobs[id], t.batches, now) ensures id in view {
      assert Wanted(t.jobs[id], BatchActive(t.batches, t.jobs[id].batchId), now);
    }
  }

  lemma ClaimedIsAHead(view: View, ok: set<Id>, model: string, picker: PickerState, now: real,
                       settings: SchedulerSettings, rejects: seq<Id>, id: Id, next: PickerState)
    returns (rest: View, hs: seq<Candidate>)
    requires ClaimRun(view, ok, model, picker, now, settings, rejects, Some(id), next)
    ensures rest == view - Members(rejects) && IsHeads(hs, rest, model) && id in rest && rest[id] in hs
    ensures Chosen(picker, model, hs, now, settings) == (Some(rest[id]), next)
    ensures id in ok && forall y :: y in ok ==> y !in Members(rejects)
  {
    hide Chosen, IsHeads;
    rest := view - Members(rejects);
    var c :| Proposes(rest, model, picker, now, settings, Some(c), next) && c.jobId == id;
    ProposalIsListed(rest, model, picker, now, settings, c, next);
    hs :| IsHeads(hs, rest, model) && Chosen(picker, model, hs, now, settings) == (Some(c), next);
    ChosenIsMember(picker, model, hs, now, settings);
    forall y | y in ok ensures y !in Members(rejects) {
      assert forall i :: 0 <= i < |rejects| ==>
        Rejects(view - Members(rejects[..i]), ok, model, picker, now, settings, rejects[i]);
    }
  }

  /** Claimed through an index, a job is the first of its queue, and its score is the
      most of its class's queues. */
  lemma ClaimTakesTheFirst(t: Table, view: View, model: string, picker: PickerState, now: int,
                           settings: SchedulerSettings, rejects: seq<Id>, id: Id, next: PickerState)
    requires ListsClaimable(view, t, now)
    requires ClaimRun(view, ClaimableIds(t, now), model, picker, Epoch(now), settings, rejects, Some(id), next)
    ensures id in t.jobs && t.jobs[id].resolvedModel == model && FirstInQueue(t, id, now)
    ensures ScoresMostOfHeads(t, id, SkipsOf(picker, model), now, settings)
  {
    hide ClaimRun, Chosen, ClaimableIds, MayClaim, ScoresAtMost, NotAfter;
    var rest, hs := ClaimedIsAHead(view, ClaimableIds(t, now), model, picker, Epoch(now), settings, rejects, id, next);
    forall y | y in t.jobs && MayClaim(t.jobs[y], t.batches, now) ensures y in rest {
      ClaimInFields(t, y, "", 0, now);
    }
    forall y | y in t.jobs && MayClaim(t.jobs[y], t.batches, now) && SameQueue(t.jobs[y], t.jobs[id])
      ensures NotAfter(t.jobs[id], t.jobs[y])
    {
      HeadIsFirst(t, rest, model, hs, id, y);
    }
    forall y | y in t.jobs && MayClaim(t.jobs[y], t.batches, now) && SameClass(t.jobs[y], t.jobs[id])
      && HeadsQueue(t, y)
      ensures ScoresAtMost(t.jobs[y], t.jobs[id], SkipsOf(picker, model), now, settings)
    {
      QueueHeadIsHead(t, rest, model, hs, y);
      PickScoresMost(picker, model, hs, Epoch(now), settings);
      SameScores(t.jobs[y], t.jobs[id], SkipsOf(picker, model), now, settings);
    }
  }

  lemma HeadIsFirst(t: Table, rest: View, model: string, hs: seq<Candidate>, id: Id, y: Id)
    requires IsHeads(hs, rest, model) && id in rest && rest[id] in hs && y in rest && id in t.jobs && y in t.jobs
    requires rest[id] == CandidateOf(t.jobs[id]) && rest[y] == CandidateOf(t.jobs[y])
    requires SameQueue(t.jobs[y], t.jobs[id])
    ensures NotAfter(t.jobs[id], t.jobs[y])
  {
    assert Headed(hs, rest[y]) && LaneOf(rest[id]) == LaneOf(rest[y]);
    var h :| h in hs && LaneOf(h) == LaneOf(rest[y]) && NoLaterThan(h, rest[y]);
    OneHeadOfLane(hs, rest, model, h, rest[id]);
  }

  lemma OneHeadOfLane(hs: seq<Candidate>, view: View, model: string, g: Candidate, h: Candidate)
    requires IsHeads(hs, view, model) && g in hs && h in hs && LaneOf(g) == LaneOf(h)
    ensures g == h
  {
    hide Headed, LaneOf;
  }

  lemma QueueHeadIsHead(t: Table, rest: View, model: string, hs: seq<Candidate>, y: Id)
    requires IsHeads(hs, rest, model) && y in rest && y in t.jobs && HeadsQueue(t, y)
      && t.jobs[y].resolvedModel == model
    requires forall id :: id in rest ==>
      id in t.jobs && t.jobs[id].state == Queued && rest[id] == CandidateOf(t.jobs[id]) && t.jobs[id].jobId == id
    ensures rest[y] in hs
  {
    assert Headed(hs, rest[y]);
    var h :| h in hs && LaneOf(h) == LaneOf(rest[y]) && NoLaterThan(h, rest[y]);
    assert h == CandidateOf(t.jobs[h.jobId]) && SameQueue(t.jobs[h.jobId], t.jobs[y]);
  }

  lemma SameScores(a: Job, b: Job, skips: Skips, now: int, settings: SchedulerSettings)
    ensures NotAbove(CandidateOf(a), CandidateOf(b), skips, Epoch(now), settings)
      <==> ScoresAtMost(a, b, skips, now, settings)
  {
    assert Epoch(now) - Epoch(a.createdAt) == (now - a.createdAt) as real / 1000.0;
    assert Epoch(now) - Epoch(b.createdAt) == (now - b.createdAt) as real / 1000.0;
  }

  // From a window

  predicate RanksBefore(a: Job, b: Job) {
    b.priority < a.priority
    || (b.priority == a.priority && a.createdAt < b.createdAt)
    || (b.priority == a.priority && a.createdAt == b.createdAt && LexLess(Codes(a.jobId), Codes(b.jobId)))
  }

  /** The jobs of its model and class that could be claimed and rank before it. */
  ghost function BeforeInClass(t: Table, y: Id, now: int): set<Id>
    requires y in t.jobs
  {
    set x | x in t.jobs && MayClaim(t.jobs[x], t.batches, now) && SameClass(t.jobs[x], t.jobs[y])
      && RanksBefore(t.jobs[x], t.jobs[y])
  }

  /** Of its class, no job among the first limit by priority, age and id scores more. */
  ghost predicate ScoresMostShown(t: Table, id: Id, limit: nat, skips: Skips, now: int, settings: SchedulerSettings)
    requires id in t.jobs
  {
    forall y ::
      (y in t.jobs && MayClaim(t.jobs[y], t.batches, now) && SameClass(t.jobs[y], t.jobs[id])
       && |BeforeInClass(t, y, now)| < limit) ==>
        ScoresAtMost(t.jobs[y], t.jobs[id], skips, now, settings)
  }

  lemma SameRowsBefore(t: Table, y: Id, now: int)
    requires JobsOk(t) && y in t.jobs
    ensures RowsBefore(t.jobs, true, InClass(t, t.jobs[y].resolvedModel, t.jobs[y].schedulingClass, now), y)
      == BeforeInClass(t, y, now)
  {
    hide MayClaim, Claimable;
    forall x | x in t.jobs
      ensures x in ClaimableIds(t, now) <==> MayClaim(t.jobs[x], t.batches, now)
      ensures Earlier(t.jobs, true, x, y) <==> RanksBefore(t.jobs[x], t.jobs[y])
    {
      ClaimInFields(t, x, "", 0, now);
    }
  }

  /** Claimed from a window, a job is among those shown, and scores the most of its
      class's. */
  lemma DiskClaimTakesTheBest(t: Table, window: seq<Candidate>, model: string, picker: PickerState, now: int,
                              settings: SchedulerSettings, skipped: seq<Id>, id: Id, next: PickerState)
    requires JobsOk(t) && IsWindow(window, t, model, now, settings.diskCandidatesPerClass)
    requires DiskRun(window, ClaimableIds(t, now), model, picker, Epoch(now), settings, skipped, Some(id), next)
    ensures id in t.jobs && t.jobs[id].resolvedModel == model
    ensures |BeforeInClass(t, id, now)| < settings.diskCandidatesPerClass
    ensures ScoresMostShown(t, id, settings.diskCandidatesPerClass, SkipsOf(picker, model), now, settings)
  {
    hide DiskRun, Chosen, IsWindow, ClaimableIds, MayClaim, ScoresAtMost, NotAbove;
    DiskRunIsOnePick(window, t, model, picker, now, settings, settings.diskCandidatesPerClass, skipped, Some(id), next);
    var best := Chosen(picker, model, window, Epoch(now), settings).0.value;
    ChosenIsMember(picker, model, window, Epoch(now), settings);
    WindowIsClaimable(window, t, model, now, settings.diskCandidatesPerClass, best);
    ClaimInFields(t, id, "", 0, now);
    ShownInFields(window, t, model, now, settings.diskCandidatesPerClass, id);
    forall y | y in t.jobs && MayClaim(t.jobs[y], t.batches, now)
      && SameClass(t.jobs[y], t.jobs[id]) && |BeforeInClass(t, y, now)| < settings.diskCandidatesPerClass
      ensures ScoresAtMost(t.jobs[y], t.jobs[id], SkipsOf(picker, model), now, settings)
    {
      ShownInFields(window, t, model, now, settings.diskCandidatesPerClass, y);
      PickScoresMost(picker, model, window, Epoch(now), settings);
      SameScores(t.jobs[y], t.jobs[id], SkipsOf(picker, model), now, settings);
    }
  }

  lemma ShownInFields(window: seq<Candidate>, t: Table, model: string, now: int, limit: nat, y: Id)
    requires IsWindow(window, t, model, now, limit) && JobsOk(t) && y in t.jobs && t.jobs[y].resolvedModel == model
    requires MayClaim(t.jobs[y], t.batches, now)
    ensures CandidateOf(t.jobs[y]) in window <==> |BeforeInClass(t, y, now)| < limit
  {
    hide MayClaim, IsWindow, ClaimableIds;
    ClaimInFields(t, y, "", 0, now);
    RowIsShownExactlyWhen(window, t, model, now, limit, y);
    SameRowsBefore(t, y, now);
  }

  // Native batches

  ghost predicate MayJoin(t: Table, id: Id, model: string, questionsHash: string, exclude: set<Id>, now: int) {
    && id in t.jobs && id !in exclude && MayClaim(t.jobs[id], t.batches, now)
    && t.jobs[id].resolvedModel == model && t.jobs[id].questionsHash == questionsHash
  }

  /** As many as the limit lets, the oldest first, and none passed over for a younger. */
  ghost predicate OldestJoin(t: Table, model: string, questionsHash: string, exclude: set<Id>, limit: int, now: int,
                             claimed: seq<Id>) {
    && |claimed| <= (if limit <= 0 then 0 else limit)
    && (forall i :: 0 <= i < |claimed| ==> MayJoin(t, claimed[i], model, questionsHash, exclude, now))
    && (forall i, j :: 0 <= i < j < |claimed| ==>
          claimed[i] != claimed[j] && t.jobs[claimed[i]].createdAt <= t.jobs[claimed[j]].createdAt)
    && (forall y :: MayJoin(t, y, model, questionsHash, exclude, now) && y !in claimed ==>
          |claimed| >= limit && forall i :: 0 <= i < |claimed| ==> t.jobs[claimed[i]].createdAt <= t.jobs[y].createdAt)
  }

  lemma CompanionsInFields(t: Table, model: string, questionsHash: string, exclude: set<Id>, limit: int, now: int,
                           claimed: seq<Id>)
    requires Companions(t, model, questionsHash, exclude, limit, now, claimed)
    ensures OldestJoin(t, model, questionsHash, exclude, limit, now, claimed)
  {
    var ids, n := Compatible(t, model, questionsHash, now) - exclude, if limit <= 0 then 0 else limit;
    hide MayJoin, Compatible, FirstOf;
    forall id ensures id in ids <==> MayJoin(t, id, model, questionsHash, exclude, now) {
      CompatibleInFields(t, model, questionsHash, now, id);
      ExcludedApart(t, id, model, questionsHash, exclude, now);
    }
    FirstAreOldest(t.jobs, ids, n, claimed);
  }

  lemma CompatibleInFields(t: Table, model: string, questionsHash: string, now: int, id: Id)
    ensures id in Compatible(t, model, questionsHash, now) <==> MayJoin(t, id, model, questionsHash, {}, now)
  {
    ClaimInFields(t, id, "", 0, now);
  }

  lemma ExcludedApart(t: Table, id: Id, model: string, questionsHash: string, exclude: set<Id>, now: int)
    ensures MayJoin(t, id, model, questionsHash, exclude, now)
      <==> MayJoin(t, id, model, questionsHash, {}, now) && id !in exclude
  {
  }

  lemma OrderIsByAge(jobs: map<Id, Job>)
    ensures forall a, b :: a in jobs && b in jobs && Earlier(jobs, false, a, b) ==>
      jobs[a].createdAt <= jobs[b].createdAt
  {
  }

  lemma FirstAreOldest(jobs: map<Id, Job>, ids: set<Id>, n: nat, chosen: seq<Id>)
    requires FirstOf(jobs, false, ids, n, chosen)
    ensures |chosen| <= n && ids <= jobs.Keys && forall i :: 0 <= i < |chosen| ==> chosen[i] in ids
    ensures forall i, j :: 0 <= i < j < |chosen| ==>
      chosen[i] != chosen[j] && jobs[chosen[i]].createdAt <= jobs[chosen[j]].createdAt
    ensures forall y :: y in ids && y !in chosen ==>
      |chosen| >= n && forall i :: 0 <= i < |chosen| ==> jobs[chosen[i]].createdAt <= jobs[y].createdAt
  {
    forall i | 0 <= i < |chosen| ensures chosen[i] in ids {
      assert chosen[i] in Members(chosen);
    }
    InOrderIsDistinct(jobs, false, chosen);
    if |ids| <= n {
      FirstOfAll(jobs, false, ids, n, chosen);
      assert forall y :: y in ids ==> y in Members(chosen);
    }
    hide Earlier;
    OrderIsByAge(jobs);
  }
}
