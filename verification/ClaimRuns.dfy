/** The claim loop shared by the memory and hybrid backends: propose from the
    heads of the index, drop a proposal that cannot be claimed, try again. */
module ClaimRuns {
  import opened Types
  import opened Picker
  import opened PickerOrder
  import opened ReadyIndexes

  const TRIES: nat := 64

  /** One pick over some list of heads of the index. */
  ghost predicate Proposes(view: View, model: string, picker: PickerState, now: real, settings: SchedulerSettings,
                           choice: Option<Candidate>, next: PickerState) {
    exists hs :: IsHeads(hs, view, model) && Chosen(picker, model, hs, now, settings) == (choice, next)
  }

  ghost predicate Rejects(view: View, ok: set<Id>, model: string, picker: PickerState, now: real,
                          settings: SchedulerSettings, id: Id) {
    id !in ok && exists c, next :: Proposes(view, model, picker, now, settings, Some(c), next) && c.jobId == id
  }

  /** Rejected proposals, in order, and how the loop ended. The picker state moves
      only with a claim; every try starts from the caller's state. */
  ghost predicate ClaimRun(view: View, ok: set<Id>, model: string, picker: PickerState, now: real,
                           settings: SchedulerSettings, rejects: seq<Id>, claimed: Option<Id>, next: PickerState) {
    && |rejects| <= TRIES
    && (forall i :: 0 <= i < |rejects| ==>
        Rejects(view - Members(rejects[..i]), ok, model, picker, now, settings, rejects[i]))
    && match claimed
       case Some(id) =>
         |rejects| < TRIES && id in ok
         && exists c :: Proposes(view - Members(rejects), model, picker, now, settings, Some(c), next) && c.jobId == id
       case None =>
         next == picker
         && (|rejects| == TRIES || Proposes(view - Members(rejects), model, picker, now, settings, None, picker))
  }

  function IdOf(claimed: Option<Job>): Option<Id> {
    if claimed.Some? then Some(claimed.value.jobId) else None
  }

  ghost predicate RejectsSoFar(view: View, ok: set<Id>, model: string, picker: PickerState, now: real,
                               settings: SchedulerSettings, rejects: seq<Id>) {
    forall i :: 0 <= i < |rejects|
      ==> Rejects(view - Members(rejects[..i]), ok, model, picker, now, settings, rejects[i])
  }

  lemma RejectOneMore(view: View, ok: set<Id>, model: string, picker: PickerState, now: real,
                      settings: SchedulerSettings, rejects: seq<Id>, c: Candidate, proposed: PickerState)
    requires RejectsSoFar(view, ok, model, picker, now, settings, rejects)
    requires Proposes(view - Members(rejects), model, picker, now, settings, Some(c), proposed) && c.jobId !in ok
    ensures RejectsSoFar(view, ok, model, picker, now, settings, rejects + [c.jobId])
    ensures view - Members(rejects) - {c.jobId} == view - Members(rejects + [c.jobId])
  {
    hide Proposes;
    var more := rejects + [c.jobId];
    assert Members(more) == Members(rejects) + {c.jobId};
    forall i | 0 <= i < |more| ensures Rejects(view - Members(more[..i]), ok, model, picker, now, settings, more[i]) {
      assert more[..i] == rejects[..i];
      if i == |rejects| {
        assert rejects[..i] == rejects;
      }
    }
  }

  lemma RunEndsEmpty(view: View, ok: set<Id>, model: string, picker: PickerState, now: real,
                     settings: SchedulerSettings, rejects: seq<Id>)
    requires RejectsSoFar(view, ok, model, picker, now, settings, rejects) && |rejects| <= TRIES
    requires Proposes(view - Members(rejects), model, picker, now, settings, None, picker)
    ensures ClaimRun(view, ok, model, picker, now, settings, rejects, None, picker)
  {
  }

  lemma RunGivesUp(view: View, ok: set<Id>, model: string, picker: PickerState, now: real, settings: SchedulerSettings,
                   rejects: seq<Id>)
    requires RejectsSoFar(view, ok, model, picker, now, settings, rejects) && |rejects| == TRIES
    ensures ClaimRun(view, ok, model, picker, now, settings, rejects, None, picker)
  {
  }

  lemma NoChoiceNoChange(picker: PickerState, model: string, hs: seq<Candidate>, now: real, settings: SchedulerSettings)
    ensures Chosen(picker, model, hs, now, settings).0.None? ==> Chosen(picker, model, hs, now, settings).1 == picker
  {
  }

  lemma RunEndsClaimed(view: View, ok: set<Id>, model: string, picker: PickerState, now: real,
                       settings: SchedulerSettings, rejects: seq<Id>, c: Candidate, proposed: PickerState)
    requires RejectsSoFar(view, ok, model, picker, now, settings, rejects) && |rejects| < TRIES
    requires Proposes(view - Members(rejects), model, picker, now, settings, Some(c), proposed) && c.jobId in ok
    ensures ClaimRun(view, ok, model, picker, now, settings, rejects, Some(c.jobId), proposed)
  {
    hide Proposes;
  }

  lemma ProposalIsListed(view: View, model: string, picker: PickerState, now: real, settings: SchedulerSettings,
                         c: Candidate, next: PickerState)
    requires Proposes(view, model, picker, now, settings, Some(c), next)
    ensures c.jobId in view && view[c.jobId] == c && c.model == model
  {
    hide Contributions, Charge;
    var hs :| IsHeads(hs, view, model) && Chosen(picker, model, hs, now, settings) == (Some(c), next);
    ChosenIsMember(picker, model, hs, now, settings);
  }

  lemma NoProposalNoWork(view: View, model: string, picker: PickerState, now: real, settings: SchedulerSettings, id: Id)
    requires Proposes(view, model, picker, now, settings, None, picker) && id in view
    ensures view[id].model != model
  {
  }

  /** The loop claims only what can be claimed, from the lanes of its model. */
  lemma ClaimIsSafe(view: View, ok: set<Id>, model: string, picker: PickerState, now: real, settings: SchedulerSettings,
                    rejects: seq<Id>, claimed: Option<Id>, next: PickerState)
    requires ClaimRun(view, ok, model, picker, now, settings, rejects, claimed, next)
    ensures claimed.Some? ==> claimed.value in ok && claimed.value in view && view[claimed.value].model == model
    ensures claimed.Some? ==> claimed.value !in rejects
    ensures claimed.None? ==> next == picker
    ensures forall id :: id in rejects ==> id !in ok && id in view
    ensures |Members(rejects)| == |rejects|
  {
    if claimed.Some? {
      var c :| Proposes(view - Members(rejects), model, picker, now, settings, Some(c), next)
        && c.jobId == claimed.value;
      ProposalIsListed(view - Members(rejects), model, picker, now, settings, c, next);
    }
    forall i | 0 <= i < |rejects|
      ensures rejects[i] !in ok && rejects[i] in view && rejects[i] !in Members(rejects[..i])
    {
      RejectIsListed(view - Members(rejects[..i]), ok, model, picker, now, settings, rejects[i]);
    }
    DistinctCount(rejects);
  }

  lemma RejectIsListed(view: View, ok: set<Id>, model: string, picker: PickerState, now: real,
                       settings: SchedulerSettings, id: Id)
    requires Rejects(view, ok, model, picker, now, settings, id)
    ensures id in view && id !in ok
  {
    var c, next :| Proposes(view, model, picker, now, settings, Some(c), next) && c.jobId == id;
    ProposalIsListed(view, model, picker, now, settings, c, next);
  }

  lemma {:induction false} DistinctCount(s: seq<Id>)
    requires forall i :: 0 <= i < |s| ==> s[i] !in Members(s[..i])
    ensures |Members(s)| == |s|
  {
    if s != [] {
      var front, last := s[..|s| - 1], s[|s| - 1];
      forall i | 0 <= i < |front| ensures front[i] !in Members(front[..i]) {
        assert front[..i] == s[..i];
      }
      DistinctCount(front);
      assert Members(s) == Members(front) + {last};
    }
  }

  /** When the index lists every job that can be claimed, a run that gives up
      early proves there is none for its model. */
  lemma EmptyHandedMeansNoWork(view: View, ok: set<Id>, model: string, picker: PickerState, now: real,
                               settings: SchedulerSettings, rejects: seq<Id>, next: PickerState, id: Id)
    requires ClaimRun(view, ok, model, picker, now, settings, rejects, None, next) && |rejects| < TRIES
    requires id in ok && id in view
    ensures view[id].model != model
  {
    ClaimIsSafe(view, ok, model, picker, now, settings, rejects, None, next);
    assert id in view - Members(rejects);
    NoProposalNoWork(view - Members(rejects), model, picker, now, settings, id);
  }

  // Determinism

  /** No two jobs of a lane share priority and creation time. */
  ghost predicate TieFree(view: View) {
    forall a, b :: a in view && b in view && a != b && LaneOf(view[a]) == LaneOf(view[b])
      ==> BirthOf(view[a]) != BirthOf(view[b])
  }

  ghost predicate Keyed(view: View) {
    forall id :: id in view ==> view[id].jobId == id
  }

  lemma HeadsAreUnique(a: seq<Candidate>, b: seq<Candidate>, view: View, model: string, x: Candidate)
    requires TieFree(view) && Keyed(view)
    requires IsHeads(a, view, model) && IsHeads(b, view, model) && x in a
    ensures x in b
  {
    assert Headed(b, view[x.jobId]);
    var h :| h in b && LaneOf(h) == LaneOf(x) && NoLaterThan(h, x);
    assert Headed(a, view[h.jobId]);
    var g :| g in a && LaneOf(g) == LaneOf(h) && NoLaterThan(g, h);
    assert g == x;
  }

  /** Without ties a proposal is a function of the index contents: the order in
      which lanes are visited and heaps were filled does not matter. */
  lemma ProposalIsUnique(view: View, model: string, picker: PickerState, now: real, settings: SchedulerSettings,
                         c1: Option<Candidate>, n1: PickerState, c2: Option<Candidate>, n2: PickerState)
    requires TieFree(view) && Keyed(view)
    requires Proposes(view, model, picker, now, settings, c1, n1)
      && Proposes(view, model, picker, now, settings, c2, n2)
    ensures c1 == c2 && n1 == n2
  {
    hide Chosen;
    var a :| IsHeads(a, view, model) && Chosen(picker, model, a, now, settings) == (c1, n1);
    var b :| IsHeads(b, view, model) && Chosen(picker, model, b, now, settings) == (c2, n2);
    forall x ensures x in a <==> x in b {
      if x in a { HeadsAreUnique(a, b, view, model, x); }
      if x in b { HeadsAreUnique(b, a, view, model, x); }
    }
    ChoiceIgnoresOrder(picker, model, a, b, now, settings);
  }

  lemma SubviewStaysClean(view: View, ids: set<Id>)
    requires TieFree(view) && Keyed(view)
    ensures TieFree(view - ids) && Keyed(view - ids)
  {
  }

  lemma {:induction false} RejectsAgree(view: View, ok: set<Id>, model: string, picker: PickerState, now: real,
                                        settings: SchedulerSettings, r1: seq<Id>, c1: Option<Id>, n1: PickerState,
                                        r2: seq<Id>, c2: Option<Id>, n2: PickerState, i: nat)
    requires TieFree(view) && Keyed(view)
    requires ClaimRun(view, ok, model, picker, now, settings, r1, c1, n1)
    requires ClaimRun(view, ok, model, picker, now, settings, r2, c2, n2)
    requires i <= |r1| && i <= |r2|
    ensures r1[..i] == r2[..i]
  {
    hide Proposes;
    if i > 0 {
      RejectsAgree(view, ok, model, picker, now, settings, r1, c1, n1, r2, c2, n2, i - 1);
      var rest := view - Members(r1[..i - 1]);
      assert Rejects(rest, ok, model, picker, now, settings, r1[i - 1]);
      assert Rejects(rest, ok, model, picker, now, settings, r2[i - 1]);
      SubviewStaysClean(view, Members(r1[..i - 1]));
      var a, m :| Proposes(rest, model, picker, now, settings, Some(a), m) && a.jobId == r1[i - 1];
      var b, n :| Proposes(rest, model, picker, now, settings, Some(b), n) && b.jobId == r2[i - 1];
      ProposalIsUnique(rest, model, picker, now, settings, Some(a), m, Some(b), n);
      assert r1[..i] == r1[..i - 1] + [r1[i - 1]];
      assert r2[..i] == r2[..i - 1] + [r2[i - 1]];
    }
  }

  lemma NoShorterRun(view: View, ok: set<Id>, model: string, picker: PickerState, now: real,
                     settings: SchedulerSettings, r1: seq<Id>, c1: Option<Id>, n1: PickerState, r2: seq<Id>,
                     c2: Option<Id>, n2: PickerState)
    requires TieFree(view) && Keyed(view)
    requires ClaimRun(view, ok, model, picker, now, settings, r1, c1, n1)
    requires ClaimRun(view, ok, model, picker, now, settings, r2, c2, n2)
    ensures |r1| >= |r2|
  {
    hide Proposes;
    if |r1| < |r2| {
      RejectsAgree(view, ok, model, picker, now, settings, r1, c1, n1, r2, c2, n2, |r1|);
      assert r1[..|r1|] == r1;
      var rest := view - Members(r1);
      SubviewStaysClean(view, Members(r1));
      assert Rejects(rest, ok, model, picker, now, settings, r2[|r1|]);
      var b, n :| Proposes(rest, model, picker, now, settings, Some(b), n) && b.jobId == r2[|r1|];
      if c1.Some? {
        var a :| Proposes(rest, model, picker, now, settings, Some(a), n1) && a.jobId == c1.value;
        ProposalIsUnique(rest, model, picker, now, settings, Some(a), n1, Some(b), n);
      } else {
        ProposalIsUnique(rest, model, picker, now, settings, None, picker, Some(b), n);
      }
    }
  }

  /** Two claim loops over the same index contents and the same claimable jobs
      claim the same job and commit the same picker state. */
  lemma ClaimRunsAgree(view: View, ok: set<Id>, model: string, picker: PickerState, now: real,
                       settings: SchedulerSettings, r1: seq<Id>, c1: Option<Id>, n1: PickerState, r2: seq<Id>,
                       c2: Option<Id>, n2: PickerState)
    requires TieFree(view) && Keyed(view)
    requires ClaimRun(view, ok, model, picker, now, settings, r1, c1, n1)
    requires ClaimRun(view, ok, model, picker, now, settings, r2, c2, n2)
    ensures c1 == c2 && n1 == n2 && r1 == r2
  {
    hide Proposes;
    NoShorterRun(view, ok, model, picker, now, settings, r1, c1, n1, r2, c2, n2);
    NoShorterRun(view, ok, model, picker, now, settings, r2, c2, n2, r1, c1, n1);
    RejectsAgree(view, ok, model, picker, now, settings, r1, c1, n1, r2, c2, n2, |r1|);
    assert r1[..|r1|] == r1 && r2[..|r2|] == r2;
    var rest := view - Members(r1);
    SubviewStaysClean(view, Members(r1));
    if |r1| < TRIES {
      var a, m := EndOf(view, ok, model, picker, now, settings, r1, c1, n1);
      var b, n := EndOf(view, ok, model, picker, now, settings, r2, c2, n2);
      ProposalIsUnique(rest, model, picker, now, settings, a, m, b, n);
    }
  }

  lemma EndOf(view: View, ok: set<Id>, model: string, picker: PickerState, now: real, settings: SchedulerSettings,
              rejects: seq<Id>, claimed: Option<Id>, next: PickerState)
    returns (last: Option<Candidate>, proposed: PickerState)
    requires ClaimRun(view, ok, model, picker, now, settings, rejects, claimed, next) && |rejects| < TRIES
    ensures Proposes(view - Members(rejects), model, picker, now, settings, last, proposed)
    ensures proposed == next
    ensures last.None? <==> claimed.None?
    ensures last.Some? && claimed.Some? ==> last.value.jobId == claimed.value
  {
    hide Proposes;
    if claimed.Some? {
      var c :| Proposes(view - Members(rejects), model, picker, now, settings, Some(c), next)
        && c.jobId == claimed.value;
      last, proposed := Some(c), next;
    } else {
      last, proposed := None, picker;
    }
  }
}
