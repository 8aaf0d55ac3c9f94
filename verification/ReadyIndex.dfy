/** In-memory ready index: one heap per lane with lazy deletion, refining a plain
    map from job id to candidate. A heap is kept as the sorted sequence of its
    entries; its first element is the heap's minimum and popping removes it. */
module ReadyIndexes {
  import opened Types
  import opened Picker
  import opened PickerOrder

  datatype Lane = Lane(model: string, schedulingClass: SchedulingClass, clientId: string)

  datatype Entry = Entry(negPriority: int, createdAt: real, seqNo: nat, jobId: Id)

  /** What never changes about a job once it has been indexed. */
  datatype Birth = Birth(priority: int, createdAt: real)

  function LaneOf(c: Candidate): Lane {
    Lane(c.model, c.schedulingClass, c.clientId)
  }

  function BirthOf(c: Candidate): Birth {
    Birth(c.priority, c.createdAt)
  }

  predicate Before(a: Entry, b: Entry) {
    a.negPriority < b.negPriority
    || (a.negPriority == b.negPriority
        && (a.createdAt < b.createdAt || (a.createdAt == b.createdAt && a.seqNo < b.seqNo)))
  }

  ghost predicate Sorted(heap: seq<Entry>) {
    forall i, j :: 0 <= i < j < |heap| ==> Before(heap[i], heap[j])
  }

  function Push(heap: seq<Entry>, e: Entry): (r: seq<Entry>)
    ensures |r| == |heap| + 1
    ensures forall x :: x in r <==> x in heap || x == e
  {
    if heap == [] || Before(e, heap[0]) then [e] + heap
    else
      assert heap == [heap[0]] + heap[1..];
      [heap[0]] + Push(heap[1..], e)
  }

  lemma {:induction false} PushSorted(heap: seq<Entry>, e: Entry)
    requires Sorted(heap) && forall x :: x in heap ==> x.seqNo != e.seqNo
    ensures Sorted(Push(heap, e))
  {
    if heap != [] && !Before(e, heap[0]) {
      PushSorted(heap[1..], e);
      var rest := Push(heap[1..], e);
      forall k | 0 <= k < |rest| ensures Before(heap[0], rest[k]) {
        assert rest[k] in rest;
        if rest[k] != e {
          var i :| 0 <= i < |heap[1..]| && heap[1..][i] == rest[k];
        }
      }
    }
  }

  // The abstract index

  type View = map<Id, Candidate>

  /** Exactly one candidate per lane with work: its highest priority, then oldest. */
  ghost predicate IsHeads(hs: seq<Candidate>, view: View, model: string) {
    && (forall h :: h in hs ==> h.jobId in view && view[h.jobId] == h && h.model == model)
    && (forall i, j :: 0 <= i < j < |hs| ==> LaneOf(hs[i]) != LaneOf(hs[j]))
    && (forall id :: id in view && view[id].model == model ==> Headed(hs, view[id]))
  }

  ghost predicate Headed(hs: seq<Candidate>, c: Candidate) {
    exists h :: h in hs && LaneOf(h) == LaneOf(c) && NoLaterThan(h, c)
  }

  /** Every candidate the index holds for a model, once. */
  ghost predicate Lists(all: seq<Candidate>, view: View, model: string) {
    forall c :: c in all <==> c.jobId in view && view[c.jobId] == c && c.model == model
  }

  lemma HeadsAreAreHeads(hs: seq<Candidate>, all: seq<Candidate>, view: View, model: string)
    requires IsHeads(hs, view, model) && Lists(all, view, model)
    ensures AreHeads(hs, all)
  {
  }

  /** The listings without those of ids. */
  function Unlisted(view: View, ids: set<Id>): View {
    view - ids
  }

  lemma UnlistMore(view: View, ids: set<Id>, id: Id)
    ensures Unlisted(view, ids) - {id} == Unlisted(view, ids + {id})
  {
  }

  lemma UnlistNone(view: View)
    ensures Unlisted(view, {}) == view
  {
  }

  function ViewOf(candidates: seq<Candidate>): View {
    if candidates == [] then map[]
    else
      var last := candidates[|candidates| - 1];
      ViewOf(candidates[..|candidates| - 1])[last.jobId := last]
  }

  ghost predicate OneEntryEach(candidates: seq<Candidate>) {
    forall i, j :: 0 <= i < j < |candidates| ==> candidates[i].jobId != candidates[j].jobId
  }

  /** A rebuilt index holds exactly the candidates it was given. */
  lemma ViewOfMembers(candidates: seq<Candidate>, c: Candidate)
    requires OneEntryEach(candidates)
    ensures c in candidates <==> c.jobId in ViewOf(candidates) && ViewOf(candidates)[c.jobId] == c
  {
  }

  lemma {:induction false} ViewOfHas(candidates: seq<Candidate>, i: nat)
    requires OneEntryEach(candidates) && i < |candidates|
    ensures candidates[i].jobId in ViewOf(candidates) && ViewOf(candidates)[candidates[i].jobId] == candidates[i]
  {
    if i < |candidates| - 1 {
      ViewOfHas(candidates[..|candidates| - 1], i);
    }
  }

  lemma {:induction false} ViewOfIds(candidates: seq<Candidate>, id: Id)
    requires id in ViewOf(candidates)
    ensures ViewOf(candidates)[id].jobId == id && ViewOf(candidates)[id] in candidates
  {
    var front, last := candidates[..|candidates| - 1], candidates[|candidates| - 1];
    if id != last.jobId {
      ViewOfIds(front, id);
    }
  }

  lemma {:induction false} ViewOfLacks(candidates: seq<Candidate>, id: Id)
    requires forall i :: 0 <= i < |candidates| ==> candidates[i].jobId != id
    ensures id !in ViewOf(candidates)
  {
    if candidates != [] {
      ViewOfLacks(candidates[..|candidates| - 1], id);
    }
  }

  lemma NextIsNew(candidates: seq<Candidate>, i: nat)
    requires OneEntryEach(candidates) && i < |candidates|
    ensures candidates[i].jobId !in ViewOf(candidates[..i])
  {
    ViewOfLacks(candidates[..i], candidates[i].jobId);
  }

  // The representation

  type Heaps = map<Lane, seq<Entry>>

  ghost predicate Listed(heaps: Heaps, id: Id, lane: Lane) {
    lane in heaps && exists e :: e in heaps[lane] && e.jobId == id
  }

  /** Every entry carries the birth of its id, so a stale entry of an id that was
      added again, and so counts as live, is as good as the new one. */
  ghost predicate GoodHeaps(heaps: Heaps, births: map<Id, Birth>, seqNo: nat) {
    forall lane :: lane in heaps ==> GoodHeap(heaps[lane], births, seqNo)
  }

  ghost predicate GoodHeap(heap: seq<Entry>, births: map<Id, Birth>, seqNo: nat) {
    && Sorted(heap)
    && forall e :: e in heap ==>
      e.seqNo < seqNo && e.jobId in births && births[e.jobId] == Birth(-e.negPriority, e.createdAt)
  }

  ghost predicate GoodLive(heaps: Heaps, live: map<Id, Lane>, meta: View, births: map<Id, Birth>) {
    && live.Keys == meta.Keys
    && forall id :: id in live ==>
         && meta[id].jobId == id && live[id] == LaneOf(meta[id])
         && id in births && births[id] == BirthOf(meta[id])
         && Listed(heaps, id, live[id])
  }

  lemma PushKeepsHeap(heap: seq<Entry>, births: map<Id, Birth>, seqNo: nat, c: Candidate)
    requires GoodHeap(heap, births, seqNo)
    requires c.jobId in births ==> births[c.jobId] == BirthOf(c)
    ensures GoodHeap(Push(heap, Entry(-c.priority, c.createdAt, seqNo, c.jobId)), births[c.jobId := BirthOf(c)],
                     seqNo + 1)
  {
    PushSorted(heap, Entry(-c.priority, c.createdAt, seqNo, c.jobId));
  }

  lemma AddKeepsLive(heaps: Heaps, live: map<Id, Lane>, meta: View, births: map<Id, Birth>, seqNo: nat, c: Candidate)
    requires GoodLive(heaps, live, meta, births) && c.jobId !in live
    ensures var lane := LaneOf(c);
      var heap := if lane in heaps then heaps[lane] else [];
      var pushed := heaps[lane := Push(heap, Entry(-c.priority, c.createdAt, seqNo, c.jobId))];
      GoodLive(pushed, live[c.jobId := lane], meta[c.jobId := c], births[c.jobId := BirthOf(c)])
  {
  }

  lemma AddKeepsHeaps(heaps: Heaps, births: map<Id, Birth>, seqNo: nat, c: Candidate)
    requires GoodHeaps(heaps, births, seqNo)
    requires c.jobId in births ==> births[c.jobId] == BirthOf(c)
    ensures var lane := LaneOf(c);
      var heap := if lane in heaps then heaps[lane] else [];
      GoodHeaps(heaps[lane := Push(heap, Entry(-c.priority, c.createdAt, seqNo, c.jobId))],
                births[c.jobId := BirthOf(c)], seqNo + 1)
  {
    var lane := LaneOf(c);
    var heap := if lane in heaps then heaps[lane] else [];
    PushKeepsHeap(heap, births, seqNo, c);
    forall other | other in heaps && other != lane
      ensures GoodHeap(heaps[other], births[c.jobId := BirthOf(c)], seqNo + 1) {
      assert GoodHeap(heaps[other], births, seqNo);
    }
  }

  lemma PopKeepsLive(heaps: Heaps, live: map<Id, Lane>, meta: View, births: map<Id, Birth>, lane: Lane)
    requires GoodLive(heaps, live, meta, births)
    requires lane in heaps && heaps[lane] != []
    requires var id := heaps[lane][0].jobId; !(id in live && live[id] == lane)
    ensures GoodLive(heaps[lane := heaps[lane][1..]], live, meta, births)
  {
  }

  lemma DropEmptyLane(heaps: Heaps, live: map<Id, Lane>, meta: View, births: map<Id, Birth>, lane: Lane)
    requires GoodLive(heaps, live, meta, births)
    requires lane in heaps && heaps[lane] == []
    ensures forall id :: id in live ==> live[id] != lane
    ensures GoodLive(heaps - {lane}, live, meta, births)
    ensures forall seqNo :: GoodHeaps(heaps, births, seqNo) ==> GoodHeaps(heaps - {lane}, births, seqNo)
  {
  }

  lemma PopKeepsHeaps(heaps: Heaps, births: map<Id, Birth>, seqNo: nat, lane: Lane)
    requires GoodHeaps(heaps, births, seqNo) && lane in heaps && heaps[lane] != []
    ensures GoodHeaps(heaps[lane := heaps[lane][1..]], births, seqNo)
  {
  }

  lemma HeadIsFirst(heaps: Heaps, live: map<Id, Lane>, meta: View, births: map<Id, Birth>, seqNo: nat, lane: Lane)
    requires GoodHeaps(heaps, births, seqNo) && GoodLive(heaps, live, meta, births)
    requires lane in heaps && heaps[lane] != [] && heaps[lane][0].jobId in live && live[heaps[lane][0].jobId] == lane
    ensures live.Keys == meta.Keys
    ensures forall id :: id in live && live[id] == lane ==> NoLaterThan(meta[heaps[lane][0].jobId], meta[id])
  {
  }

  /** The heads found once the lanes in todo are all that is left to visit. */
  ghost predicate HeadsSoFar(found: seq<Candidate>, heaps: Heaps, live: map<Id, Lane>, meta: View, model: string,
                             todo: set<Lane>) {
    && (forall h :: h in found ==> h.jobId in meta && meta[h.jobId] == h && h.model == model && LaneOf(h) !in todo)
    && (forall i, j :: 0 <= i < j < |found| ==> LaneOf(found[i]) != LaneOf(found[j]))
    && (forall id :: id in live && id in meta && live[id].model == model ==>
        live[id] in todo || Headed(found, meta[id]))
  }

  lemma FindLaneHead(found: seq<Candidate>, heaps: Heaps, live: map<Id, Lane>, meta: View, model: string,
                     todo: set<Lane>, lane: Lane, head: Option<Id>)
    requires HeadsSoFar(found, heaps, live, meta, model, todo) && lane in todo && lane.model == model
    requires live.Keys == meta.Keys && forall id :: id in live ==> live[id] == LaneOf(meta[id]) && meta[id].jobId == id
    requires head.Some? ==> (head.value in live && live[head.value] == lane)
    requires head.Some? ==> forall id :: id in live && live[id] == lane ==> NoLaterThan(meta[head.value], meta[id])
    requires head.None? ==> forall id :: id in live ==> live[id] != lane
    ensures var more := if head.Some? then found + [meta[head.value]] else found;
      HeadsSoFar(more, heaps, live, meta, model, todo - {lane})
  {
  }

  lemma EveryLaneListed(heaps: Heaps, live: map<Id, Lane>, meta: View, births: map<Id, Birth>)
    requires GoodLive(heaps, live, meta, births)
    ensures forall id :: id in live ==> live[id] in heaps
  {
  }

  class ReadyIndex {
    var seqNo: nat
    var heaps: Heaps
    var live: map<Id, Lane>
    var meta: View
    ghost var births: map<Id, Birth>

    ghost predicate Valid()
      reads this
    {
      GoodHeaps(heaps, births, seqNo) && GoodLive(heaps, live, meta, births)
    }

    constructor ()
      ensures Valid() && meta == map[] && births == map[]
    {
      seqNo, heaps, live, meta, births := 0, map[], map[], map[], map[];
    }

    method Remove(jobId: Id)
      requires Valid()
      modifies this
      ensures Valid() && meta == old(meta) - {jobId} && births == old(births) && jobId !in live
    {
      live := live - {jobId};
      meta := meta - {jobId};
    }

    method Add(c: Candidate)
      requires Valid()
      requires c.jobId in births ==> births[c.jobId] == BirthOf(c)
      modifies this
      ensures Valid() && meta == old(meta)[c.jobId := c]
      ensures births == old(births)[c.jobId := BirthOf(c)]
    {
      hide GoodHeaps, GoodLive, Push;
      Remove(c.jobId);
      AddKeepsHeaps(heaps, births, seqNo, c);
      AddKeepsLive(heaps, live, meta, births, seqNo, c);
      assert (old(meta) - {c.jobId})[c.jobId := c] == old(meta)[c.jobId := c];
      var lane := LaneOf(c);
      var heap := if lane in heaps then heaps[lane] else [];
      heaps := heaps[lane := Push(heap, Entry(-c.priority, c.createdAt, seqNo, c.jobId))];
      seqNo := seqNo + 1;
      live := live[c.jobId := lane];
      meta := meta[c.jobId := c];
      births := births[c.jobId := BirthOf(c)];
    }

    /** Drops dead entries until the lane's head is a live job. */
    method PopDead(lane: Lane) returns (head: Option<Id>)
      requires Valid() && lane in heaps
      modifies this
      ensures Valid() && meta == old(meta) && live == old(live) && births == old(births)
      ensures heaps.Keys - {lane} == old(heaps.Keys) - {lane}
      ensures head.Some? ==> (head.value in live && live[head.value] == lane)
      ensures head.Some? ==> forall id :: id in live && live[id] == lane ==> NoLaterThan(meta[head.value], meta[id])
      ensures head.None? ==> forall id :: id in live ==> live[id] != lane
    {
      hide GoodHeaps, GoodLive;
      while heaps[lane] != []
        invariant lane in heaps && heaps.Keys == old(heaps.Keys)
        invariant Valid() && meta == old(meta) && live == old(live) && births == old(births)
        decreases |heaps[lane]|
      {
        var jobId := heaps[lane][0].jobId;
        if jobId in live && live[jobId] == lane {
          HeadIsFirst(heaps, live, meta, births, seqNo, lane);
          return Some(jobId);
        }
        PopKeepsLive(heaps, live, meta, births, lane);
        PopKeepsHeaps(heaps, births, seqNo, lane);
        heaps := heaps[lane := heaps[lane][1..]];
      }
      DropEmptyLane(heaps, live, meta, births, lane);
      heaps := heaps - {lane};
      return None;
    }

    method Heads(model: string) returns (found: seq<Candidate>)
      requires Valid()
      modifies this
      ensures Valid() && meta == old(meta) && births == old(births)
      ensures IsHeads(found, meta, model)
    {
      found := [];
      var todo := heaps.Keys;
      EveryLaneListed(heaps, live, meta, births);
      while todo != {}
        invariant Valid() && meta == old(meta) && live == old(live) && births == old(births)
        invariant todo <= heaps.Keys
        invariant HeadsSoFar(found, heaps, live, meta, model, todo)
        decreases |todo|
      {
        var lane :| lane in todo;
        if lane.model == model {
          ghost var lanes := heaps.Keys;
          var head := PopDead(lane);
          assert todo - {lane} <= lanes - {lane};
          FindLaneHead(found, heaps, live, meta, model, todo, lane, head);
          if head.Some? {
            found := found + [meta[head.value]];
          }
        }
        todo := todo - {lane};
      }
    }

    method Propose(model: string, state: PickerState, now: real, settings: SchedulerSettings)
      returns (choice: Option<Candidate>, next: PickerState, ghost hs: seq<Candidate>)
      requires Valid()
      modifies this
      ensures Valid() && meta == old(meta) && births == old(births)
      ensures IsHeads(hs, meta, model) && (choice, next) == Chosen(state, model, hs, now, settings)
    {
      var found := Heads(model);
      hs := found;
      choice, next := Select(state, model, found, now, settings);
    }

    method Rebuild(candidates: seq<Candidate>)
      requires OneEntryEach(candidates)
      modifies this
      ensures Valid() && births.Keys == meta.Keys && meta == ViewOf(candidates)
    {
      heaps, live, meta, births := map[], map[], map[], map[];
      for i := 0 to |candidates|
        invariant Valid() && births.Keys == meta.Keys && meta == ViewOf(candidates[..i])
      {
        assert candidates[..i + 1][..i] == candidates[..i];
        NextIsNew(candidates, i);
        Add(candidates[i]);
      }
      assert candidates[..|candidates|] == candidates;
    }
  }
}
