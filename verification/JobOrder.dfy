/** The orders in which rows are selected for a claim. */
module JobOrder {
  import opened Types
  import TieBreak

  /** Highest priority first, where priority counts; then creation time, then id. */
  predicate Earlier(jobs: map<Id, Job>, ranked: bool, a: Id, b: Id)
    requires a in jobs && b in jobs
  {
    if ranked && jobs[a].priority != jobs[b].priority then jobs[a].priority > jobs[b].priority
    else if jobs[a].createdAt != jobs[b].createdAt then jobs[a].createdAt < jobs[b].createdAt
    else TieBreak.LexLess(TieBreak.Codes(a), TieBreak.Codes(b))
  }

  ghost predicate InOrder(jobs: map<Id, Job>, ranked: bool, ids: seq<Id>) {
    && (forall i :: 0 <= i < |ids| ==> ids[i] in jobs)
    && forall i, j :: 0 <= i < j < |ids| ==> Earlier(jobs, ranked, ids[i], ids[j])
  }

  lemma EarlierTransitive(jobs: map<Id, Job>, ranked: bool, a: Id, b: Id, c: Id)
    requires a in jobs && b in jobs && c in jobs && Earlier(jobs, ranked, a, b) && Earlier(jobs, ranked, b, c)
    ensures Earlier(jobs, ranked, a, c)
  {
    if TieBreak.LexLess(TieBreak.Codes(a), TieBreak.Codes(b))
      && TieBreak.LexLess(TieBreak.Codes(b), TieBreak.Codes(c)) {
      TieBreak.LexTransitive(TieBreak.Codes(a), TieBreak.Codes(b), TieBreak.Codes(c));
    }
  }

  lemma EarlierTotal(jobs: map<Id, Job>, ranked: bool, a: Id, b: Id)
    requires a in jobs && b in jobs && a != b
    ensures Earlier(jobs, ranked, a, b) <==> !Earlier(jobs, ranked, b, a)
  {
    TieBreak.LexTotal(TieBreak.Codes(a), TieBreak.Codes(b));
    TieBreak.CodesInjective(a, b);
  }

  function Insert(jobs: map<Id, Job>, ranked: bool, ids: seq<Id>, id: Id): (r: seq<Id>)
    requires id in jobs && forall x :: x in ids ==> x in jobs
    ensures |r| == |ids| + 1 && forall x :: x in r <==> x in ids || x == id
  {
    if ids == [] || Earlier(jobs, ranked, id, ids[0]) then [id] + ids
    else
      assert ids == [ids[0]] + ids[1..];
      [ids[0]] + Insert(jobs, ranked, ids[1..], id)
  }

  lemma {:induction false} InsertInOrder(jobs: map<Id, Job>, ranked: bool, ids: seq<Id>, id: Id)
    requires InOrder(jobs, ranked, ids) && id in jobs && id !in ids
    ensures InOrder(jobs, ranked, Insert(jobs, ranked, ids, id))
  {
    if ids != [] {
      EarlierTotal(jobs, ranked, id, ids[0]);
      if Earlier(jobs, ranked, id, ids[0]) {
        forall k | 0 < k < |ids| ensures Earlier(jobs, ranked, id, ids[k]) {
          EarlierTransitive(jobs, ranked, id, ids[0], ids[k]);
        }
      } else {
        InsertInOrder(jobs, ranked, ids[1..], id);
        InsertAfterFirst(jobs, ranked, ids, id);
      }
    }
  }

  lemma InsertAfterFirst(jobs: map<Id, Job>, ranked: bool, ids: seq<Id>, id: Id)
    requires InOrder(jobs, ranked, ids) && ids != [] && id in jobs && Earlier(jobs, ranked, ids[0], id)
    requires InOrder(jobs, ranked, Insert(jobs, ranked, ids[1..], id))
    ensures InOrder(jobs, ranked, [ids[0]] + Insert(jobs, ranked, ids[1..], id))
  {
    var rest := Insert(jobs, ranked, ids[1..], id);
    forall k | 0 <= k < |rest| ensures Earlier(jobs, ranked, ids[0], rest[k]) {
      assert rest[k] in rest;
      if rest[k] != id {
        var i :| 0 <= i < |ids[1..]| && ids[1..][i] == rest[k];
        assert ids[i + 1] == rest[k];
      }
    }
  }

  method Sort(jobs: map<Id, Job>, ranked: bool, ids: set<Id>) returns (order: seq<Id>)
    requires ids <= jobs.Keys
    ensures InOrder(jobs, ranked, order) && |order| == |ids| && forall id :: id in order <==> id in ids
  {
    order := [];
    var todo := ids;
    while todo != {}
      invariant todo <= ids && InOrder(jobs, ranked, order) && |order| + |todo| == |ids|
      invariant forall id :: id in order <==> id in ids && id !in todo
      decreases |todo|
    {
      var id :| id in todo;
      InsertInOrder(jobs, ranked, order, id);
      order := Insert(jobs, ranked, order, id);
      todo := todo - {id};
    }
  }

  lemma MembersGrow(ids: seq<Id>, i: nat)
    requires i < |ids|
    ensures Members(ids[..i + 1]) == Members(ids[..i]) + {ids[i]} && Members(ids[..0]) == {}
  {
  }

  /** The first n of a list in order come before all the others. */
  lemma PrefixIsEarliest(jobs: map<Id, Job>, ranked: bool, order: seq<Id>, n: nat)
    requires InOrder(jobs, ranked, order) && n <= |order|
    ensures InOrder(jobs, ranked, order[..n]) && Members(order[..n]) <= Members(order)
    ensures forall id, c :: id in order && id !in order[..n] && c in order[..n] ==> Earlier(jobs, ranked, c, id)
  {
  }

  lemma NotYetTaken(jobs: map<Id, Job>, ranked: bool, ids: seq<Id>, i: nat)
    requires InOrder(jobs, ranked, ids) && i < |ids|
    ensures ids[i] !in Members(ids[..i])
  {
    TieBreak.LexTotal(TieBreak.Codes(ids[i]), TieBreak.Codes(ids[i]));
  }

  /** The first limit members of ids, in order. */
  ghost predicate FirstOf(jobs: map<Id, Job>, ranked: bool, ids: set<Id>, limit: nat, chosen: seq<Id>) {
    && ids <= jobs.Keys && InOrder(jobs, ranked, chosen) && Members(chosen) <= ids
    && |chosen| == (if limit <= |ids| then limit else |ids|)
    && forall id, c :: id in ids && id !in chosen && c in chosen ==> Earlier(jobs, ranked, c, id)
  }

  method TakeFirst(jobs: map<Id, Job>, ranked: bool, ids: set<Id>, limit: nat) returns (chosen: seq<Id>)
    requires ids <= jobs.Keys
    ensures FirstOf(jobs, ranked, ids, limit, chosen)
  {
    var order := Sort(jobs, ranked, ids);
    chosen := order[..if limit <= |order| then limit else |order|];
    PrefixIsEarliest(jobs, ranked, order, |chosen|);
  }

  /** The rows that come before this one. */
  ghost function RowsBefore(jobs: map<Id, Job>, ranked: bool, ids: set<Id>, id: Id): set<Id>
    requires ids <= jobs.Keys && id in jobs
  {
    set x | x in ids && Earlier(jobs, ranked, x, id)
  }

  /** A row is among the first limit if and only if fewer than limit come before it. */
  lemma AmongTheFirst(jobs: map<Id, Job>, ranked: bool, ids: set<Id>, limit: nat, chosen: seq<Id>, id: Id)
    requires FirstOf(jobs, ranked, ids, limit, chosen) && id in ids
    ensures id in chosen <==> |RowsBefore(jobs, ranked, ids, id)| < limit
  {
    hide Earlier;
    AllDistinct(jobs, ranked, chosen);
    if id in chosen {
      var i :| 0 <= i < |chosen| && chosen[i] == id;
      forall x | x in RowsBefore(jobs, ranked, ids, id) ensures x in Members(chosen[..i]) {
        BeforeIt(jobs, ranked, ids, limit, chosen, i, x);
      }
      Smaller(RowsBefore(jobs, ranked, ids, id), Members(chosen[..i]));
      AllDistinct(jobs, ranked, chosen[..i]);
    } else {
      assert Members(chosen) <= RowsBefore(jobs, ranked, ids, id);
      Smaller(Members(chosen), RowsBefore(jobs, ranked, ids, id));
      if |ids| < limit {
        SameSize(Members(chosen), ids);
      }
    }
  }

  lemma BeforeIt(jobs: map<Id, Job>, ranked: bool, ids: set<Id>, limit: nat, chosen: seq<Id>, i: nat, x: Id)
    requires FirstOf(jobs, ranked, ids, limit, chosen) && i < |chosen| && x in RowsBefore(jobs, ranked, ids, chosen[i])
    ensures x in chosen[..i]
  {
    hide Earlier;
    NeverBoth(jobs, ranked, x, chosen[i]);
    if x in chosen {
      var j :| 0 <= j < |chosen| && chosen[j] == x;
      assert j < i;
      assert chosen[..i][j] == x;
    }
  }

  lemma NeverBoth(jobs: map<Id, Job>, ranked: bool, a: Id, b: Id)
    requires a in jobs && b in jobs && Earlier(jobs, ranked, a, b)
    ensures !Earlier(jobs, ranked, b, a) && a != b
  {
    TieBreak.LexTotal(TieBreak.Codes(a), TieBreak.Codes(b));
  }

  /** All of them when they fit. */
  lemma {:induction false} FirstOfAll(jobs: map<Id, Job>, ranked: bool, ids: set<Id>, limit: nat, chosen: seq<Id>)
    requires FirstOf(jobs, ranked, ids, limit, chosen) && |ids| <= limit
    ensures Members(chosen) == ids
  {
    AllDistinct(jobs, ranked, chosen);
    SameSize(Members(chosen), ids);
  }

  lemma {:induction false} AllDistinct(jobs: map<Id, Job>, ranked: bool, ids: seq<Id>)
    requires InOrder(jobs, ranked, ids)
    ensures |Members(ids)| == |ids|
  {
    if ids != [] {
      var n := |ids| - 1;
      AllDistinct(jobs, ranked, ids[..n]);
      MembersGrow(ids, n);
      NotYetTaken(jobs, ranked, ids, n);
      assert ids[..n + 1] == ids;
    }
  }

  lemma SameSize(a: set<Id>, b: set<Id>)
    requires a <= b && |a| == |b|
    ensures a == b
  {
    if a != b {
      var x :| x in b && x !in a;
      Smaller(a, b - {x});
    }
  }

  lemma {:induction false} Smaller(a: set<Id>, b: set<Id>)
    requires a <= b
    ensures |a| <= |b|
  {
    if a != {} {
      var x :| x in a;
      Smaller(a - {x}, b - {x});
    }
  }

  /** Which of the rows are not excluded. */
  function Without(rows: seq<Id>, exclude: set<Id>): (r: seq<Id>)
    ensures forall id :: id in r <==> id in rows && id !in exclude
  {
    if rows == [] then []
    else
      var front := Without(rows[..|rows| - 1], exclude);
      var last := rows[|rows| - 1];
      assert rows == rows[..|rows| - 1] + [last];
      if last in exclude then front else front + [last]
  }

  lemma {:induction false} WithoutInOrder(jobs: map<Id, Job>, ranked: bool, rows: seq<Id>, exclude: set<Id>)
    requires InOrder(jobs, ranked, rows)
    ensures InOrder(jobs, ranked, Without(rows, exclude))
  {
    hide Earlier;
    if rows != [] {
      var n := |rows| - 1;
      WithoutInOrder(jobs, ranked, rows[..n], exclude);
      var front := Without(rows[..n], exclude);
      forall k | 0 <= k < |front| ensures Earlier(jobs, ranked, front[k], rows[n]) {
        assert front[k] in rows[..n];
        var i :| 0 <= i < n && rows[..n][i] == front[k];
      }
    }
  }

  lemma AtMostTheExcludedGo(jobs: map<Id, Job>, ranked: bool, rows: seq<Id>, exclude: set<Id>)
    requires InOrder(jobs, ranked, rows)
    ensures |Without(rows, exclude)| >= |rows| - |exclude|
  {
    var kept, gone := Without(rows, exclude), Members(rows) * exclude;
    hide Earlier, Without, InOrder;
    WithoutInOrder(jobs, ranked, rows, exclude);
    AllDistinct(jobs, ranked, rows);
    AllDistinct(jobs, ranked, kept);
    assert Members(rows) == Members(kept) + gone && Members(kept) !! gone;
    Smaller(gone, exclude);
  }

  lemma WithoutNothing(rows: seq<Id>, exclude: set<Id>)
    ensures Without(rows[..0], exclude) == [] && rows[..|rows|] == rows
  {
  }

  lemma WithoutStep(rows: seq<Id>, exclude: set<Id>, i: nat)
    requires i < |rows|
    ensures Without(rows[..i + 1], exclude)
      == if rows[i] in exclude then Without(rows[..i], exclude) else Without(rows[..i], exclude) + [rows[i]]
  {
    assert rows[..i + 1][..i] == rows[..i];
  }

  lemma {:induction false} WithoutGrows(rows: seq<Id>, exclude: set<Id>, i: nat)
    requires i <= |rows|
    ensures |Without(rows[..i], exclude)| <= |Without(rows, exclude)|
    ensures Without(rows, exclude)[..|Without(rows[..i], exclude)|] == Without(rows[..i], exclude)
  {
    hide Without;
    if i < |rows| {
      var n := |rows| - 1;
      WithoutGrows(rows[..n], exclude, i);
      assert rows[..n][..i] == rows[..i];
      assert rows[..n + 1] == rows;
      WithoutStep(rows, exclude, n);
    } else {
      assert rows[..i] == rows;
    }
  }

  /** A window wider by the number of excluded rows loses nothing. */
  lemma WideWindowSuffices(jobs: map<Id, Job>, ranked: bool, ids: set<Id>, exclude: set<Id>, limit: nat, rows: seq<Id>,
                           chosen: seq<Id>)
    requires FirstOf(jobs, ranked, ids, limit + |exclude|, rows)
    requires var kept := Without(rows, exclude); chosen == kept[..if limit <= |kept| then limit else |kept|]
    ensures FirstOf(jobs, ranked, ids - exclude, limit, chosen)
  {
    var kept := Without(rows, exclude);
    WithoutInOrder(jobs, ranked, rows, exclude);
    AtMostTheExcludedGo(jobs, ranked, rows, exclude);
    PrefixIsEarliest(jobs, ranked, kept, |chosen|);
    AllDistinct(jobs, ranked, kept);
    AllDistinct(jobs, ranked, chosen);
    Smaller(Members(kept), ids - exclude);
    Smaller(Members(chosen), ids - exclude);
    if |ids| <= limit + |exclude| {
      FirstOfAll(jobs, ranked, ids, limit + |exclude|, rows);
      assert Members(kept) == ids - exclude;
    }
    forall id, c | id in ids - exclude && id !in chosen && c in chosen ensures Earlier(jobs, ranked, c, id) {
      assert c in Members(chosen) && c in kept && c in rows;
      if id in rows {
        assert id in kept;
      }
    }
  }

  ghost predicate Distinct(ids: seq<Id>) {
    forall i, j :: 0 <= i < j < |ids| ==> ids[i] != ids[j]
  }

  lemma InOrderIsDistinct(jobs: map<Id, Job>, ranked: bool, ids: seq<Id>)
    requires InOrder(jobs, ranked, ids)
    ensures Distinct(ids)
  {
    forall i, j | 0 <= i < j < |ids| ensures ids[i] != ids[j] {
      NotYetTaken(jobs, ranked, ids, j);
      assert ids[..j][i] == ids[i];
    }
  }
}
