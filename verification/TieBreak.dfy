/** The id tie-break of the picker: strings are compared by code point, and
    Invert maps a string to the sequence that makes the smaller id win a max. */
module TieBreak {
  const TOP_CODE_POINT: int := 0x10FFFF

  predicate LexLess(a: seq<int>, b: seq<int>) {
    if b == [] then false
    else if a == [] then true
    else a[0] < b[0] || (a[0] == b[0] && LexLess(a[1..], b[1..]))
  }

  function Codes(s: string): (r: seq<int>)
    ensures |r| == |s|
  {
    seq(|s|, i requires 0 <= i < |s| => s[i] as int)
  }

  function Invert(s: string): (r: seq<int>)
    ensures |r| == |s|
  {
    seq(|s|, i requires 0 <= i < |s| => TOP_CODE_POINT - s[i] as int)
  }

  /** The order is strict and total. */
  lemma {:induction false} LexTotal(a: seq<int>, b: seq<int>)
    ensures a == b <==> !LexLess(a, b) && !LexLess(b, a)
    ensures !(LexLess(a, b) && LexLess(b, a))
  {
    if a != [] && b != [] {
      LexTotal(a[1..], b[1..]);
      assert a == [a[0]] + a[1..];
      assert b == [b[0]] + b[1..];
    }
  }

  lemma {:induction false} LexTransitive(a: seq<int>, b: seq<int>, c: seq<int>)
    requires LexLess(a, b) && LexLess(b, c)
    ensures LexLess(a, c)
  {
    if a != [] && a[0] == b[0] == c[0] {
      LexTransitive(a[1..], b[1..], c[1..]);
    }
  }

  lemma CodesInjective(a: string, b: string)
    ensures Codes(a) == Codes(b) <==> a == b
  {
    if Codes(a) == Codes(b) {
      forall i | 0 <= i < |a|
        ensures a[i] == b[i]
      {
        assert Codes(a)[i] == Codes(b)[i];
      }
    }
  }

  lemma InvertInjective(a: string, b: string)
    requires Invert(a) == Invert(b)
    ensures a == b
  {
    forall i | 0 <= i < |a|
      ensures a[i] == b[i]
    {
      assert Invert(a)[i] == Invert(b)[i];
    }
  }

  /** In the order of strings: a prefix first, and else the smaller character where the
      two first differ. */
  ghost predicate IdBefore(a: string, b: string) {
    a < b || exists k :: 0 <= k < |a| && k < |b| && a[..k] == b[..k] && a[k] < b[k]
  }

  lemma {:induction false} LexIsStringOrder(a: string, b: string)
    ensures LexLess(Codes(a), Codes(b)) <==> IdBefore(a, b)
  {
    if a != [] && b != [] {
      assert Codes(a)[1..] == Codes(a[1..]) && Codes(b)[1..] == Codes(b[1..]);
      LexIsStringOrder(a[1..], b[1..]);
      if a[0] == b[0] {
        SameFirst(a, b);
      } else {
        OtherFirst(a, b);
      }
      hide IdBefore;
    }
  }

  lemma SameFirst(a: string, b: string)
    requires a != [] && b != [] && a[0] == b[0]
    ensures IdBefore(a, b) <==> IdBefore(a[1..], b[1..])
  {
    assert a == [a[0]] + a[1..] && b == [b[0]] + b[1..];
    assert a < b <==> a[1..] < b[1..];
    StepsOver(a, b);
  }

  lemma OtherFirst(a: string, b: string)
    requires a != [] && b != [] && a[0] != b[0]
    ensures IdBefore(a, b) <==> a[0] < b[0]
  {
    if a[0] < b[0] {
      assert a[..0] == b[..0];
    }
    forall k | 0 < k < |a| && k < |b| ensures a[..k] != b[..k] {
      assert a[..k][0] == a[0] && b[..k][0] == b[0];
    }
  }

  lemma StepsOver(a: string, b: string)
    requires a != [] && b != [] && a[0] == b[0]
    ensures (exists k :: 0 <= k < |a| && k < |b| && a[..k] == b[..k] && a[k] < b[k])
      <==> exists k :: 0 <= k < |a[1..]| && k < |b[1..]| && a[1..][..k] == b[1..][..k] && a[1..][k] < b[1..][k]
  {
    if k :| 0 <= k < |a| && k < |b| && a[..k] == b[..k] && a[k] < b[k] {
      assert a[1..][..k - 1] == a[..k][1..] && b[1..][..k - 1] == b[..k][1..];
      assert a[1..][k - 1] < b[1..][k - 1];
    }
    if k :| 0 <= k < |a[1..]| && k < |b[1..]| && a[1..][..k] == b[1..][..k] && a[1..][k] < b[1..][k] {
      assert a[..k + 1] == [a[0]] + a[1..][..k] && b[..k + 1] == [b[0]] + b[1..][..k];
      assert a[k + 1] < b[k + 1];
    }
  }

  /** Inversion reverses the order of two ids exactly when neither is a proper
      prefix of the other; ids of one length always qualify. */
  lemma {:induction false} InvertReverses(a: string, b: string)
    ensures (LexLess(Invert(a), Invert(b)) <==> LexLess(Codes(b), Codes(a))) <==> !(a < b || b < a)
  {
    if a == [] || b == [] {
    } else {
      assert Invert(a)[1..] == Invert(a[1..]) && Invert(b)[1..] == Invert(b[1..]);
      assert Codes(a)[1..] == Codes(a[1..]) && Codes(b)[1..] == Codes(b[1..]);
      InvertReverses(a[1..], b[1..]);
      assert a == [a[0]] + a[1..];
      assert b == [b[0]] + b[1..];
      if a[0] == b[0] {
        assert a < b <==> a[1..] < b[1..];
        assert b < a <==> b[1..] < a[1..];
      } else {
        assert !(a < b) && !(b < a);
      }
    }
  }
}
