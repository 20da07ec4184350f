/** Facts about sequences of any kind: regrouping, and filtering. */
module Sequences {

  lemma AppendAssociates<T>(a: seq<T>, b: seq<T>, c: seq<T>)
    ensures a + (b + c) == a + b + c
  {
  }

  lemma PrefixOfMore<T>(x: seq<T>, a: seq<T>, b: seq<T>, c: seq<T>)
    requires x <= a + b
    ensures x <= a + (b + c)
  {
    AppendAssociates(a, b, c);
  }

  lemma DropOne<T>(s: seq<T>, k: nat)
    requires k < |s|
    ensures s[k..] == [s[k]] + s[k + 1..] && s[k..][0] == s[k] && s[k..][1..] == s[k + 1..]
  {
  }

  lemma UpdateTwice<T>(s: seq<T>, i: nat, x: T, y: T)
    requires i < |s|
    ensures s[i := x][i := y] == s[i := y]
  {
  }

  /** The last element of an appended sequence, and what comes before it. */
  lemma AppendLast<T>(a: seq<T>, b: seq<T>)
    requires b != []
    ensures a + b != [] && (a + b)[|a + b| - 1] == b[|b| - 1]
    ensures (a + b)[..|a + b| - 1] == a + b[..|b| - 1]
  {
  }

  function Filter<T>(s: seq<T>, keep: T -> bool): (r: seq<T>)
    ensures |r| <= |s|
  {
    if s == [] then []
    else
      var n := |s| - 1;
      Filter(s[..n], keep) + if keep(s[n]) then [s[n]] else []
  }

  /** Exactly the kept elements are there, and the length tells whether anything was dropped. */
  lemma {:induction false} FilterFacts<T>(s: seq<T>, keep: T -> bool)
    ensures forall x :: x in Filter(s, keep) <==> x in s && keep(x)
    ensures |Filter(s, keep)| == |s| <==> Filter(s, keep) == s
    ensures (forall x :: x in s ==> keep(x)) ==> Filter(s, keep) == s
  {
    if s != [] {
      var n := |s| - 1;
      FilterFacts(s[..n], keep);
      assert s == s[..n] + [s[n]];
    }
  }

  lemma {:induction false} FilterAppend<T>(a: seq<T>, b: seq<T>, keep: T -> bool)
    ensures Filter(a + b, keep) == Filter(a, keep) + Filter(b, keep)
  {
    if b == [] {
      assert a + b == a;
    } else {
      var n := |b| - 1;
      var last := if keep(b[n]) then [b[n]] else [];
      FilterAppend(a, b[..n], keep);
      AppendLast(a, b);
      AppendAssociates(Filter(a, keep), Filter(b[..n], keep), last);
    }
  }

  /** Where a kept element comes from. */
  lemma {:induction false} FilterIndex<T>(s: seq<T>, keep: T -> bool, i: nat) returns (k: nat)
    requires i < |Filter(s, keep)|
    ensures k < |s| && s[k] == Filter(s, keep)[i] && keep(s[k])
  {
    var n := |s| - 1;
    if i < |Filter(s[..n], keep)| {
      k := FilterIndex(s[..n], keep, i);
    } else {
      k := n;
    }
  }

  /** Any two elements, in order, are apart. */
  ghost predicate Pairwise<T>(s: seq<T>, apart: (T, T) -> bool) {
    forall i, j :: 0 <= i < j < |s| ==> apart(s[i], s[j])
  }

  lemma PairwiseGrows<T>(s: seq<T>, x: T, apart: (T, T) -> bool)
    requires Pairwise(s, apart) && forall i :: 0 <= i < |s| ==> apart(s[i], x)
    ensures Pairwise(s + [x], apart)
  {
    var more := s + [x];
    forall i, j | 0 <= i < j < |more|
      ensures apart(more[i], more[j])
    {
      assert more[i] == s[i];
    }
  }

  /** Filtering keeps the elements pairwise apart. */
  lemma {:induction false} FilterKeepsPairwise<T>(s: seq<T>, keep: T -> bool, apart: (T, T) -> bool)
    requires Pairwise(s, apart)
    ensures Pairwise(Filter(s, keep), apart)
  {
    if s != [] {
      var n := |s| - 1;
      var rest := Filter(s[..n], keep);
      FilterKeepsPairwise(s[..n], keep, apart);
      if keep(s[n]) {
        forall i | 0 <= i < |rest|
          ensures apart(rest[i], s[n])
        {
          var k := FilterIndex(s[..n], keep, i);
          assert s[k] == rest[i];
        }
        PairwiseGrows(rest, s[n], apart);
      }
    }
  }
}
