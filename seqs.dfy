// Order-preserving selection from a list, as the sampling and filtering loops build it.

module Seqs {

  /**
   * `a` is an order-preserving subsequence of `b`: `a` is obtained from `b` by
   * deleting elements.  Matched greedily from the back.
   */
  predicate IsSubsequence<T(==)>(a: seq<T>, b: seq<T>)
    decreases |b|
  {
    if a == [] then true
    else if b == [] then false
    else if a[|a| - 1] == b[|b| - 1] then IsSubsequence(a[..|a| - 1], b[..|b| - 1])
    else IsSubsequence(a, b[..|b| - 1])
  }

  /** The elements of `s` that satisfy `keep`, in their order in `s` (a loop that appends the hits). */
  function Filter<T>(s: seq<T>, keep: T -> bool): (r: seq<T>)
    ensures |r| <= |s|
  {
    if s == [] then []
    else Filter(s[..|s| - 1], keep) + (if keep(s[|s| - 1]) then [s[|s| - 1]] else [])
  }

  /** Appending to the larger list keeps a subsequence a subsequence. */
  lemma {:induction false} SubsequenceExtend<T>(a: seq<T>, b: seq<T>, x: T)
    requires IsSubsequence(a, b)
    ensures IsSubsequence(a, b + [x])
    decreases |a| + |b|, 1
  {
    var b' := b + [x];
    assert b'[..|b'| - 1] == b;
    if a != [] && a[|a| - 1] == x {
      SubsequenceDropLast(a, b);
    }
  }

  /** Dropping the last element of a subsequence keeps it a subsequence. */
  lemma {:induction false} SubsequenceDropLast<T>(a: seq<T>, b: seq<T>)
    requires a != [] && IsSubsequence(a, b)
    ensures IsSubsequence(a[..|a| - 1], b)
    decreases |a| + |b|, 0
  {
    var b0 := b[..|b| - 1];
    assert b == b0 + [b[|b| - 1]];
    if a[|a| - 1] == b[|b| - 1] {
      SubsequenceExtend(a[..|a| - 1], b0, b[|b| - 1]);
    } else {
      SubsequenceDropLast(a, b0);
      SubsequenceExtend(a[..|a| - 1], b0, b[|b| - 1]);
    }
  }

  /** What a filter keeps is an order-preserving subsequence of its input. */
  lemma {:induction false} FilterIsSubsequence<T>(s: seq<T>, keep: T -> bool)
    ensures IsSubsequence(Filter(s, keep), s)
  {
    if s != [] {
      var s0, x := s[..|s| - 1], s[|s| - 1];
      assert s == s0 + [x];
      FilterIsSubsequence(s0, keep);
      if keep(x) {
        var r := Filter(s, keep);
        assert r[..|r| - 1] == Filter(s0, keep);
      } else {
        assert Filter(s, keep) == Filter(s0, keep);
        SubsequenceExtend(Filter(s0, keep), s0, x);
      }
    }
  }

  /** An element is kept iff it occurs in the input and satisfies the test. */
  lemma {:induction false} FilterMembership<T>(s: seq<T>, keep: T -> bool, y: T)
    ensures y in Filter(s, keep) <==> y in s && keep(y)
  {
    if s != [] {
      var s0, x := s[..|s| - 1], s[|s| - 1];
      assert s == s0 + [x];
      FilterMembership(s0, keep, y);
    }
  }

  /** Filtering a list extended by one element. */
  lemma FilterSnoc<T>(s: seq<T>, keep: T -> bool, x: T)
    ensures Filter(s + [x], keep) == Filter(s, keep) + (if keep(x) then [x] else [])
  {
    assert (s + [x])[..|s + [x]| - 1] == s;
  }

  /** The elements of `s` whose flag is set, in their order in `s`. */
  function Mask<T>(s: seq<T>, flags: seq<bool>): (r: seq<T>)
    requires |flags| == |s|
    ensures |r| <= |s|
  {
    if s == [] then []
    else Mask(s[..|s| - 1], flags[..|s| - 1]) + (if flags[|s| - 1] then [s[|s| - 1]] else [])
  }

  /** Masking a list extended by one element. */
  lemma MaskSnoc<T>(s: seq<T>, flags: seq<bool>, x: T, b: bool)
    requires |flags| == |s|
    ensures Mask(s + [x], flags + [b]) == Mask(s, flags) + (if b then [x] else [])
  {
    assert (s + [x])[..|s|] == s;
    assert (flags + [b])[..|s|] == flags;
  }

  /** Whatever a mask keeps occurs in its input. */
  lemma {:induction false} MaskMembers<T>(s: seq<T>, flags: seq<bool>, y: T)
    requires |flags| == |s| && y in Mask(s, flags)
    ensures y in s
  {
    var s0 := s[..|s| - 1];
    assert s == s0 + [s[|s| - 1]];
    if y != s[|s| - 1] {
      MaskMembers(s0, flags[..|s| - 1], y);
    }
  }

  /** No element occurs twice. */
  predicate Distinct<T(==)>(s: seq<T>) {
    forall i, j :: 0 <= i < j < |s| ==> s[i] != s[j]
  }

  /** Every element of a subsequence occurs in the larger list. */
  lemma {:induction false} SubsequenceMembers<T>(a: seq<T>, b: seq<T>, x: T)
    requires IsSubsequence(a, b) && x in a
    ensures x in b
    decreases |b|
  {
    var b0 := b[..|b| - 1];
    assert b == b0 + [b[|b| - 1]];
    if a[|a| - 1] == b[|b| - 1] {
      var a0 := a[..|a| - 1];
      assert a == a0 + [a[|a| - 1]];
      if x != a[|a| - 1] {
        SubsequenceMembers(a0, b0, x);
      }
    } else {
      SubsequenceMembers(a, b0, x);
    }
  }

  /** A subsequence of a list without repetitions has none either. */
  lemma {:induction false} SubsequenceDistinct<T>(a: seq<T>, b: seq<T>)
    requires IsSubsequence(a, b) && Distinct(b)
    ensures Distinct(a)
    decreases |b|
  {
    if a != [] {
      var b0, y := b[..|b| - 1], b[|b| - 1];
      assert b == b0 + [y];
      assert Distinct(b0);
      if a[|a| - 1] == y {
        var a0 := a[..|a| - 1];
        assert a == a0 + [y];
        SubsequenceDistinct(a0, b0);
        forall i | 0 <= i < |a0| ensures a0[i] != y {
          SubsequenceMembers(a0, b0, a0[i]);
        }
      } else {
        SubsequenceDistinct(a, b0);
      }
    }
  }

  /**
   * The list left by a pass that visits the first `i` elements of `s` in order and
   * removes each one whose flag is clear (an element already gone is left alone).
   */
  function Survivors<T(==)>(s: seq<T>, flags: seq<bool>, i: nat): seq<T>
    requires |flags| == |s| && i <= |s|
  {
    if i == 0 then s
    else
      var r := Survivors(s, flags, i - 1);
      if flags[i - 1] || s[i - 1] !in r then r else RemoveFirst(r, s[i - 1])
  }

  /**
   * On a list without repetitions the pass never meets an element already gone: after
   * `i` steps the list is the kept part of the visited prefix followed by the rest.
   */
  lemma {:induction false} SurvivorsShape<T>(s: seq<T>, flags: seq<bool>, i: nat)
    requires |flags| == |s| && i <= |s| && Distinct(s)
    ensures Survivors(s, flags, i) == Mask(s[..i], flags[..i]) + s[i..]
  {
    if i > 0 {
      SurvivorsShape(s, flags, i - 1);
      var front := s[..i - 1];
      assert s[i - 1] !in front by {
        forall k | 0 <= k < |front| ensures front[k] != s[i - 1] {
          assert front[k] == s[k];
        }
      }
      SurvivorsStep(s, flags, i - 1);
    }
  }

  /** One step of the pass keeps the shape stated by `SurvivorsShape`. */
  lemma SurvivorsStep<T>(s: seq<T>, flags: seq<bool>, j: nat)
    requires |flags| == |s| && j < |s| && s[j] !in s[..j]
    requires Survivors(s, flags, j) == Mask(s[..j], flags[..j]) + s[j..]
    ensures Survivors(s, flags, j + 1) == Mask(s[..j + 1], flags[..j + 1]) + s[j + 1..]
  {
    var x, m, rest := s[j], Mask(s[..j], flags[..j]), s[j + 1..];
    var r := Survivors(s, flags, j);
    assert r == m + [x] + rest by {
      assert s[j..] == [x] + rest;
    }
    assert Mask(s[..j + 1], flags[..j + 1]) == m + (if flags[j] then [x] else []) by {
      assert s[..j + 1] == s[..j] + [x];
      assert flags[..j + 1] == flags[..j] + [flags[j]];
      MaskSnoc(s[..j], flags[..j], x, flags[j]);
    }
    if !flags[j] {
      assert x !in m by {
        if x in m {
          MaskMembers(s[..j], flags[..j], x);
        }
      }
      assert x in r;
      RemoveFirstAt(m, x, rest);
      assert Survivors(s, flags, j + 1) == RemoveFirst(r, x);
    } else {
      assert Survivors(s, flags, j + 1) == r;
    }
  }

  /** The element the pass visits next is still in the list. */
  lemma SurvivorsNext<T>(s: seq<T>, flags: seq<bool>, i: nat)
    requires |flags| == |s| && i < |s| && Distinct(s)
    ensures s[i] in Survivors(s, flags, i)
  {
    SurvivorsShape(s, flags, i);
    assert s[i] == (Mask(s[..i], flags[..i]) + s[i..])[|Mask(s[..i], flags[..i])|];
  }

  /** `list.remove(x)`: the list without the first occurrence of x. */
  function RemoveFirst<T(==)>(s: seq<T>, x: T): (r: seq<T>)
    requires x in s
    ensures |r| == |s| - 1
  {
    if s[0] == x then s[1..] else [s[0]] + RemoveFirst(s[1..], x)
  }

  /** Removing an element that does not occur before its position takes out exactly that position. */
  lemma {:induction false} RemoveFirstAt<T>(a: seq<T>, x: T, b: seq<T>)
    requires x !in a
    ensures RemoveFirst(a + [x] + b, x) == a + b
  {
    if a != [] {
      assert (a + [x] + b)[1..] == a[1..] + [x] + b;
      RemoveFirstAt(a[1..], x, b);
      assert [a[0]] + (a[1..] + b) == a + b;
    } else {
      assert (a + [x] + b)[1..] == b;
    }
  }
}
