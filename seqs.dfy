/** Order-preserving filtering of a sequence, the shape of every removal the scene store performs. */
module Seqs {

  /** The elements of `s` that satisfy `keep`, in their original order. */
  function Filter<T(!new)>(s: seq<T>, keep: T -> bool): (r: seq<T>)
    ensures |r| <= |s|
    ensures forall x :: x in r <==> x in s && keep(x)
  {
    if s == [] then []
    else (if keep(s[0]) then [s[0]] else []) + Filter(s[1..], keep)
  }

  /** `a` can be obtained from `b` by deleting elements, without reordering the rest. */
  ghost predicate Subsequence<T>(a: seq<T>, b: seq<T>)
    decreases |b|
  {
    if a == [] then true
    else if b == [] then false
    else if a[0] == b[0] then Subsequence(a[1..], b[1..])
    else Subsequence(a, b[1..])
  }

  /** Filtering never reorders: what survives keeps its relative order. */
  lemma {:induction false} FilterIsSubsequence<T(!new)>(s: seq<T>, keep: T -> bool)
    ensures Subsequence(Filter(s, keep), s)
  {
    if s != [] {
      FilterIsSubsequence(s[1..], keep);
      if keep(s[0]) {
        assert Filter(s, keep) == [s[0]] + Filter(s[1..], keep);
        assert Filter(s, keep)[1..] == Filter(s[1..], keep);
      } else {
        assert Filter(s, keep) == Filter(s[1..], keep);
        SkipHead(Filter(s[1..], keep), s);
      }
    }
  }

  /** A subsequence of the tail is a subsequence of the whole. */
  lemma {:induction false} SkipHead<T>(a: seq<T>, b: seq<T>)
    requires b != [] && Subsequence(a, b[1..])
    ensures Subsequence(a, b)
    decreases |a| + |b|
  {
    if a != [] && a[0] == b[0] {
      // Subsequence(a, b) reduces to Subsequence(a[1..], b[1..]), which follows from a ⊑ b[1..].
      DropHead(a, b[1..]);
    }
  }

  /** Dropping the first element of a subsequence keeps it a subsequence. */
  lemma {:induction false} DropHead<T>(a: seq<T>, b: seq<T>)
    requires a != [] && Subsequence(a, b)
    ensures Subsequence(a[1..], b)
    decreases |a| + |b|
  {
    assert b != [];
    if a[0] == b[0] {
      if a[1..] != [] {
        SkipHead(a[1..], b);
      }
    } else {
      DropHead(a, b[1..]);
      if a[1..] != [] {
        SkipHead(a[1..], b);
      }
    }
  }

  /** Every element the predicate keeps survives with its multiplicity; every other one is gone. */
  lemma {:induction false} FilterCounts<T(!new)>(s: seq<T>, keep: T -> bool, x: T)
    ensures multiset(Filter(s, keep))[x] == if keep(x) then multiset(s)[x] else 0
  {
    if s != [] {
      FilterCounts(s[1..], keep, x);
      assert s == [s[0]] + s[1..];
      assert multiset(s) == multiset([s[0]]) + multiset(s[1..]);
      var head := if keep(s[0]) then [s[0]] else [];
      assert multiset(Filter(s, keep)) == multiset(head) + multiset(Filter(s[1..], keep));
    }
  }

  /** Filtering by the same predicate a second time changes nothing. */
  lemma {:induction false} FilterIdempotent<T(!new)>(s: seq<T>, keep: T -> bool)
    ensures Filter(Filter(s, keep), keep) == Filter(s, keep)
  {
    FilterKeepsAll(Filter(s, keep), keep);
  }

  /** When every element is kept, filtering is the identity. */
  lemma {:induction false} FilterKeepsAll<T(!new)>(s: seq<T>, keep: T -> bool)
    requires forall x :: x in s ==> keep(x)
    ensures Filter(s, keep) == s
  {
    if s != [] {
      assert forall x :: x in s[1..] ==> x in s;
      FilterKeepsAll(s[1..], keep);
      assert s == [s[0]] + s[1..];
    }
  }

  /** Filtering distributes over appending one element at the back. */
  lemma {:induction false} FilterSnoc<T(!new)>(s: seq<T>, x: T, keep: T -> bool)
    ensures Filter(s + [x], keep) == Filter(s, keep) + (if keep(x) then [x] else [])
  {
    if s == [] {
      assert [] + [x] == [x];
      assert [x][1..] == [];
    } else {
      assert (s + [x])[0] == s[0];
      assert (s + [x])[1..] == s[1..] + [x];
      FilterSnoc(s[1..], x, keep);
    }
  }

  /**
   * One step of a forward scan that filters in place: `cur` holds the kept part of
   * `src[..k]` followed by the unscanned rest; the element at the seam is either kept
   * (the seam moves on) or deleted.
   */
  lemma FilterScanStep<T(!new)>(src: seq<T>, k: nat, keep: T -> bool)
    requires k < |src|
    ensures var done, cur := Filter(src[..k], keep), Filter(src[..k], keep) + src[k..];
      && cur[|done|] == src[k]
      && (keep(src[k]) ==>
            cur == Filter(src[..k + 1], keep) + src[k + 1..] && |Filter(src[..k + 1], keep)| == |done| + 1)
      && (!keep(src[k]) ==>
            cur[..|done|] + cur[|done| + 1..] == Filter(src[..k + 1], keep) + src[k + 1..]
            && |Filter(src[..k + 1], keep)| == |done|)
  {
    var done := Filter(src[..k], keep);
    var cur := done + src[k..];
    assert src[..k + 1] == src[..k] + [src[k]];
    assert src[k..] == [src[k]] + src[k + 1..];
    FilterSnoc(src[..k], src[k], keep);
    assert cur[..|done|] == done;
    assert cur[|done| + 1..] == src[k + 1..];
  }

  /**
   * One step of a scan from the back that filters `src` in place: with `src[i + 1..]`
   * already filtered, dropping `src[i]` or keeping it leaves `src[i..]` filtered.
   */
  lemma FilterBackStep<T(!new)>(src: seq<T>, i: nat, keep: T -> bool)
    requires i < |src|
    ensures var cur := src[..i + 1] + Filter(src[i + 1..], keep);
      && cur[i] == src[i]
      && (keep(src[i]) ==> cur == src[..i] + Filter(src[i..], keep))
      && (!keep(src[i]) ==> cur[..i] + cur[i + 1..] == src[..i] + Filter(src[i..], keep))
  {
    var rest := Filter(src[i + 1..], keep);
    var cur := src[..i + 1] + rest;
    assert src[i..][0] == src[i] && src[i..][1..] == src[i + 1..];
    assert Filter(src[i..], keep) == (if keep(src[i]) then [src[i]] else []) + rest;
    assert src[..i + 1] == src[..i] + [src[i]];
    assert cur[..i] == src[..i];
    assert cur[i + 1..] == rest;
  }
}
