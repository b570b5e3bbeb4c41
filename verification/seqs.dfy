/** Sequence operations that the pages use through JavaScript's array
    methods: `slice(0, n)`, `filter` and the order they keep. */
module Seqs {

  /** `xs.slice(0, n)`: the first `n` elements, or all of them when fewer. */
  function Take<T>(xs: seq<T>, n: nat): (r: seq<T>)
    ensures |r| == if |xs| < n then |xs| else n
    ensures r == xs[..|r|]
  {
    if |xs| <= n then xs else xs[..n]
  }

  /** `xs.filter(p)`: the elements satisfying `p`, in their original order. */
  function Filter<T(==)>(xs: seq<T>, p: T -> bool): (r: seq<T>)
    ensures |r| <= |xs|
    ensures forall i :: 0 <= i < |r| ==> r[i] in xs && p(r[i])
    ensures forall i :: 0 <= i < |xs| && p(xs[i]) ==> xs[i] in r
  {
    if |xs| == 0 then []
    else if p(xs[0]) then [xs[0]] + Filter(xs[1..], p)
    else Filter(xs[1..], p)
  }

  /** `a` occurs in `b` in the same relative order (possibly with gaps). */
  predicate IsSubseq<T(==)>(a: seq<T>, b: seq<T>)
    decreases |b|
  {
    if |a| == 0 then true
    else if |b| == 0 then false
    else if a[0] == b[0] then IsSubseq(a[1..], b[1..])
    else IsSubseq(a, b[1..])
  }

  /** Number of elements of `xs` satisfying `p`. */
  function Count<T>(xs: seq<T>, p: T -> bool): nat
  {
    if |xs| == 0 then 0
    else (if p(xs[0]) then 1 else 0) + Count(xs[1..], p)
  }

  /** Filtering keeps exactly the elements that satisfy `p`. */
  lemma {:induction false} FilterLength<T>(xs: seq<T>, p: T -> bool)
    ensures |Filter(xs, p)| == Count(xs, p)
  {
    if |xs| > 0 {
      FilterLength(xs[1..], p);
    }
  }

  /** A filtered sequence keeps the original order. */
  lemma {:induction false} FilterIsSubseq<T>(xs: seq<T>, p: T -> bool)
    ensures IsSubseq(Filter(xs, p), xs)
  {
    if |xs| > 0 {
      FilterIsSubseq(xs[1..], p);
      var r := Filter(xs, p);
      if !p(xs[0]) && |r| > 0 {
        assert p(r[0]);
      }
    }
  }

  /** A prefix of an ordered embedding is still an ordered embedding. */
  lemma {:induction false} PrefixOfSubseq<T>(a: seq<T>, b: seq<T>, k: nat)
    requires IsSubseq(a, b)
    requires k <= |a|
    ensures IsSubseq(a[..k], b)
    decreases |b|
  {
    if k > 0 && |b| > 0 {
      if a[0] == b[0] {
        PrefixOfSubseq(a[1..], b[1..], k - 1);
        assert a[..k][1..] == a[1..][..k - 1];
      } else {
        PrefixOfSubseq(a, b[1..], k);
      }
    }
  }

  /** Every element of an ordered embedding occurs in the larger sequence. */
  lemma {:induction false} SubseqElements<T>(a: seq<T>, b: seq<T>)
    requires IsSubseq(a, b)
    ensures forall i :: 0 <= i < |a| ==> a[i] in b
    decreases |b|
  {
    if |a| > 0 && |b| > 0 {
      if a[0] == b[0] {
        SubseqElements(a[1..], b[1..]);
        forall i | 0 <= i < |a| ensures a[i] in b {
          if i > 0 {
            assert a[i] == a[1..][i - 1];
          }
        }
      } else {
        SubseqElements(a, b[1..]);
      }
    }
  }

  /** The first `n` elements of a filter keep the original order. */
  lemma TakeFilterIsSubseq<T>(xs: seq<T>, p: T -> bool, n: nat)
    ensures IsSubseq(Take(Filter(xs, p), n), xs)
  {
    var f := Filter(xs, p);
    FilterIsSubseq(xs, p);
    PrefixOfSubseq(f, xs, |Take(f, n)|);
  }

  /** A prefix of a sequence is an ordered embedding of it. */
  lemma {:induction false} TakeIsSubseq<T>(xs: seq<T>, n: nat)
    ensures IsSubseq(Take(xs, n), xs)
  {
    if |xs| > 0 && n > 0 {
      TakeIsSubseq(xs[1..], n - 1);
      assert Take(xs, n)[1..] == Take(xs[1..], n - 1);
    }
  }

  /** Filtering distributes over concatenation. */
  lemma {:induction false} FilterAppend<T>(a: seq<T>, b: seq<T>, p: T -> bool)
    ensures Filter(a + b, p) == Filter(a, p) + Filter(b, p)
  {
    if |a| == 0 {
      assert a + b == b;
    } else {
      assert (a + b)[0] == a[0];
      assert (a + b)[1..] == a[1..] + b;
      FilterAppend(a[1..], b, p);
    }
  }

  /** The matches in a shorter prefix are a prefix of the matches in a
      longer one. */
  lemma FilterOfPrefixes<T>(xs: seq<T>, p: T -> bool, m1: nat, m2: nat)
    requires m1 <= m2 <= |xs|
    ensures Filter(xs[..m1], p) <= Filter(xs[..m2], p)
  {
    assert xs[..m2] == xs[..m1] + xs[m1..m2];
    FilterAppend(xs[..m1], xs[m1..m2], p);
  }

  /** `r` is `xs.filter(p).slice(0, n)` described without computing it: as
      many matches as the cap allows, and they are all the matches of some
      prefix of `xs`, so no match is skipped in favour of a later one. */
  ghost predicate FirstMatches<T>(r: seq<T>, xs: seq<T>, p: T -> bool, n: nat)
  {
    && |r| == (if Count(xs, p) < n then Count(xs, p) else n)
    && exists m :: 0 <= m <= |xs| && r == Filter(xs[..m], p)
  }

  /** The first `n` matches are the matches of some prefix. */
  lemma {:induction false} TakeFilterIsFilteredPrefix<T>(xs: seq<T>, p: T -> bool, n: nat)
    ensures exists m :: 0 <= m <= |xs| && Take(Filter(xs, p), n) == Filter(xs[..m], p)
  {
    if n == 0 || |xs| == 0 {
      assert Take(Filter(xs, p), n) == Filter(xs[..0], p);
    } else {
      TakeFilterIsFilteredPrefix(xs[1..], p, if p(xs[0]) then n - 1 else n);
      var m' :| 0 <= m' <= |xs[1..]| &&
        Take(Filter(xs[1..], p), if p(xs[0]) then n - 1 else n) == Filter(xs[1..][..m'], p);
      var pre := xs[..m' + 1];
      assert pre[0] == xs[0];
      assert pre[1..] == xs[1..][..m'];
      if p(xs[0]) {
        var f := Filter(xs[1..], p);
        assert Filter(xs, p) == [xs[0]] + f;
        assert Take([xs[0]] + f, n) == [xs[0]] + Take(f, n - 1);
      }
      assert Take(Filter(xs, p), n) == Filter(pre, p);
    }
  }

  /** `Take(Filter(xs, p), n)` satisfies the description. */
  lemma TakeFilterFirstMatches<T>(xs: seq<T>, p: T -> bool, n: nat)
    ensures FirstMatches(Take(Filter(xs, p), n), xs, p, n)
  {
    FilterLength(xs, p);
    TakeFilterIsFilteredPrefix(xs, p, n);
  }

  /** The description pins the result: two sequences that are both the
      first `n` matches are equal. */
  lemma FirstMatchesUnique<T>(a: seq<T>, b: seq<T>, xs: seq<T>, p: T -> bool, n: nat)
    requires FirstMatches(a, xs, p, n) && FirstMatches(b, xs, p, n)
    ensures a == b
  {
    var ma :| 0 <= ma <= |xs| && a == Filter(xs[..ma], p);
    var mb :| 0 <= mb <= |xs| && b == Filter(xs[..mb], p);
    if ma <= mb {
      FilterOfPrefixes(xs, p, ma, mb);
    } else {
      FilterOfPrefixes(xs, p, mb, ma);
    }
  }
}
