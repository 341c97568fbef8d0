/** Ordering used by the reports: Python's `sorted(..., reverse=True)` and
    JavaScript's `Array.prototype.sort` with a descending comparator. Both are
    stable, so both are modelled by one stable insertion sort that places an
    element before the later elements with an equal score. */
module Ranking {
  import opened Seqs

  /** Scores never increase along `xs`. */
  ghost predicate NonIncreasing<T>(xs: seq<T>, score: T -> real)
  {
    forall i, j :: 0 <= i < j < |xs| ==> score(xs[i]) >= score(xs[j])
  }

  /** Inserts `x` in front of the first element of `ys` that scores no more
      than `x`. */
  function Insert<T>(x: T, ys: seq<T>, score: T -> real): (r: seq<T>)
    ensures multiset(r) == multiset(ys) + multiset{x}
    ensures |r| == |ys| + 1 && (r[0] == x || (|ys| > 0 && r[0] == ys[0]))
  {
    if |ys| == 0 || score(x) >= score(ys[0]) then [x] + ys
    else
      assert ys == [ys[0]] + ys[1..];
      [ys[0]] + Insert(x, ys[1..], score)
  }

  /** Inserting into an ordered sequence keeps it ordered. */
  lemma {:induction false} InsertOrdered<T>(x: T, ys: seq<T>, score: T -> real)
    requires NonIncreasing(ys, score)
    ensures NonIncreasing(Insert(x, ys, score), score)
  {
    var r := Insert(x, ys, score);
    if |ys| == 0 || score(x) >= score(ys[0]) {
      forall i, j | 0 <= i < j < |r| ensures score(r[i]) >= score(r[j]) {
        if i == 0 && j > 1 {
          assert score(ys[0]) >= score(ys[j - 1]);
        }
      }
    } else {
      var rest := Insert(x, ys[1..], score);
      InsertOrdered(x, ys[1..], score);
      assert r == [ys[0]] + rest;
      assert score(ys[0]) >= score(rest[0]);
      forall i, j | 0 <= i < j < |r| ensures score(r[i]) >= score(r[j]) {
        if i == 0 && j > 1 {
          assert score(rest[0]) >= score(rest[j - 1]);
        }
      }
    }
  }

  /** Selects the elements scoring exactly `s`. */
  function ScoreIs<T>(score: T -> real, s: real): T -> bool
  {
    (x: T) => score(x) == s
  }

  /** Insertion moves `x` only past elements scoring more than it, so among
      elements that `p` selects, all of one score, the order of `[x] + ys` is
      kept. */
  lemma {:induction false} InsertStable<T>(x: T, ys: seq<T>, score: T -> real, p: T -> bool)
    requires forall a, b :: p(a) && p(b) ==> score(a) == score(b)
    ensures Filter(Insert(x, ys, score), p) == Filter([x] + ys, p)
    decreases |ys|
  {
    if |ys| == 0 || score(x) >= score(ys[0]) {
    } else {
      var y, tail := ys[0], ys[1..];
      var fx, fy, ft := Filter([x], p), Filter([y], p), Filter(tail, p);
      assert Filter(Insert(x, ys, score), p) == fy + (fx + ft) by {
        var rest := Insert(x, tail, score);
        assert Insert(x, ys, score) == [y] + rest;
        InsertStable(x, tail, score, p);
        FilterAppend([y], rest, p);
        FilterAppend([x], tail, p);
      }
      assert Filter([x] + ys, p) == fx + (fy + ft) by {
        assert ys == [y] + tail;
        FilterAppend([x], ys, p);
        FilterAppend([y], tail, p);
      }
      SwapFront(fx, fy, ft);
    }
  }

  /** Two fronts of which one is empty may be swapped. */
  lemma SwapFront<T>(a: seq<T>, b: seq<T>, c: seq<T>)
    requires a == [] || b == []
    ensures b + (a + c) == a + (b + c)
  {
  }

  /** `InsertStable` for every score at once, after the tail was reordered
      stably. */
  lemma {:induction false} InsertStableAll<T>(x: T, t: seq<T>, ys: seq<T>, score: T -> real)
    requires forall s :: Filter(t, ScoreIs(score, s)) == Filter(ys, ScoreIs(score, s))
    ensures forall s :: Filter(Insert(x, t, score), ScoreIs(score, s)) == Filter([x] + ys, ScoreIs(score, s))
  {
    forall s ensures Filter(Insert(x, t, score), ScoreIs(score, s)) == Filter([x] + ys, ScoreIs(score, s)) {
      InsertStable(x, t, score, ScoreIs(score, s));
      assert ([x] + t)[1..] == t;
      assert ([x] + ys)[1..] == ys;
    }
  }

  /** The elements of `xs` ordered by non-increasing score; elements of equal
      score keep their order in `xs` (the sort is stable). */
  function SortDesc<T>(xs: seq<T>, score: T -> real): (r: seq<T>)
    ensures multiset(r) == multiset(xs)
    ensures NonIncreasing(r, score)
    ensures forall s :: Filter(r, ScoreIs(score, s)) == Filter(xs, ScoreIs(score, s))
  {
    if |xs| == 0 then []
    else
      assert xs == [xs[0]] + xs[1..];
      var t := SortDesc(xs[1..], score);
      InsertOrdered(xs[0], t, score);
      InsertStableAll(xs[0], t, xs[1..], score);
      Insert(xs[0], t, score)
  }

  /** `x` occurs in `zs` at some position before an occurrence of `y`. */
  ghost predicate Precedes<T>(zs: seq<T>, x: T, y: T)
  {
    exists a, b :: 0 <= a < b < |zs| && zs[a] == x && zs[b] == y
  }

  /** Inserting `x` puts it ahead of every element scoring no more than it. */
  lemma {:induction false} InsertAhead<T>(x: T, ys: seq<T>, score: T -> real, y: T)
    requires y in ys && score(y) <= score(x)
    ensures Precedes(Insert(x, ys, score), x, y)
    decreases |ys|
  {
    var r := Insert(x, ys, score);
    if score(x) >= score(ys[0]) {
      var k := IndexOf(ys, y);
      assert r[0] == x && r[k + 1] == y;
    } else {
      assert ys == [ys[0]] + ys[1..];
      assert y in ys[1..];
      var rest := Insert(x, ys[1..], score);
      InsertAhead(x, ys[1..], score, y);
      var a, b :| 0 <= a < b < |rest| && rest[a] == x && rest[b] == y;
      assert r == [ys[0]] + rest;
      assert r[a + 1] == x && r[b + 1] == y;
    }
  }

  /** Inserting an element keeps the relative order of the others. */
  lemma {:induction false} InsertKeepsOrder<T>(x: T, ys: seq<T>, score: T -> real, u: T, v: T)
    requires Precedes(ys, u, v)
    ensures Precedes(Insert(x, ys, score), u, v)
    decreases |ys|
  {
    var r := Insert(x, ys, score);
    var a, b :| 0 <= a < b < |ys| && ys[a] == u && ys[b] == v;
    if score(x) >= score(ys[0]) {
      assert r[a + 1] == u && r[b + 1] == v;
    } else {
      var rest := Insert(x, ys[1..], score);
      assert r == [ys[0]] + rest;
      if a == 0 {
        assert ys[1..][b - 1] == v;
        assert v in multiset(rest);
        var k := IndexOf(rest, v);
        assert r[0] == u && r[k + 1] == v;
      } else {
        assert ys[1..][a - 1] == u && ys[1..][b - 1] == v;
        InsertKeepsOrder(x, ys[1..], score, u, v);
        var c, d :| 0 <= c < d < |rest| && rest[c] == u && rest[d] == v;
        assert r[c + 1] == u && r[d + 1] == v;
      }
    }
  }

  /** Stability, pointwise: of two elements with equal scores, the earlier
      in `xs` comes first in the sorted sequence. */
  lemma {:induction false} SortKeepsTies<T>(xs: seq<T>, score: T -> real, i: nat, j: nat)
    requires i < j < |xs| && score(xs[i]) == score(xs[j])
    ensures Precedes(SortDesc(xs, score), xs[i], xs[j])
    decreases |xs|
  {
    assert xs == [xs[0]] + xs[1..];
    var t := SortDesc(xs[1..], score);
    assert xs[1..][j - 1] == xs[j];
    if i == 0 {
      assert xs[j] in multiset(t);
      InsertAhead(xs[0], t, score, xs[j]);
    } else {
      assert xs[1..][i - 1] == xs[i];
      SortKeepsTies(xs[1..], score, i - 1, j - 1);
      InsertKeepsOrder(xs[0], t, score, xs[i], xs[j]);
    }
  }

  /** The `n` best-scoring elements, best first. */
  function Top<T>(xs: seq<T>, score: T -> real, n: nat): seq<T>
  {
    Take(SortDesc(xs, score), n)
  }

  /** The identity, as a key for `DistinctBy`. */
  function Id<T>(x: T): T
  {
    x
  }

  /** Among distinct elements with equal scores, the cut keeps the earlier:
      if the later one made the top list, so did the earlier one. */
  lemma {:induction false} TopKeepsEarlierTie<T>(xs: seq<T>, score: T -> real, n: nat, i: nat, j: nat)
    requires DistinctBy(xs, Id)
    requires i < j < |xs| && score(xs[i]) == score(xs[j])
    requires xs[j] in Top(xs, score, n)
    ensures xs[i] in Top(xs, score, n)
  {
    var s := SortDesc(xs, score);
    var top := Top(xs, score, n);
    SortKeepsTies(xs, score, i, j);
    var a, b :| 0 <= a < b < |s| && s[a] == xs[i] && s[b] == xs[j];
    var k := IndexOf(top, xs[j]);
    assert s[k] == xs[j];
    DistinctByPerm(xs, s, Id);
    assert k == b;
    assert top[a] == xs[i];
  }

  /** Whenever `kept` holds an element of `xs`, it also holds every earlier
      element of `xs` with the same score. */
  ghost predicate KeepsEarlierTies<T>(xs: seq<T>, score: T -> real, kept: seq<T>)
  {
    forall i, j :: 0 <= i < j < |xs| && score(xs[i]) == score(xs[j]) && xs[j] in kept ==> xs[i] in kept
  }

  /** `TopKeepsEarlierTie` for every pair at once. */
  lemma {:induction false} TopKeepsEarlierTies<T>(xs: seq<T>, score: T -> real, n: nat)
    ensures DistinctBy(xs, Id) ==> KeepsEarlierTies(xs, score, Top(xs, score, n))
  {
    if DistinctBy(xs, Id) {
      forall i, j | 0 <= i < j < |xs| && score(xs[i]) == score(xs[j]) && xs[j] in Top(xs, score, n)
        ensures xs[i] in Top(xs, score, n)
      {
        TopKeepsEarlierTie(xs, score, n, i, j);
      }
    }
  }

  /** The top list is ordered, bounded, drawn from `xs`, and no element left
      out of it scores higher than an element in it; among distinct elements
      of equal score it keeps the earlier ones. */
  lemma {:induction false} TopSpec<T>(xs: seq<T>, score: T -> real, n: nat)
    ensures |Top(xs, score, n)| <= n && |Top(xs, score, n)| <= |xs|
    ensures NonIncreasing(Top(xs, score, n), score)
    ensures multiset(Top(xs, score, n)) <= multiset(xs)
    ensures |xs| <= n ==> multiset(Top(xs, score, n)) == multiset(xs)
    ensures forall y, t :: y in xs && y !in Top(xs, score, n) && t in Top(xs, score, n) ==> score(t) >= score(y)
    ensures DistinctBy(xs, Id) ==> KeepsEarlierTies(xs, score, Top(xs, score, n))
  {
    TopCut(xs, score, n);
    TopDominates(xs, score, n);
    TopKeepsEarlierTies(xs, score, n);
  }

  /** The size, order and contents clauses of `TopSpec`. */
  lemma {:induction false} TopCut<T>(xs: seq<T>, score: T -> real, n: nat)
    ensures |Top(xs, score, n)| <= n && |Top(xs, score, n)| <= |xs|
    ensures NonIncreasing(Top(xs, score, n), score)
    ensures multiset(Top(xs, score, n)) <= multiset(xs)
    ensures |xs| <= n ==> multiset(Top(xs, score, n)) == multiset(xs)
  {
    var s := SortDesc(xs, score);
    var top := Top(xs, score, n);
    if |s| > n {
      assert s == top + s[n..];
      assert multiset(s) == multiset(top) + multiset(s[n..]);
    }
  }

  /** `TopDominatesAt` for every pair at once. */
  lemma {:induction false} TopDominates<T>(xs: seq<T>, score: T -> real, n: nat)
    ensures forall y, t :: y in xs && y !in Top(xs, score, n) && t in Top(xs, score, n) ==> score(t) >= score(y)
  {
    forall y, t | y in xs && y !in Top(xs, score, n) && t in Top(xs, score, n) ensures score(t) >= score(y) {
      TopDominatesAt(xs, score, n, y, t);
    }
  }

  /** An element left out of the top list scores no higher than one in it;
      `TopSpec` states this for all pairs. */
  lemma {:induction false} TopDominatesAt<T>(xs: seq<T>, score: T -> real, n: nat, y: T, t: T)
    requires y in xs && y !in Top(xs, score, n) && t in Top(xs, score, n)
    ensures score(t) >= score(y)
  {
    var s := SortDesc(xs, score);
    var top := Top(xs, score, n);
    assert y in multiset(s);
    var j := IndexOf(s, y);
    var i := IndexOf(top, t);
    assert s[i] == t;
    assert j >= |top|;
  }
}
