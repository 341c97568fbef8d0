/** Generic sequence helpers: the `filter`, `map` and summing `reduce` of the
    source languages, with the facts the report and cart proofs rely on. */
module Seqs {
  import opened Wrappers

  /** The elements of `xs` that satisfy `p`, in their original order. */
  function Filter<T>(xs: seq<T>, p: T -> bool): (r: seq<T>)
    ensures |r| <= |xs|
    ensures forall i :: 0 <= i < |r| ==> r[i] in xs && p(r[i])
    ensures (forall i :: 0 <= i < |xs| ==> p(xs[i])) ==> r == xs
  {
    if |xs| == 0 then [] else (if p(xs[0]) then [xs[0]] else []) + Filter(xs[1..], p)
  }

  /** An element survives the filter exactly when it passes the predicate. */
  lemma {:induction false} FilterMember<T>(xs: seq<T>, p: T -> bool, x: T)
    ensures x in Filter(xs, p) <==> x in xs && p(x)
  {
    if |xs| > 0 {
      FilterMember(xs[1..], p, x);
      assert x in xs <==> x == xs[0] || x in xs[1..];
    }
  }

  /** `f` applied to every element, in order. */
  function Map<T, U>(xs: seq<T>, f: T -> U): (r: seq<U>)
    ensures |r| == |xs|
    ensures forall i :: 0 <= i < |xs| ==> r[i] == f(xs[i])
  {
    seq(|xs|, i requires 0 <= i < |xs| => f(xs[i]))
  }

  /** The sum of `f` over `xs`; 0 for the empty sequence. */
  function SumOf<T>(xs: seq<T>, f: T -> real): real
  {
    if |xs| == 0 then 0.0 else f(xs[0]) + SumOf(xs[1..], f)
  }

  /** The sum of the natural numbers `f` yields over `xs`. */
  function SumNat<T>(xs: seq<T>, f: T -> nat): nat
  {
    if |xs| == 0 then 0 else f(xs[0]) + SumNat(xs[1..], f)
  }

  /** The number of elements of `xs` that satisfy `p`. */
  function Count<T>(xs: seq<T>, p: T -> bool): nat
  {
    |Filter(xs, p)|
  }

  /** No two positions of `xs` carry equal keys. */
  ghost predicate DistinctBy<T, K>(xs: seq<T>, key: T -> K)
  {
    forall i, j :: 0 <= i < j < |xs| ==> key(xs[i]) != key(xs[j])
  }

  lemma {:induction false} SumOfAppend<T>(a: seq<T>, b: seq<T>, f: T -> real)
    ensures SumOf(a + b, f) == SumOf(a, f) + SumOf(b, f)
  {
    if |a| == 0 {
      assert a + b == b;
    } else {
      assert (a + b)[1..] == a[1..] + b;
      SumOfAppend(a[1..], b, f);
    }
  }

  lemma {:induction false} SumNatAppend<T>(a: seq<T>, b: seq<T>, f: T -> nat)
    ensures SumNat(a + b, f) == SumNat(a, f) + SumNat(b, f)
  {
    if |a| == 0 {
      assert a + b == b;
    } else {
      assert (a + b)[1..] == a[1..] + b;
      SumNatAppend(a[1..], b, f);
    }
  }

  /** Summing the last element separately, as a left-to-right loop does. */
  lemma {:induction false} SumOfSnoc<T>(xs: seq<T>, f: T -> real)
    requires |xs| > 0
    ensures SumOf(xs, f) == SumOf(xs[..|xs| - 1], f) + f(xs[|xs| - 1])
  {
    assert xs == xs[..|xs| - 1] + [xs[|xs| - 1]];
    SumOfAppend(xs[..|xs| - 1], [xs[|xs| - 1]], f);
  }

  lemma {:induction false} SumNatSnoc<T>(xs: seq<T>, f: T -> nat)
    requires |xs| > 0
    ensures SumNat(xs, f) == SumNat(xs[..|xs| - 1], f) + f(xs[|xs| - 1])
  {
    assert xs == xs[..|xs| - 1] + [xs[|xs| - 1]];
    SumNatAppend(xs[..|xs| - 1], [xs[|xs| - 1]], f);
  }

  /** Removing position `j` takes exactly that element's share out of the sum. */
  lemma {:induction false} SumOfRemove<T>(xs: seq<T>, j: nat, f: T -> real)
    requires j < |xs|
    ensures SumOf(xs, f) == f(xs[j]) + SumOf(xs[..j] + xs[j + 1..], f)
  {
    var front, back := xs[..j], xs[j + 1..];
    var tail := [xs[j]] + back;
    assert SumOf(tail, f) == f(xs[j]) + SumOf(back, f) by {
      assert tail[0] == xs[j] && tail[1..] == back;
    }
    assert SumOf(xs, f) == SumOf(front, f) + SumOf(tail, f) by {
      assert xs == front + tail;
      SumOfAppend(front, tail, f);
    }
    SumOfAppend(front, back, f);
  }

  lemma {:induction false} SumNatRemove<T>(xs: seq<T>, j: nat, f: T -> nat)
    requires j < |xs|
    ensures SumNat(xs, f) == f(xs[j]) + SumNat(xs[..j] + xs[j + 1..], f)
  {
    assert xs == xs[..j] + ([xs[j]] + xs[j + 1..]);
    SumNatAppend(xs[..j], [xs[j]] + xs[j + 1..], f);
    SumNatAppend(xs[..j], xs[j + 1..], f);
  }

  /** Any element of `ys` has a position. */
  lemma {:induction false} IndexOf<T>(ys: seq<T>, x: T) returns (j: nat)
    requires x in ys
    ensures j < |ys| && ys[j] == x
  {
    j :| 0 <= j < |ys| && ys[j] == x;
  }

  /** Removing one occurrence of `ys[j]` from both sides keeps a permutation. */
  lemma {:induction false} PermRemove<T>(xs: seq<T>, ys: seq<T>, j: nat)
    requires |xs| > 0 && j < |ys| && ys[j] == xs[0]
    requires multiset(xs) == multiset(ys)
    ensures multiset(xs[1..]) == multiset(ys[..j] + ys[j + 1..])
  {
    assert xs == [xs[0]] + xs[1..];
    assert multiset(xs) == multiset{xs[0]} + multiset(xs[1..]);
    assert ys == ys[..j] + [ys[j]] + ys[j + 1..];
    assert multiset(ys) == multiset(ys[..j]) + multiset{ys[j]} + multiset(ys[j + 1..]);
    assert multiset(ys[..j] + ys[j + 1..]) == multiset(ys[..j]) + multiset(ys[j + 1..]);
    assert multiset(xs[1..]) == multiset(ys) - multiset{xs[0]};
  }

  /** Sums do not depend on the order of the summands. */
  lemma {:induction false} SumOfPerm<T>(xs: seq<T>, ys: seq<T>, f: T -> real)
    requires multiset(xs) == multiset(ys)
    ensures SumOf(xs, f) == SumOf(ys, f)
    decreases |xs|
  {
    if |xs| == 0 {
      assert |ys| == |multiset(ys)| == 0;
    } else {
      assert xs[0] in multiset(ys);
      var j := IndexOf(ys, xs[0]);
      PermRemove(xs, ys, j);
      SumOfPerm(xs[1..], ys[..j] + ys[j + 1..], f);
      SumOfRemove(ys, j, f);
    }
  }

  lemma {:induction false} SumNatPerm<T>(xs: seq<T>, ys: seq<T>, f: T -> nat)
    requires multiset(xs) == multiset(ys)
    ensures SumNat(xs, f) == SumNat(ys, f)
    decreases |xs|
  {
    if |xs| == 0 {
      assert |ys| == |multiset(ys)| == 0;
    } else {
      assert xs[0] in multiset(ys);
      var j := IndexOf(ys, xs[0]);
      PermRemove(xs, ys, j);
      SumNatPerm(xs[1..], ys[..j] + ys[j + 1..], f);
      SumNatRemove(ys, j, f);
    }
  }

  /** A sum of non-negative terms over a prefix never exceeds the whole sum. */
  lemma {:induction false} SumOfPrefixBound<T>(xs: seq<T>, k: nat, f: T -> real)
    requires k <= |xs|
    requires forall i :: 0 <= i < |xs| ==> f(xs[i]) >= 0.0
    ensures SumOf(xs[..k], f) <= SumOf(xs, f)
  {
    assert xs == xs[..k] + xs[k..];
    SumOfAppend(xs[..k], xs[k..], f);
    SumOfNonNegative(xs[k..], f);
  }

  lemma {:induction false} SumOfNonNegative<T>(xs: seq<T>, f: T -> real)
    requires forall i :: 0 <= i < |xs| ==> f(xs[i]) >= 0.0
    ensures SumOf(xs, f) >= 0.0
  {
    if |xs| > 0 {
      assert forall i :: 0 <= i < |xs[1..]| ==> xs[1..][i] == xs[i + 1];
      SumOfNonNegative(xs[1..], f);
    }
  }

  /** Summing over a filter is summing `g`, the terms that pass it with the
      others zeroed. */
  lemma {:induction false} SumOfFilter<T>(xs: seq<T>, p: T -> bool, f: T -> real, g: T -> real)
    requires forall i :: 0 <= i < |xs| ==> g(xs[i]) == if p(xs[i]) then f(xs[i]) else 0.0
    ensures SumOf(Filter(xs, p), f) == SumOf(xs, g)
  {
    if |xs| > 0 {
      SumOfFilter(xs[1..], p, f, g);
      SumOfAppend(if p(xs[0]) then [xs[0]] else [], Filter(xs[1..], p), f);
    }
  }

  /** Keys that are distinct in `a` stay distinct in any permutation of `a`. */
  lemma {:induction false} DistinctByPerm<T, K>(a: seq<T>, b: seq<T>, key: T -> K)
    requires multiset(a) == multiset(b)
    requires DistinctBy(a, key)
    ensures DistinctBy(b, key)
    decreases |a|
  {
    if |a| > 0 {
      assert a[0] in multiset(b);
      var j := IndexOf(b, a[0]);
      PermRemove(a, b, j);
      var b' := b[..j] + b[j + 1..];
      assert DistinctBy(a[1..], key) by {
        forall p, q | 0 <= p < q < |a[1..]| ensures key(a[1..][p]) != key(a[1..][q]) {
          assert a[1..][p] == a[p + 1] && a[1..][q] == a[q + 1];
        }
      }
      DistinctByPerm(a[1..], b', key);
      forall y | y in b' ensures key(y) != key(a[0]) {
        assert y in multiset(a[1..]);
        var k := IndexOf(a[1..], y);
        assert a[k + 1] == y;
      }
      forall p, q | 0 <= p < q < |b| ensures key(b[p]) != key(b[q]) {
        if p == j {
          assert b[q] == b'[q - 1];
        } else if q == j {
          assert b[p] == b'[p];
        } else {
          var p' := if p < j then p else p - 1;
          var q' := if q < j then q else q - 1;
          assert b[p] == b'[p'] && b[q] == b'[q'];
        }
      }
    }
  }

  /** Filtering distributes over concatenation. */
  lemma {:induction false} FilterAppend<T>(a: seq<T>, b: seq<T>, p: T -> bool)
    ensures Filter(a + b, p) == Filter(a, p) + Filter(b, p)
  {
    if |a| == 0 {
      assert a + b == b;
    } else {
      assert (a + b)[1..] == a[1..] + b;
      FilterAppend(a[1..], b, p);
    }
  }

  /** Two predicates that agree on every element select the same elements. */
  lemma {:induction false} FilterCongruent<T>(xs: seq<T>, p: T -> bool, q: T -> bool)
    requires forall i :: 0 <= i < |xs| ==> p(xs[i]) == q(xs[i])
    ensures Filter(xs, p) == Filter(xs, q)
  {
    if |xs| > 0 {
      FilterCongruent(xs[1..], p, q);
    }
  }

  /** Filtering twice is filtering by the conjunction. */
  lemma {:induction false} FilterFilter<T>(xs: seq<T>, p: T -> bool, q: T -> bool, both: T -> bool)
    requires forall i :: 0 <= i < |xs| ==> both(xs[i]) == (p(xs[i]) && q(xs[i]))
    ensures Filter(Filter(xs, p), q) == Filter(xs, both)
  {
    if |xs| > 0 {
      FilterFilter(xs[1..], p, q, both);
      FilterAppend(if p(xs[0]) then [xs[0]] else [], Filter(xs[1..], p), q);
    }
  }

  /** A predicate no element passes selects nothing. */
  lemma {:induction false} FilterNone<T>(xs: seq<T>, p: T -> bool)
    requires forall i :: 0 <= i < |xs| ==> !p(xs[i])
    ensures Filter(xs, p) == []
  {
    if |xs| > 0 {
      FilterNone(xs[1..], p);
    }
  }

  /** A filter that keeps as many elements as it was given keeps all of them. */
  lemma {:induction false} KeptAll<T>(xs: seq<T>, p: T -> bool)
    requires |Filter(xs, p)| == |xs|
    ensures forall i :: 0 <= i < |xs| ==> p(xs[i])
  {
    if |xs| > 0 {
      assert |Filter(xs[1..], p)| <= |xs[1..]|;
      KeptAll(xs[1..], p);
      assert forall i :: 1 <= i < |xs| ==> xs[i] == xs[1..][i - 1];
    }
  }

  /** Two summands that agree on every element give the same sum. */
  lemma {:induction false} SumOfCongruent<T>(xs: seq<T>, f: T -> real, g: T -> real)
    requires forall i :: 0 <= i < |xs| ==> f(xs[i]) == g(xs[i])
    ensures SumOf(xs, f) == SumOf(xs, g)
  {
    if |xs| > 0 {
      SumOfCongruent(xs[1..], f, g);
    }
  }

  /** A pointwise sum of two summands sums to the sum of their sums. */
  lemma {:induction false} SumOfPlus<T>(xs: seq<T>, f: T -> real, g: T -> real, h: T -> real)
    requires forall i :: 0 <= i < |xs| ==> h(xs[i]) == f(xs[i]) + g(xs[i])
    ensures SumOf(xs, f) + SumOf(xs, g) == SumOf(xs, h)
  {
    if |xs| > 0 {
      SumOfPlus(xs[1..], f, g, h);
    }
  }

  /** Scaling every term scales the sum. */
  lemma {:induction false} SumOfScale<T>(xs: seq<T>, c: real, f: T -> real, g: T -> real)
    requires forall i :: 0 <= i < |xs| ==> g(xs[i]) == c * f(xs[i])
    ensures SumOf(xs, g) == c * SumOf(xs, f)
  {
    if |xs| > 0 {
      SumOfScale(xs[1..], c, f, g);
    }
  }

  /** A sum of non-negative terms is zero exactly when every term is. */
  lemma {:induction false} SumOfZero<T>(xs: seq<T>, f: T -> real)
    requires forall i :: 0 <= i < |xs| ==> f(xs[i]) >= 0.0
    ensures SumOf(xs, f) == 0.0 <==> forall i :: 0 <= i < |xs| ==> f(xs[i]) == 0.0
  {
    if |xs| > 0 {
      SumOfZero(xs[1..], f);
      SumOfNonNegative(xs[1..], f);
      if forall i :: 0 <= i < |xs| ==> f(xs[i]) == 0.0 {
        assert forall i :: 0 <= i < |xs[1..]| ==> f(xs[1..][i]) == 0.0 by {
          forall i | 0 <= i < |xs[1..]| ensures f(xs[1..][i]) == 0.0 {
            assert xs[1..][i] == xs[i + 1];
          }
        }
      }
      if SumOf(xs, f) == 0.0 {
        forall i | 0 <= i < |xs| ensures f(xs[i]) == 0.0 {
          if i > 0 {
            assert xs[i] == xs[1..][i - 1];
          }
        }
      }
    }
  }

  /** Replacing position `j` swaps that element's share of the sum. */
  lemma {:induction false} SumOfUpdate<T>(xs: seq<T>, j: nat, y: T, f: T -> real)
    requires j < |xs|
    ensures SumOf(xs[j := y], f) == SumOf(xs, f) - f(xs[j]) + f(y)
  {
    SumOfRemove(xs, j, f);
    SumOfRemove(xs[j := y], j, f);
    assert xs[j := y][..j] + xs[j := y][j + 1..] == xs[..j] + xs[j + 1..];
  }

  /** When every element passes exactly one of `p` and `q`, the two filters
      split both the count and the sum of `xs`. */
  lemma {:induction false} Partition2<T>(xs: seq<T>, p: T -> bool, q: T -> bool, f: T -> real)
    requires forall i :: 0 <= i < |xs| ==> p(xs[i]) != q(xs[i])
    ensures |Filter(xs, p)| + |Filter(xs, q)| == |xs|
    ensures SumOf(Filter(xs, p), f) + SumOf(Filter(xs, q), f) == SumOf(xs, f)
  {
    if |xs| > 0 {
      Partition2(xs[1..], p, q, f);
      SumOfAppend(if p(xs[0]) then [xs[0]] else [], Filter(xs[1..], p), f);
      SumOfAppend(if q(xs[0]) then [xs[0]] else [], Filter(xs[1..], q), f);
    }
  }

  /** The three-way version of `Partition2`, for sums. */
  lemma {:induction false} Partition3<T>(xs: seq<T>, p: T -> bool, q: T -> bool, r: T -> bool, f: T -> real)
    requires forall i :: 0 <= i < |xs| ==>
      (p(xs[i]) && !q(xs[i]) && !r(xs[i])) || (!p(xs[i]) && q(xs[i]) && !r(xs[i])) || (!p(xs[i]) && !q(xs[i]) && r(xs[i]))
    ensures SumOf(Filter(xs, p), f) + SumOf(Filter(xs, q), f) + SumOf(Filter(xs, r), f) == SumOf(xs, f)
  {
    if |xs| > 0 {
      Partition3(xs[1..], p, q, r, f);
      SumOfAppend(if p(xs[0]) then [xs[0]] else [], Filter(xs[1..], p), f);
      SumOfAppend(if q(xs[0]) then [xs[0]] else [], Filter(xs[1..], q), f);
      SumOfAppend(if r(xs[0]) then [xs[0]] else [], Filter(xs[1..], r), f);
    }
  }

  /** Summing over a mapped sequence is summing the composed terms. */
  lemma {:induction false} SumOfMap<T, U>(xs: seq<T>, f: T -> U, g: U -> real, h: T -> real)
    requires forall i :: 0 <= i < |xs| ==> g(f(xs[i])) == h(xs[i])
    ensures SumOf(Map(xs, f), g) == SumOf(xs, h)
  {
    if |xs| > 0 {
      assert Map(xs, f)[1..] == Map(xs[1..], f);
      SumOfMap(xs[1..], f, g, h);
    }
  }

  lemma {:induction false} SumNatMap<T, U>(xs: seq<T>, f: T -> U, g: U -> nat, h: T -> nat)
    requires forall i :: 0 <= i < |xs| ==> g(f(xs[i])) == h(xs[i])
    ensures SumNat(Map(xs, f), g) == SumNat(xs, h)
  {
    if |xs| > 0 {
      assert Map(xs, f)[1..] == Map(xs[1..], f);
      SumNatMap(xs[1..], f, g, h);
    }
  }

  /** The elements of a sequence, as a set. */
  function Elements<T>(xs: seq<T>): set<T>
  {
    set x | x in xs
  }

  /** A sequence without repeats has as many distinct elements as positions. */
  lemma {:induction false} DistinctCardinality<T>(xs: seq<T>)
    requires forall i, j :: 0 <= i < j < |xs| ==> xs[i] != xs[j]
    ensures |Elements(xs)| == |xs|
  {
    if |xs| > 0 {
      var init := xs[..|xs| - 1];
      DistinctCardinality(init);
      assert Elements(xs) == Elements(init) + {xs[|xs| - 1]};
    }
  }

  /** Filtering and summing after a map equals filtering and summing before
      it, with the predicate and the summand read through the map. */
  lemma {:induction false} SumOfFilterMap<T, U>(xs: seq<T>, m: T -> U, p: U -> bool, q: T -> bool, f: U -> real, g: T -> real)
    requires forall i :: 0 <= i < |xs| ==> p(m(xs[i])) == q(xs[i]) && f(m(xs[i])) == g(xs[i])
    ensures |Filter(Map(xs, m), p)| == |Filter(xs, q)|
    ensures SumOf(Filter(Map(xs, m), p), f) == SumOf(Filter(xs, q), g)
  {
    if |xs| > 0 {
      var ys := Map(xs, m);
      assert ys[1..] == Map(xs[1..], m);
      SumOfFilterMap(xs[1..], m, p, q, f, g);
      var mine := if p(ys[0]) then [ys[0]] else [];
      var theirs := if q(xs[0]) then [xs[0]] else [];
      assert Filter(ys, p) == mine + Filter(ys[1..], p);
      assert Filter(xs, q) == theirs + Filter(xs[1..], q);
      SumOfAppend(mine, Filter(ys[1..], p), f);
      SumOfAppend(theirs, Filter(xs[1..], q), g);
    }
  }

  /** The first `n` elements of `xs` (Python `xs[:n]`, JavaScript
      `xs.slice(0, n)` and `s.substring(0, n)`). */
  function Take<T>(xs: seq<T>, n: nat): (r: seq<T>)
    ensures |r| == if |xs| < n then |xs| else n
    ensures r <= xs
  {
    if |xs| <= n then xs else xs[..n]
  }

  /** `x` sits at some position of `xs`, satisfies `p`, and no earlier
      element does. */
  ghost predicate FirstMatch<T>(xs: seq<T>, p: T -> bool, x: T)
  {
    exists i :: 0 <= i < |xs| && xs[i] == x && p(x) && NoneBefore(xs, p, i)
  }

  /** No element before position `i` satisfies `p`. */
  ghost predicate NoneBefore<T>(xs: seq<T>, p: T -> bool, i: int)
  {
    forall k :: 0 <= k < i && k < |xs| ==> !p(xs[k])
  }

  /** `xs.find(p)`: the first element that satisfies `p`, or none. */
  function Find<T>(xs: seq<T>, p: T -> bool): (r: Option<T>)
    ensures r.None? <==> forall i :: 0 <= i < |xs| ==> !p(xs[i])
    ensures r.Some? ==> FirstMatch(xs, p, r.value)
  {
    if |xs| == 0 then None
    else if p(xs[0]) then
      assert NoneBefore(xs, p, 0);
      Some(xs[0])
    else
      var r := Find(xs[1..], p);
      assert r.Some? ==> FirstMatch(xs, p, r.value) by {
        if r.Some? {
          var i :| 0 <= i < |xs[1..]| && xs[1..][i] == r.value && p(r.value) && NoneBefore(xs[1..], p, i);
          assert NoneBefore(xs, p, i + 1) by {
            forall k | 0 <= k < i + 1 && k < |xs| ensures !p(xs[k]) {
              if k > 0 {
                assert xs[k] == xs[1..][k - 1];
              }
            }
          }
        }
      }
      r
  }
}
