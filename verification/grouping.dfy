/** The "dictionary of running totals" pattern every report uses:
    `groups.setdefault(key, {...})` followed by `+=` in Python, and
    `acc[key] = (acc[key] || 0) + x` in TypeScript. A dictionary is modelled as
    a list of groups in the order their keys first appeared, which is the
    iteration order of both a Python `dict` and a JavaScript object whose
    keys are not integer-like. */
module Grouping {
  import opened Seqs

  /** One contribution to a group: its key, the display name it offers, and
      the quantity and amount it adds. */
  datatype Event<K> = Event(key: K, name: string, quantity: real, amount: real)

  /** An accumulated group: the name of the first contribution (as
      `setdefault` keeps it), how many contributions it received, and the
      summed quantity and amount. */
  datatype Group<K> = Group(key: K, name: string, hits: nat, quantity: real, amount: real)

  function EventKey<K>(e: Event<K>): K { e.key }
  function EventAmount<K>(e: Event<K>): real { e.amount }
  function EventQuantity<K>(e: Event<K>): real { e.quantity }
  function GroupKey<K>(g: Group<K>): K { g.key }
  function GroupAmount<K>(g: Group<K>): real { g.amount }
  function GroupQuantity<K>(g: Group<K>): real { g.quantity }
  function GroupHits<K>(g: Group<K>): nat { g.hits }
  function One<K>(e: Event<K>): nat { 1 }

  /** The keys of a list of groups, in list order. */
  function KeysOf<K>(gs: seq<Group<K>>): (ks: seq<K>)
    ensures |ks| == |gs|
    ensures forall i :: 0 <= i < |gs| ==> ks[i] == gs[i].key
  {
    Map(gs, GroupKey)
  }

  /** The keys of the events, in event order, repeats included. */
  function EventKeys<K>(es: seq<Event<K>>): (ks: seq<K>)
    ensures |ks| == |es|
    ensures forall i :: 0 <= i < |es| ==> ks[i] == es[i].key
  {
    Map(es, EventKey)
  }

  lemma EventKeysAppend<K>(a: seq<Event<K>>, b: seq<Event<K>>)
    ensures EventKeys(a + b) == EventKeys(a) + EventKeys(b)
  {
    assert forall i :: 0 <= i < |a| + |b| ==> EventKeys(a + b)[i] == (EventKeys(a) + EventKeys(b))[i];
  }

  /** Reordering groups keeps the set of their keys. */
  lemma PermKeys<K>(a: seq<Group<K>>, b: seq<Group<K>>)
    requires multiset(a) == multiset(b)
    ensures forall k :: k in KeysOf(a) <==> k in KeysOf(b)
  {
    forall k ensures k in KeysOf(a) ==> k in KeysOf(b) {
      if k in KeysOf(a) {
        var i :| 0 <= i < |a| && KeysOf(a)[i] == k;
        assert a[i] in multiset(b);
        var j := IndexOf(b, a[i]);
        assert KeysOf(b)[j] == k;
      }
    }
    forall k ensures k in KeysOf(b) ==> k in KeysOf(a) {
      if k in KeysOf(b) {
        var j :| 0 <= j < |b| && KeysOf(b)[j] == k;
        assert b[j] in multiset(a);
        var i := IndexOf(a, b[j]);
        assert KeysOf(a)[i] == k;
      }
    }
  }

  /** The keys of `ks` without repeats, each at its first appearance. */
  function FirstAppearances<K(==)>(ks: seq<K>): seq<K>
  {
    if |ks| == 0 then []
    else
      var d := FirstAppearances(ks[..|ks| - 1]);
      if ks[|ks| - 1] in d then d else d + [ks[|ks| - 1]]
  }

  /** Adds one event to the running groups: bumps the group with the same
      key, or opens a new group at the end. */
  function Absorb<K(==)>(gs: seq<Group<K>>, e: Event<K>): (r: seq<Group<K>>)
    ensures |gs| <= |r| <= |gs| + 1
  {
    if |gs| == 0 then [Group(e.key, e.name, 1, e.quantity, e.amount)]
    else if gs[0].key == e.key then
      [gs[0].(hits := gs[0].hits + 1, quantity := gs[0].quantity + e.quantity, amount := gs[0].amount + e.amount)] + gs[1..]
    else [gs[0]] + Absorb(gs[1..], e)
  }

  /** The groups after feeding all events, left to right. */
  function GroupBy<K(==)>(es: seq<Event<K>>): seq<Group<K>>
  {
    if |es| == 0 then [] else Absorb(GroupBy(es[..|es| - 1]), es[|es| - 1])
  }

  /** Selects the events with key `k`. */
  function KeyIs<K(==)>(k: K): Event<K> -> bool
  {
    (e: Event<K>) => e.key == k
  }

  /** Reference definitions of what a single group should hold. */
  function Matching<K(==)>(es: seq<Event<K>>, k: K): seq<Event<K>>
  {
    Filter(es, KeyIs(k))
  }

  function AmountAt<K(==)>(es: seq<Event<K>>, k: K): real
  {
    SumOf(Matching(es, k), EventAmount)
  }

  function QuantityAt<K(==)>(es: seq<Event<K>>, k: K): real
  {
    SumOf(Matching(es, k), EventQuantity)
  }

  function HitsAt<K(==)>(es: seq<Event<K>>, k: K): nat
  {
    |Matching(es, k)|
  }

  /** The name `setdefault` keeps: that of the first event with key `k`. */
  function FirstName<K(==)>(es: seq<Event<K>>, k: K): string
  {
    if |es| == 0 then "" else if es[0].key == k then es[0].name else FirstName(es[1..], k)
  }

  /** Filtering the last event separately, as the fold does. */
  lemma {:induction false} MatchingSnoc<K>(es: seq<Event<K>>, k: K)
    requires |es| > 0
    ensures Matching(es, k) == Matching(es[..|es| - 1], k) + (if es[|es| - 1].key == k then [es[|es| - 1]] else [])
  {
    FilterSnoc(es, KeyIs(k));
  }

  lemma {:induction false} FilterSnoc<T>(xs: seq<T>, p: T -> bool)
    requires |xs| > 0
    ensures Filter(xs, p) == Filter(xs[..|xs| - 1], p) + (if p(xs[|xs| - 1]) then [xs[|xs| - 1]] else [])
  {
    if |xs| > 1 {
      assert xs[1..][..|xs[1..]| - 1] == xs[..|xs| - 1][1..];
      FilterSnoc(xs[1..], p);
    }
  }

  lemma {:induction false} FirstNameSnoc<K>(es: seq<Event<K>>, k: K)
    requires |es| > 0
    ensures FirstName(es, k) == if k in EventKeys(es[..|es| - 1]) then FirstName(es[..|es| - 1], k)
                                else if es[|es| - 1].key == k then es[|es| - 1].name else ""
  {
    if |es| > 1 && es[0].key != k {
      assert es[1..][..|es[1..]| - 1] == es[..|es| - 1][1..];
      FirstNameSnoc(es[1..], k);
      assert k in EventKeys(es[..|es| - 1]) <==> k in EventKeys(es[1..][..|es[1..]| - 1]) by {
        if k in EventKeys(es[..|es| - 1]) {
          var i :| 0 <= i < |es| - 1 && EventKeys(es[..|es| - 1])[i] == k;
          assert EventKeys(es[1..][..|es[1..]| - 1])[i - 1] == k;
        }
        if k in EventKeys(es[1..][..|es[1..]| - 1]) {
          var i :| 0 <= i < |es| - 2 && EventKeys(es[1..][..|es[1..]| - 1])[i] == k;
          assert EventKeys(es[..|es| - 1])[i + 1] == k;
        }
      }
    } else if |es| > 1 {
      assert EventKeys(es[..|es| - 1])[0] == k;
    }
  }

  /** The keys after one `Absorb` step: unchanged when the key is known,
      otherwise extended by it. */
  lemma {:induction false} AbsorbKeys<K>(gs: seq<Group<K>>, e: Event<K>)
    ensures KeysOf(Absorb(gs, e)) == if e.key in KeysOf(gs) then KeysOf(gs) else KeysOf(gs) + [e.key]
  {
    if |gs| > 0 && gs[0].key != e.key {
      var rest := Absorb(gs[1..], e);
      AbsorbKeys(gs[1..], e);
      KeyInTail(gs, e.key);
      assert KeysOf(gs) == [gs[0].key] + KeysOf(gs[1..]) by {
        assert gs == [gs[0]] + gs[1..];
        KeysOfCons(gs[0], gs[1..]);
      }
      assert KeysOf(Absorb(gs, e)) == [gs[0].key] + KeysOf(rest) by {
        KeysOfCons(gs[0], rest);
      }
    } else if |gs| > 0 {
      assert KeysOf(Absorb(gs, e)) == KeysOf(gs);
      assert KeysOf(gs)[0] == e.key;
    }
  }

  lemma KeysOfCons<K>(g: Group<K>, gs: seq<Group<K>>)
    ensures KeysOf([g] + gs) == [g.key] + KeysOf(gs)
  {
  }

  /** Dropping the head of a list with distinct keys keeps them distinct. */
  lemma {:induction false} DistinctTail<K>(gs: seq<Group<K>>)
    requires |gs| > 0 && DistinctBy(gs, GroupKey)
    ensures DistinctBy(gs[1..], GroupKey)
  {
    forall p, q | 0 <= p < q < |gs[1..]| ensures gs[1..][p].key != gs[1..][q].key {
      assert gs[1..][p] == gs[p + 1] && gs[1..][q] == gs[q + 1];
    }
  }

  /** A key other than the head's is among the keys exactly when it is
      among the tail's. */
  lemma {:induction false} KeyInTail<K>(gs: seq<Group<K>>, k: K)
    requires |gs| > 0 && gs[0].key != k
    ensures k in KeysOf(gs) <==> k in KeysOf(gs[1..])
  {
    if k in KeysOf(gs) {
      var j :| 0 <= j < |gs| && KeysOf(gs)[j] == k;
      assert KeysOf(gs[1..])[j - 1] == k;
    }
    if k in KeysOf(gs[1..]) {
      var j :| 0 <= j < |gs| - 1 && KeysOf(gs[1..])[j] == k;
      assert KeysOf(gs)[j + 1] == k;
    }
  }

  /** A group whose key differs from the event's is left in place. */
  lemma {:induction false} AbsorbKeepsOthers<K>(gs: seq<Group<K>>, e: Event<K>)
    ensures forall i :: 0 <= i < |gs| && gs[i].key != e.key ==> Absorb(gs, e)[i] == gs[i]
  {
    if |gs| > 0 {
      var r := Absorb(gs, e);
      if gs[0].key != e.key {
        AbsorbKeepsOthers(gs[1..], e);
        assert r == [gs[0]] + Absorb(gs[1..], e);
        forall i | 1 <= i < |gs| && gs[i].key != e.key ensures r[i] == gs[i] {
          assert r[i] == Absorb(gs[1..], e)[i - 1] && gs[1..][i - 1] == gs[i];
        }
      } else {
        assert r == [r[0]] + gs[1..];
      }
    }
  }

  /** With distinct keys, the group carrying the event's key absorbs it. */
  lemma {:induction false} AbsorbBumps<K>(gs: seq<Group<K>>, e: Event<K>)
    requires DistinctBy(gs, GroupKey)
    ensures forall i :: 0 <= i < |gs| && gs[i].key == e.key ==>
      Absorb(gs, e)[i] == gs[i].(hits := gs[i].hits + 1, quantity := gs[i].quantity + e.quantity, amount := gs[i].amount + e.amount)
  {
    if |gs| > 0 {
      var r := Absorb(gs, e);
      if gs[0].key != e.key {
        DistinctTail(gs);
        AbsorbBumps(gs[1..], e);
        assert r == [gs[0]] + Absorb(gs[1..], e);
        forall i | 1 <= i < |gs| && gs[i].key == e.key
          ensures r[i] == gs[i].(hits := gs[i].hits + 1, quantity := gs[i].quantity + e.quantity, amount := gs[i].amount + e.amount)
        {
          assert r[i] == Absorb(gs[1..], e)[i - 1] && gs[1..][i - 1] == gs[i];
        }
      } else {
        forall i | 1 <= i < |gs| ensures gs[i].key != e.key {
          assert GroupKey(gs[0]) != GroupKey(gs[i]);
        }
      }
    }
  }

  /** A new key opens its group right after the existing ones. */
  lemma {:induction false} AbsorbAppends<K>(gs: seq<Group<K>>, e: Event<K>)
    ensures e.key !in KeysOf(gs) ==>
      |Absorb(gs, e)| == |gs| + 1 && Absorb(gs, e)[|gs|] == Group(e.key, e.name, 1, e.quantity, e.amount)
  {
    if |gs| > 0 && e.key !in KeysOf(gs) {
      assert KeysOf(gs)[0] == gs[0].key;
      KeyInTail(gs, e.key);
      AbsorbAppends(gs[1..], e);
      assert Absorb(gs, e) == [gs[0]] + Absorb(gs[1..], e);
    }
  }

  /** What one `Absorb` step does to the list of groups. */
  lemma {:induction false} AbsorbSpec<K>(gs: seq<Group<K>>, e: Event<K>)
    requires DistinctBy(gs, GroupKey)
    ensures KeysOf(Absorb(gs, e)) == if e.key in KeysOf(gs) then KeysOf(gs) else KeysOf(gs) + [e.key]
    ensures forall i :: 0 <= i < |gs| && gs[i].key != e.key ==> Absorb(gs, e)[i] == gs[i]
    ensures forall i :: 0 <= i < |gs| && gs[i].key == e.key ==>
      Absorb(gs, e)[i] == gs[i].(hits := gs[i].hits + 1, quantity := gs[i].quantity + e.quantity, amount := gs[i].amount + e.amount)
    ensures e.key !in KeysOf(gs) ==> Absorb(gs, e)[|gs|] == Group(e.key, e.name, 1, e.quantity, e.amount)
  {
    AbsorbKeys(gs, e);
    AbsorbKeepsOthers(gs, e);
    AbsorbBumps(gs, e);
    AbsorbAppends(gs, e);
  }

  /** The groups appear in first-appearance order of their keys, one per key. */
  lemma {:induction false} GroupByKeys<K>(es: seq<Event<K>>)
    ensures KeysOf(GroupBy(es)) == FirstAppearances(EventKeys(es))
    decreases |es|, 0
  {
    if |es| > 0 {
      var init, e := es[..|es| - 1], es[|es| - 1];
      var ks := EventKeys(es);
      var d := FirstAppearances(EventKeys(init));
      assert FirstAppearances(ks) == if e.key in d then d else d + [e.key] by {
        assert ks[..|ks| - 1] == EventKeys(init);
      }
      assert KeysOf(GroupBy(es)) == if e.key in d then d else d + [e.key] by {
        GroupByKeys(init);
        AbsorbKeys(GroupBy(init), e);
      }
    }
  }

  lemma {:induction false} FirstAppearancesSpec<K>(ks: seq<K>)
    ensures forall k :: k in FirstAppearances(ks) <==> k in ks
    ensures forall i, j :: 0 <= i < j < |FirstAppearances(ks)| ==> FirstAppearances(ks)[i] != FirstAppearances(ks)[j]
  {
    if |ks| > 0 {
      FirstAppearancesSpec(ks[..|ks| - 1]);
      assert ks == ks[..|ks| - 1] + [ks[|ks| - 1]];
    }
  }

  /** Every group holds exactly the contributions of the events with its key. */
  lemma {:induction false} GroupByContents<K>(es: seq<Event<K>>)
    ensures forall i :: 0 <= i < |GroupBy(es)| ==>
      var g := GroupBy(es)[i];
      g.hits == HitsAt(es, g.key) && g.amount == AmountAt(es, g.key) &&
      g.quantity == QuantityAt(es, g.key) && g.name == FirstName(es, g.key)
  {
    forall i | 0 <= i < |GroupBy(es)|
      ensures GroupBy(es)[i].hits == HitsAt(es, GroupBy(es)[i].key)
      ensures GroupBy(es)[i].amount == AmountAt(es, GroupBy(es)[i].key)
      ensures GroupBy(es)[i].quantity == QuantityAt(es, GroupBy(es)[i].key)
      ensures GroupBy(es)[i].name == FirstName(es, GroupBy(es)[i].key)
    {
      GroupAt(es, i);
    }
  }

  /** No event carries key `k` when `k` is not among the event keys. */
  lemma {:induction false} MatchingEmpty<K>(es: seq<Event<K>>, k: K)
    requires k !in EventKeys(es)
    ensures Matching(es, k) == []
  {
    if Matching(es, k) != [] {
      var x := Matching(es, k)[0];
      FilterMember(es, KeyIs(k), x);
    }
  }

  /** How the reference totals of key `k` change when one more event is
      fed in. */
  lemma {:induction false} AtSnoc<K>(es: seq<Event<K>>, k: K)
    requires |es| > 0
    ensures var init, e := es[..|es| - 1], es[|es| - 1];
      HitsAt(es, k) == HitsAt(init, k) + (if e.key == k then 1 else 0) &&
      AmountAt(es, k) == AmountAt(init, k) + (if e.key == k then e.amount else 0.0) &&
      QuantityAt(es, k) == QuantityAt(init, k) + (if e.key == k then e.quantity else 0.0)
  {
    var init, e := es[..|es| - 1], es[|es| - 1];
    var extra := if e.key == k then [e] else [];
    MatchingSnoc(es, k);
    SumOfAppend(Matching(init, k), extra, EventAmount);
    SumOfAppend(Matching(init, k), extra, EventQuantity);
  }

  /** The group at position `i` holds what the reference definitions
      prescribe for its key. */
  lemma {:induction false} GroupAt<K>(es: seq<Event<K>>, i: nat)
    requires i < |GroupBy(es)|
    ensures GroupBy(es)[i].hits == HitsAt(es, GroupBy(es)[i].key)
    ensures GroupBy(es)[i].amount == AmountAt(es, GroupBy(es)[i].key)
    ensures GroupBy(es)[i].quantity == QuantityAt(es, GroupBy(es)[i].key)
    ensures GroupBy(es)[i].name == FirstName(es, GroupBy(es)[i].key)
    decreases |es|, 1
  {
    var init := es[..|es| - 1];
    var gs := GroupBy(init);
    if i < |gs| {
      GroupAtOld(es, i);
    } else {
      GroupAtNew(es, i);
    }
  }

  /** A group that existed before the last event. */
  lemma {:induction false} GroupAtOld<K>(es: seq<Event<K>>, i: nat)
    requires |es| > 0 && i < |GroupBy(es[..|es| - 1])|
    ensures i < |GroupBy(es)|
    ensures GroupBy(es)[i].hits == HitsAt(es, GroupBy(es)[i].key)
    ensures GroupBy(es)[i].amount == AmountAt(es, GroupBy(es)[i].key)
    ensures GroupBy(es)[i].quantity == QuantityAt(es, GroupBy(es)[i].key)
    ensures GroupBy(es)[i].name == FirstName(es, GroupBy(es)[i].key)
    decreases |es|, 0
  {
    var init := es[..|es| - 1];
    var e := es[|es| - 1];
    var gs := GroupBy(init);
    var r := GroupBy(es);
    assert r == Absorb(gs, e);
    GroupAt(init, i);
    GroupByDistinct(init);
    AbsorbKeepsOthers(gs, e);
    AbsorbBumps(gs, e);
    var k := gs[i].key;
    assert r[i].key == k;
    AtSnoc(es, k);
    assert k in EventKeys(init) by {
      assert KeysOf(gs)[i] == k;
    }
    FirstNameSnoc(es, k);
  }

  /** The group the last event opened. */
  lemma {:induction false} GroupAtNew<K>(es: seq<Event<K>>, i: nat)
    requires |es| > 0 && |GroupBy(es[..|es| - 1])| <= i < |GroupBy(es)|
    ensures GroupBy(es)[i].hits == HitsAt(es, GroupBy(es)[i].key)
    ensures GroupBy(es)[i].amount == AmountAt(es, GroupBy(es)[i].key)
    ensures GroupBy(es)[i].quantity == QuantityAt(es, GroupBy(es)[i].key)
    ensures GroupBy(es)[i].name == FirstName(es, GroupBy(es)[i].key)
  {
    var init := es[..|es| - 1];
    var e := es[|es| - 1];
    var gs := GroupBy(init);
    assert e.key !in KeysOf(gs) && GroupBy(es)[i] == Group(e.key, e.name, 1, e.quantity, e.amount) by {
      assert GroupBy(es) == Absorb(gs, e);
      AbsorbKeys(gs, e);
      AbsorbAppends(gs, e);
    }
    assert e.key !in EventKeys(init) by {
      GroupByDistinct(init);
    }
    assert HitsAt(es, e.key) == 1 && AmountAt(es, e.key) == e.amount && QuantityAt(es, e.key) == e.quantity by {
      MatchingEmpty(init, e.key);
      AtSnoc(es, e.key);
    }
    FirstNameSnoc(es, e.key);
  }

  /** One group per distinct key. */
  lemma {:induction false} GroupByDistinct<K>(es: seq<Event<K>>)
    ensures DistinctBy(GroupBy(es), GroupKey)
    ensures forall k :: k in KeysOf(GroupBy(es)) <==> k in EventKeys(es)
    decreases |es|, 1
  {
    GroupByKeys(es);
    FirstAppearancesSpec(EventKeys(es));
  }

  /** Grouping loses no contribution: the totals over all groups equal the
      totals over all events. */
  lemma {:induction false} GroupByTotals<K>(es: seq<Event<K>>)
    ensures SumOf(GroupBy(es), GroupAmount) == SumOf(es, EventAmount)
    ensures SumOf(GroupBy(es), GroupQuantity) == SumOf(es, EventQuantity)
    ensures SumNat(GroupBy(es), GroupHits) == |es|
  {
    if |es| > 0 {
      var init := es[..|es| - 1];
      GroupByTotals(init);
      AbsorbTotals(GroupBy(init), es[|es| - 1]);
      SumOfSnoc(es, EventAmount);
      SumOfSnoc(es, EventQuantity);
    }
  }

  lemma {:induction false} AbsorbTotals<K>(gs: seq<Group<K>>, e: Event<K>)
    ensures SumOf(Absorb(gs, e), GroupAmount) == SumOf(gs, GroupAmount) + e.amount
    ensures SumOf(Absorb(gs, e), GroupQuantity) == SumOf(gs, GroupQuantity) + e.quantity
    ensures SumNat(Absorb(gs, e), GroupHits) == SumNat(gs, GroupHits) + 1
  {
    if |gs| > 0 {
      var head := if gs[0].key == e.key then [gs[0].(hits := gs[0].hits + 1, quantity := gs[0].quantity + e.quantity, amount := gs[0].amount + e.amount)] else [gs[0]];
      var tail := if gs[0].key == e.key then gs[1..] else Absorb(gs[1..], e);
      assert Absorb(gs, e) == head + tail;
      if gs[0].key != e.key {
        AbsorbTotals(gs[1..], e);
      }
      assert Absorb(gs, e)[1..] == tail;
    }
  }

  /** Selecting by key distributes over concatenation. */
  lemma {:induction false} MatchingAppend<K>(a: seq<Event<K>>, b: seq<Event<K>>, k: K)
    ensures Matching(a + b, k) == Matching(a, k) + Matching(b, k)
    ensures AmountAt(a + b, k) == AmountAt(a, k) + AmountAt(b, k)
    ensures HitsAt(a + b, k) == HitsAt(a, k) + HitsAt(b, k)
  {
    FilterAppend(a, b, KeyIs(k));
    SumOfAppend(Matching(a, k), Matching(b, k), EventAmount);
  }

  /** For events produced element by element from `xs`, the amount and the
      number of contributions under key `k` can be read off `xs` directly:
      `p` selects the elements whose event has key `k`. */
  lemma {:induction false} MappedEventsAt<T, K>(xs: seq<T>, f: T -> Event<K>, k: K, p: T -> bool, amount: T -> real)
    requires forall i :: 0 <= i < |xs| ==> (f(xs[i]).key == k <==> p(xs[i])) && f(xs[i]).amount == amount(xs[i])
    ensures AmountAt(Map(xs, f), k) == SumOf(Filter(xs, p), amount)
    ensures HitsAt(Map(xs, f), k) == |Filter(xs, p)|
  {
    if |xs| > 0 {
      var ms := Map(xs, f);
      assert ms[1..] == Map(xs[1..], f);
      var head := if f(xs[0]).key == k then [f(xs[0])] else [];
      assert Matching(ms, k) == head + Matching(Map(xs[1..], f), k);
      var src := if p(xs[0]) then [xs[0]] else [];
      assert Filter(xs, p) == src + Filter(xs[1..], p);
      MappedEventsAt(xs[1..], f, k, p, amount);
      SumOfAppend(head, Matching(Map(xs[1..], f), k), EventAmount);
      SumOfAppend(src, Filter(xs[1..], p), amount);
    }
  }

  /** There are as many groups as distinct keys among the events. */
  lemma {:induction false} GroupCount<K>(es: seq<Event<K>>)
    ensures |GroupBy(es)| == |Elements(EventKeys(es))|
  {
    var keys := KeysOf(GroupBy(es));
    GroupByKeys(es);
    FirstAppearancesSpec(EventKeys(es));
    DistinctCardinality(keys);
    assert Elements(keys) == Elements(EventKeys(es));
  }

  /** The same count, for any list of the events' keys. */
  lemma {:induction false} GroupCountOf<K>(es: seq<Event<K>>, keys: seq<K>)
    requires EventKeys(es) == keys
    ensures |GroupBy(es)| == |Elements(keys)|
  {
    GroupCount(es);
  }
}
