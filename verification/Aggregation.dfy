/** Sums over rows, GROUP BY, and SummingMergeTree targets fed by materialized views. */
module Aggregation {
  import opened Sequences
  import opened Domain

  /** Cost as an exact number; tokens and requests as the UInt64 columns they are stored in. */
  datatype Agg = Agg(cost: real, tokens: uint64, requests: uint64)

  const ZERO := Agg(0.0, 0, 0)

  /** UInt64 addition: wraps modulo 2^64. */
  function AddU64(a: uint64, b: uint64): uint64 {
    if a + b < TWO_64 then a + b else a + b - TWO_64
  }

  lemma AddU64Wraps(a: uint64, b: uint64)
    ensures AddU64(a, b) == (a + b) % TWO_64
  {
  }

  function Plus(a: Agg, b: Agg): Agg {
    Agg(a.cost + b.cost, AddU64(a.tokens, b.tokens), AddU64(a.requests, b.requests))
  }

  lemma AddU64Assoc(a: uint64, b: uint64, c: uint64)
    ensures AddU64(AddU64(a, b), c) == AddU64(a, AddU64(b, c))
  {
  }

  lemma PlusLaws(a: Agg, b: Agg, c: Agg)
    ensures Plus(a, b) == Plus(b, a)
    ensures Plus(Plus(a, b), c) == Plus(a, Plus(b, c))
    ensures Plus(a, ZERO) == a == Plus(ZERO, a)
  {
    AddU64Assoc(a.tokens, b.tokens, c.tokens);
    AddU64Assoc(a.requests, b.requests, c.requests);
  }

  /** The sum of `w(x)` over a sequence; a filter is a weight that is zero elsewhere. */
  function Total<T>(xs: seq<T>, w: T -> Agg): Agg {
    if xs == [] then ZERO else Plus(w(xs[0]), Total(xs[1..], w))
  }

  lemma {:induction false} TotalAppend<T>(a: seq<T>, b: seq<T>, w: T -> Agg)
    ensures Total(a + b, w) == Plus(Total(a, w), Total(b, w))
  {
    if a == [] {
      assert a + b == b;
      PlusLaws(Total(b, w), ZERO, ZERO);
    } else {
      assert (a + b)[1..] == a[1..] + b;
      TotalAppend(a[1..], b, w);
      PlusLaws(w(a[0]), Total(a[1..], w), Total(b, w));
    }
  }

  lemma {:induction false} TotalSame<T>(xs: seq<T>, v: T -> Agg, w: T -> Agg)
    requires forall x :: x in xs ==> v(x) == w(x)
    ensures Total(xs, v) == Total(xs, w)
  {
    if xs != [] {
      TotalSame(xs[1..], v, w);
    }
  }

  /** Totals do not depend on the order of the rows. */
  lemma {:induction false} TotalPermutation<T>(a: seq<T>, b: seq<T>, w: T -> Agg)
    requires multiset(a) == multiset(b)
    ensures Total(a, w) == Total(b, w)
    decreases |a|
  {
    if a == [] {
      assert |multiset(b)| == 0;
    } else {
      assert a[0] in multiset(b);
      var i :| 0 <= i < |b| && b[i] == a[0];
      var front, back := b[..i], b[i + 1..];
      assert b == front + [b[i]] + back;
      assert a == [a[0]] + a[1..];
      assert multiset(a[1..]) == multiset(a) - multiset{a[0]};
      assert multiset(front + back) == multiset(b) - multiset{a[0]};
      TotalPermutation(a[1..], front + back, w);
      TotalAppend(front + [b[i]], back, w);
      TotalAppend(front, [b[i]], w);
      TotalAppend(front, back, w);
      TotalOne(b[i], w);
      PlusLaws(w(b[i]), Total(front, w), Total(back, w));
      PlusLaws(Total(front, w), w(b[i]), Total(back, w));
    }
  }

  lemma TotalCons<T>(x: T, xs: seq<T>, w: T -> Agg)
    ensures Total([x] + xs, w) == Plus(w(x), Total(xs, w))
  {
  }

  lemma TotalSnoc<T>(xs: seq<T>, w: T -> Agg)
    requires xs != []
    ensures Total(xs, w) == Plus(Total(xs[..|xs| - 1], w), w(xs[|xs| - 1]))
  {
    var init, last := xs[..|xs| - 1], xs[|xs| - 1];
    assert xs == init + [last];
    TotalAppend(init, [last], w);
    TotalOne(last, w);
  }

  lemma SwapFirst(a: Agg, b: Agg, c: Agg)
    ensures Plus(a, Plus(b, c)) == Plus(b, Plus(a, c))
  {
    PlusLaws(a, b, c);
    PlusLaws(b, a, c);
  }

  lemma TotalOne<T>(x: T, w: T -> Agg)
    ensures Total([x], w) == w(x)
  {
  }

  // ---------------------------------------------------------------- keyed entries

  datatype Entry<+K> = Entry(key: K, agg: Agg)

  function AtKey<K(==)>(k: K): Entry<K> -> Agg {
    (e: Entry<K>) => if e.key == k then e.agg else ZERO
  }

  function Matching<K>(p: K -> bool): Entry<K> -> Agg {
    (e: Entry<K>) => if p(e.key) then e.agg else ZERO
  }

  function WithoutKey<K(==)>(es: seq<Entry<K>>, k: K): seq<Entry<K>> {
    if es == [] then []
    else if es[0].key == k then WithoutKey(es[1..], k) else [es[0]] + WithoutKey(es[1..], k)
  }

  lemma {:induction false} PeelKey<K>(es: seq<Entry<K>>, k: K, p: K -> bool)
    ensures Total(es, Matching(p)) == Plus(if p(k) then Total(es, AtKey(k)) else ZERO, Total(WithoutKey(es, k), Matching(p)))
    ensures |WithoutKey(es, k)| <= |es|
    ensures es != [] && es[0].key == k ==> |WithoutKey(es, k)| < |es|
  {
    if es != [] {
      PeelKey(es[1..], k, p);
      var here, rest := Matching(p)(es[0]), Total(WithoutKey(es[1..], k), Matching(p));
      var mine := if p(k) then Total(es[1..], AtKey(k)) else ZERO;
      PlusLaws(here, mine, rest);
      PlusLaws(mine, here, rest);
    }
  }

  lemma {:induction false} WithoutKeyTotals<K>(es: seq<Entry<K>>, k: K, k': K)
    ensures Total(WithoutKey(es, k), AtKey(k')) == if k' == k then ZERO else Total(es, AtKey(k'))
  {
    if es != [] {
      WithoutKeyTotals(es[1..], k, k');
    }
  }

  /** Two tables that agree key by key agree on every filter over keys. */
  lemma {:induction false} KeyTotalsDetermine<K(!new)>(a: seq<Entry<K>>, b: seq<Entry<K>>, p: K -> bool)
    requires forall k :: Total(a, AtKey(k)) == Total(b, AtKey(k))
    ensures Total(a, Matching(p)) == Total(b, Matching(p))
    decreases |a| + |b|
  {
    if a != [] || b != [] {
      var k := if a != [] then a[0].key else b[0].key;
      PeelKey(a, k, p);
      PeelKey(b, k, p);
      forall k' ensures Total(WithoutKey(a, k), AtKey(k')) == Total(WithoutKey(b, k), AtKey(k')) {
        WithoutKeyTotals(a, k, k');
        WithoutKeyTotals(b, k, k');
      }
      KeyTotalsDetermine(WithoutKey(a, k), WithoutKey(b, k), p);
    }
  }

  // ---------------------------------------------------------------- GROUP BY

  function AddTo<K(==)>(groups: seq<Entry<K>>, e: Entry<K>): seq<Entry<K>> {
    if groups == [] then [e]
    else if groups[0].key == e.key then [Entry(e.key, Plus(e.agg, groups[0].agg))] + groups[1..]
    else [groups[0]] + AddTo(groups[1..], e)
  }

  function GroupBy<K(==)>(es: seq<Entry<K>>): seq<Entry<K>> {
    if es == [] then [] else AddTo(GroupBy(es[1..]), es[0])
  }

  ghost predicate UniqueEntryKeys<K(!new)>(es: seq<Entry<K>>) {
    forall i, j :: 0 <= i < j < |es| ==> es[i].key != es[j].key
  }

  lemma MatchingPlus<K>(e: Entry<K>, g: Entry<K>, p: K -> bool)
    requires e.key == g.key
    ensures Matching(p)(Entry(e.key, Plus(e.agg, g.agg))) == Plus(Matching(p)(e), Matching(p)(g))
  {
  }

  lemma {:induction false} AddToTotal<K>(groups: seq<Entry<K>>, e: Entry<K>, p: K -> bool)
    ensures Total(AddTo(groups, e), Matching(p)) == Plus(Matching(p)(e), Total(groups, Matching(p)))
  {
    var w := Matching(p);
    if groups == [] {
      TotalOne(e, w);
      AddZero(w(e));
    } else if groups[0].key == e.key {
      TotalCons(Entry(e.key, Plus(e.agg, groups[0].agg)), groups[1..], w);
      MatchingPlus(e, groups[0], p);
      PlusLaws(w(e), w(groups[0]), Total(groups[1..], w));
    } else {
      AddToTotal(groups[1..], e, p);
      TotalCons(groups[0], AddTo(groups[1..], e), w);
      SwapFirst(w(e), w(groups[0]), Total(groups[1..], w));
    }
  }

  lemma {:induction false} AddToKeys<K(!new)>(groups: seq<Entry<K>>, e: Entry<K>)
    requires UniqueEntryKeys(groups)
    ensures UniqueEntryKeys(AddTo(groups, e))
    ensures forall x :: x in AddTo(groups, e) ==> x.key == e.key || exists g :: g in groups && g.key == x.key
  {
    if groups != [] {
      AddToKeys(groups[1..], e);
      var out := AddTo(groups, e);
      if groups[0].key == e.key {
        assert forall i :: 0 < i < |out| ==> out[i] == groups[i];
      } else {
        assert forall i :: 0 < i < |out| ==> out[i] in AddTo(groups[1..], e);
      }
    }
  }

  /** GROUP BY keeps every filtered sum and leaves one entry for each key. */
  lemma {:induction false} GroupByTotal<K(!new)>(es: seq<Entry<K>>, p: K -> bool)
    ensures Total(GroupBy(es), Matching(p)) == Total(es, Matching(p))
    ensures UniqueEntryKeys(GroupBy(es))
  {
    if es != [] {
      GroupByTotal(es[1..], p);
      AddToTotal(GroupBy(es[1..]), es[0], p);
      AddToKeys(GroupBy(es[1..]), es[0]);
    }
  }

  ghost predicate HasKey<K(!new)>(es: seq<Entry<K>>, k: K) {
    exists e :: e in es && e.key == k
  }

  lemma HasKeyAppend<K(!new)>(a: seq<Entry<K>>, b: seq<Entry<K>>, k: K)
    ensures HasKey(a + b, k) <==> HasKey(a, k) || HasKey(b, k)
  {
    if e :| e in a && e.key == k {
      assert e in a + b;
    }
    if e :| e in b && e.key == k {
      assert e in a + b;
    }
  }

  lemma HasKeyOne<K(!new)>(x: Entry<K>, k: K)
    ensures HasKey([x], k) <==> x.key == k
  {
    assert x in [x];
  }

  lemma {:induction false} AddToHasKey<K(!new)>(groups: seq<Entry<K>>, e: Entry<K>, k: K)
    ensures HasKey(AddTo(groups, e), k) <==> HasKey(groups, k) || e.key == k
  {
    HasKeyOne(e, k);
    if groups != [] {
      assert groups == [groups[0]] + groups[1..];
      HasKeyAppend([groups[0]], groups[1..], k);
      HasKeyOne(groups[0], k);
      if groups[0].key == e.key {
        var first := Entry(e.key, Plus(e.agg, groups[0].agg));
        HasKeyAppend([first], groups[1..], k);
        HasKeyOne(first, k);
      } else {
        AddToHasKey(groups[1..], e, k);
        HasKeyAppend([groups[0]], AddTo(groups[1..], e), k);
      }
    }
  }

  /** The groups are those of the keys that occur. */
  lemma {:induction false} GroupByHasKey<K(!new)>(es: seq<Entry<K>>, k: K)
    ensures HasKey(GroupBy(es), k) <==> HasKey(es, k)
  {
    if es != [] {
      GroupByHasKey(es[1..], k);
      AddToHasKey(GroupBy(es[1..]), es[0], k);
      assert es == [es[0]] + es[1..];
      HasKeyAppend([es[0]], es[1..], k);
      HasKeyOne(es[0], k);
    }
  }

  lemma {:induction false} UniqueKeyTotal<K(!new)>(es: seq<Entry<K>>, e: Entry<K>)
    requires UniqueEntryKeys(es) && e in es
    ensures Total(es, AtKey(e.key)) == e.agg
  {
    if es[0] == e {
      NoKeyTotal(es[1..], e.key);
      AddZero(e.agg);
    } else {
      UniqueKeyTotal(es[1..], e);
      PlusLaws(e.agg, ZERO, ZERO);
    }
  }

  lemma {:induction false} NoKeyTotal<K(!new)>(es: seq<Entry<K>>, k: K)
    requires !HasKey(es, k)
    ensures Total(es, AtKey(k)) == ZERO
  {
    if es != [] {
      assert es[0] in es;
      assert !HasKey(es[1..], k) by {
        assert forall e :: e in es[1..] ==> e in es;
      }
      NoKeyTotal(es[1..], k);
    }
  }

  /** What a group holds: the sum of the entries of its key. */
  lemma GroupHolds<K(!new)>(es: seq<Entry<K>>, e: Entry<K>)
    requires e in GroupBy(es)
    ensures e.agg == Total(es, AtKey(e.key)) && HasKey(es, e.key)
  {
    GroupByTotal(es, (x: K) => x == e.key);
    AtKeyIsMatching(es, e.key);
    AtKeyIsMatching(GroupBy(es), e.key);
    UniqueKeyTotal(GroupBy(es), e);
    GroupByHasKey(es, e.key);
  }

  lemma AtKeyIsMatching<K>(es: seq<Entry<K>>, k: K)
    ensures Total(es, AtKey(k)) == Total(es, Matching((x: K) => x == k))
  {
    TotalSame(es, AtKey(k), Matching((x: K) => x == k));
  }

  // ---------------------------------------------------------------- a view and its target

  /** The rows a view's SELECT makes of source rows, before its GROUP BY. */
  function EmitAll<R, K>(rows: seq<R>, emit: R -> seq<Entry<K>>): seq<Entry<K>> {
    if rows == [] then [] else emit(rows[0]) + EmitAll(rows[1..], emit)
  }

  lemma {:induction false} EmitAppend<R, K>(a: seq<R>, b: seq<R>, emit: R -> seq<Entry<K>>)
    ensures EmitAll(a + b, emit) == EmitAll(a, emit) + EmitAll(b, emit)
  {
    if a == [] {
      assert a + b == b;
    } else {
      assert (a + b)[1..] == a[1..] + b;
      EmitAppend(a[1..], b, emit);
    }
  }

  function PerRow<R, K>(emit: R -> seq<Entry<K>>, w: Entry<K> -> Agg): R -> Agg {
    (r: R) => Total(emit(r), w)
  }

  lemma {:induction false} EmitTotal<R, K>(rows: seq<R>, emit: R -> seq<Entry<K>>, w: Entry<K> -> Agg)
    ensures Total(EmitAll(rows, emit), w) == Total(rows, PerRow(emit, w))
  {
    if rows != [] {
      EmitTotal(rows[1..], emit, w);
      TotalAppend(emit(rows[0]), EmitAll(rows[1..], emit), w);
    }
  }

  /** The parts of a SummingMergeTree target. */
  type Target<K> = seq<seq<Entry<K>>>

  /** One insert block reaches the target: its aggregated rows, distributed over new parts. */
  ghost predicate ViewInserts<R, K(!new)>(t: Target<K>, t': Target<K>, emit: R -> seq<Entry<K>>, block: seq<R>) {
    exists added :: multiset(Concat(added)) == multiset(GroupBy(EmitAll(block, emit))) && t' == t + added
  }

  lemma ViewInsertExists<R, K(!new)>(t: Target<K>, emit: R -> seq<Entry<K>>, block: seq<R>)
    ensures ViewInserts(t, t + [GroupBy(EmitAll(block, emit))], emit, block)
  {
    var added := [GroupBy(EmitAll(block, emit))];
    assert added[1..] == [];
    assert Concat(added) == added[0] + Concat(added[1..]);
  }

  /** A background merge of part `x` with any other parts `ys`: equal keys are summed; a row whose sums
      are all zero may disappear. */
  ghost predicate ViewMerges<K(!new)>(t: Target<K>, t': Target<K>) {
    exists a, x, b, ys, c, merged ::
      t == a + [x] + b + ys + c && t' == a + [merged] + b + c && Sums(merged, x + Concat(ys))
  }

  ghost predicate Sums<K(!new)>(merged: seq<Entry<K>>, input: seq<Entry<K>>) {
    && UniqueEntryKeys(merged)
    && forall k :: Total(merged, AtKey(k)) == Total(input, AtKey(k)) && (HasKey(merged, k) ==> HasKey(input, k))
  }

  /** The target holds, key by key, the direct aggregate of all rows ever inserted, and no other key. */
  ghost predicate TargetInv<R, K(!new)>(t: Target<K>, emit: R -> seq<Entry<K>>, history: seq<R>) {
    && (forall k :: Total(Concat(t), AtKey(k)) == Total(EmitAll(history, emit), AtKey(k)))
    && (forall k :: HasKey(Concat(t), k) ==> HasKey(EmitAll(history, emit), k))
  }

  lemma SameBagHasKey<K(!new)>(a: seq<Entry<K>>, b: seq<Entry<K>>, k: K)
    requires multiset(a) == multiset(b)
    ensures HasKey(a, k) <==> HasKey(b, k)
  {
    assert forall e :: e in a <==> e in multiset(a);
    assert forall e :: e in b <==> e in multiset(b);
  }

  lemma ViewInsertKeepsInv<R, K(!new)>(t: Target<K>, t': Target<K>, emit: R -> seq<Entry<K>>, history: seq<R>, block: seq<R>)
    requires TargetInv(t, emit, history) && ViewInserts(t, t', emit, block)
    ensures TargetInv(t', emit, history + block)
  {
    var added :| multiset(Concat(added)) == multiset(GroupBy(EmitAll(block, emit))) && t' == t + added;
    var es := EmitAll(block, emit);
    ConcatAppend(t, added);
    EmitAppend(history, block, emit);
    forall k ensures Total(Concat(t'), AtKey(k)) == Total(EmitAll(history + block, emit), AtKey(k)) {
      TotalAppend(Concat(t), Concat(added), AtKey(k));
      TotalAppend(EmitAll(history, emit), es, AtKey(k));
      TotalPermutation(Concat(added), GroupBy(es), AtKey(k));
      AtKeyIsMatching(es, k);
      AtKeyIsMatching(GroupBy(es), k);
      GroupByTotal(es, (x: K) => x == k);
    }
    forall k | HasKey(Concat(t'), k) ensures HasKey(EmitAll(history + block, emit), k) {
      HasKeyAppend(Concat(t), Concat(added), k);
      HasKeyAppend(EmitAll(history, emit), es, k);
      SameBagHasKey(Concat(added), GroupBy(es), k);
      GroupByHasKey(es, k);
    }
  }

  lemma ViewMergeKeepsInv<R, K(!new)>(t: Target<K>, t': Target<K>, emit: R -> seq<Entry<K>>, history: seq<R>)
    requires TargetInv(t, emit, history) && ViewMerges(t, t')
    ensures TargetInv(t', emit, history)
  {
    var a, x, b, ys, c, merged :|
      t == a + [x] + b + ys + c && t' == a + [merged] + b + c && Sums(merged, x + Concat(ys));
    forall k ensures Total(Concat(t'), AtKey(k)) == Total(Concat(t), AtKey(k)) {
      MergedTotal(a, x, b, ys, c, merged, k);
    }
    forall k | HasKey(Concat(t'), k) ensures HasKey(EmitAll(history, emit), k) {
      MergedHasKey(a, x, b, ys, c, merged, k);
    }
  }

  lemma MergedHasKey<K(!new)>(a: Target<K>, x: seq<Entry<K>>, b: Target<K>, ys: Target<K>, c: Target<K>, merged: seq<Entry<K>>, k: K)
    requires Sums(merged, x + Concat(ys))
    requires HasKey(Concat(a + [merged] + b + c), k)
    ensures HasKey(Concat(a + [x] + b + ys + c), k)
  {
    PartsHaveKey(a, x, b, ys, c, k);
    PartsHaveKey(a, merged, b, [], c, k);
    assert a + [merged] + b + [] == a + [merged] + b;
    HasKeyAppend(x, Concat(ys), k);
  }

  lemma PartsHaveKey<K(!new)>(a: Target<K>, x: seq<Entry<K>>, b: Target<K>, ys: Target<K>, c: Target<K>, k: K)
    ensures HasKey(Concat(a + [x] + b + ys + c), k) <==>
            HasKey(Concat(a), k) || HasKey(x, k) || HasKey(Concat(b), k) || HasKey(Concat(ys), k) || HasKey(Concat(c), k)
  {
    PartsAppend(a, x, b, ys, c);
    HasKeyAppend(Concat(a + [x] + b + ys), Concat(c), k);
    HasKeyAppend(Concat(a + [x] + b), Concat(ys), k);
    HasKeyAppend(Concat(a + [x]), Concat(b), k);
    HasKeyAppend(Concat(a), x, k);
  }

  lemma PartsAppend<K>(a: Target<K>, x: seq<Entry<K>>, b: Target<K>, ys: Target<K>, c: Target<K>)
    ensures Concat(a + [x] + b + ys + c) == Concat(a + [x] + b + ys) + Concat(c)
    ensures Concat(a + [x] + b + ys) == Concat(a + [x] + b) + Concat(ys)
    ensures Concat(a + [x] + b) == Concat(a + [x]) + Concat(b)
    ensures Concat(a + [x]) == Concat(a) + x
  {
    ConcatAppend(a + [x] + b + ys, c);
    ConcatAppend(a + [x] + b, ys);
    ConcatAppend(a + [x], b);
    ConcatAppend(a, [x]);
    assert Concat([x]) == x;
  }

  lemma MergedTotal<K(!new)>(a: Target<K>, x: seq<Entry<K>>, b: Target<K>, ys: Target<K>, c: Target<K>, merged: seq<Entry<K>>, k: K)
    requires Sums(merged, x + Concat(ys))
    ensures Total(Concat(a + [merged] + b + c), AtKey(k)) == Total(Concat(a + [x] + b + ys + c), AtKey(k))
  {
    var w := AtKey(k);
    PartsTotal(a, x, b, ys, c, w);
    PartsTotal(a, merged, b, [], c, w);
    assert a + [merged] + b + [] == a + [merged] + b;
    TotalAppend(x, Concat(ys), w);
    assert Total(Concat([]), w) == ZERO;
    MoveTotal(Total(Concat(a), w), Total(x, w), Total(Concat(b), w), Total(Concat(ys), w), Total(Concat(c), w));
    AddZero(Plus(Plus(Total(Concat(a), w), Total(merged, w)), Total(Concat(b), w)));
  }

  lemma AddZero(a: Agg)
    ensures Plus(a, ZERO) == a
  {
  }

  lemma ZeroPlus(a: Agg)
    ensures Plus(ZERO, a) == a
  {
  }

  lemma AtKeyCons<K>(first: Entry<K>, rest: seq<Entry<K>>, k: K)
    ensures Total([first] + rest, AtKey(k)) == if first.key == k then Plus(first.agg, Total(rest, AtKey(k))) else Total(rest, AtKey(k))
  {
    TotalCons(first, rest, AtKey(k));
    ZeroPlus(Total(rest, AtKey(k)));
  }

  lemma PartsTotal<K>(a: Target<K>, x: seq<Entry<K>>, b: Target<K>, ys: Target<K>, c: Target<K>, w: Entry<K> -> Agg)
    ensures Total(Concat(a + [x] + b + ys + c), w) ==
            Plus(Plus(Plus(Plus(Total(Concat(a), w), Total(x, w)), Total(Concat(b), w)), Total(Concat(ys), w)), Total(Concat(c), w))
  {
    PartsAppend(a, x, b, ys, c);
    TotalAppend(Concat(a + [x] + b + ys), Concat(c), w);
    TotalAppend(Concat(a + [x] + b), Concat(ys), w);
    TotalAppend(Concat(a + [x]), Concat(b), w);
    TotalAppend(Concat(a), x, w);
  }

  lemma MoveTotal(a: Agg, x: Agg, b: Agg, y: Agg, c: Agg)
    ensures Plus(Plus(Plus(Plus(a, x), b), y), c) == Plus(Plus(Plus(a, Plus(x, y)), b), c)
  {
    PlusLaws(Plus(a, x), b, y);
    PlusLaws(b, y, ZERO);
    PlusLaws(Plus(a, x), y, b);
    PlusLaws(a, x, y);
  }

  /** The incremental view is correct: any sum-with-filter over the target, after any inserts and
      merges, is the same sum over all source rows. */
  lemma TargetAnswers<R, K(!new)>(t: Target<K>, emit: R -> seq<Entry<K>>, history: seq<R>, p: K -> bool)
    requires TargetInv(t, emit, history)
    ensures Total(Concat(t), Matching(p)) == Total(history, PerRow(emit, Matching(p)))
  {
    KeyTotalsDetermine(Concat(t), EmitAll(history, emit), p);
    EmitTotal(history, emit, Matching(p));
  }
}
