/** ORDER BY cost DESC LIMIT n of the cost breakdown: which groups an answer holds, in which order, and what
    each of them costs, for every limit. */
module CostRanking {
  import opened Sequences
  import opened Calendar
  import opened Domain
  import opened EventsTable
  import opened Warehouse
  import opened CostQuery
  import A = Aggregation

  /** The rows of one group. */
  function In<G(==)>(f: Row -> bool, g: Row -> G, k: G): Row -> bool {
    (r: Row) => f(r) && g(r) == k
  }

  ghost predicate Occurs<G(!new)>(rows: seq<Row>, f: Row -> bool, g: Row -> G, k: G) {
    exists r :: r in rows && f(r) && g(r) == k
  }

  /** `items` are at most `limit` different groups of the rows passing `f`, dearest first, each with the cost
      and the number of its rows. */
  ghost predicate Ranks<G(!new)>(items: seq<A.Entry<G>>, rows: seq<Row>, f: Row -> bool, g: Row -> G, limit: nat) {
    && |items| <= limit
    && (forall i, j :: 0 <= i < j < |items| ==> items[i].key != items[j].key && items[i].agg.cost >= items[j].agg.cost)
    && (forall x :: x in items ==>
          && Occurs(rows, f, g, x.key)
          && x.agg.cost == CostSum(rows, In(f, g, x.key))
          && x.agg.requests == CountRows(rows, In(f, g, x.key)) % TWO_64)
  }

  /** Group `k` is among the items, or the limit is used up by groups that cost at least as much. */
  ghost predicate Placed<G(!new)>(items: seq<A.Entry<G>>, rows: seq<Row>, f: Row -> bool, g: Row -> G, limit: nat, k: G) {
    || A.HasKey(items, k)
    || (|items| == limit && forall x :: x in items ==> x.agg.cost >= CostSum(rows, In(f, g, k)))
  }

  ghost predicate CarriesTokens<G(!new)>(items: seq<A.Entry<G>>, rows: seq<Row>, f: Row -> bool, g: Row -> G) {
    forall x :: x in items ==> x.agg.tokens == TokenSum(rows, In(f, g, x.key)) % TWO_64
  }

  /** No group is left out that costs more than an item. (A group whose request counter stands at zero after
      wrapping around may be gone from a rollup target.) */
  ghost predicate LeavesOutCheapest<G(!new)>(items: seq<A.Entry<G>>, rows: seq<Row>, f: Row -> bool, g: Row -> G, limit: nat) {
    forall k :: CountRows(rows, In(f, g, k)) % TWO_64 != 0 ==> Placed(items, rows, f, g, limit, k)
  }

  /** Below 2^64 rows that covers every group. */
  lemma EveryGroupPlaced<G(!new)>(items: seq<A.Entry<G>>, rows: seq<Row>, f: Row -> bool, g: Row -> G, limit: nat, r: Row)
    requires LeavesOutCheapest(items, rows, f, g, limit) && |rows| < TWO_64 && r in rows && f(r)
    ensures Placed(items, rows, f, g, limit, g(r))
  {
    CountsOne(rows, In(f, g, g(r)), r);
    BelowWidth(CountRows(rows, In(f, g, g(r))));
  }

  // ---------------------------------------------------------------- sorting and cutting off

  lemma Cut<G(!new)>(items: seq<A.Entry<G>>, groups: seq<A.Entry<G>>, limit: nat)
    requires TopByCost(items, groups, limit)
    ensures |items| == if |groups| <= limit then |groups| else limit
    ensures forall i, j :: 0 <= i < j < |items| ==> items[i].agg.cost >= items[j].agg.cost
    ensures forall x :: x in items ==> x in groups
    ensures forall x :: x in groups && x !in items ==> |items| == limit && forall y :: y in items ==> y.agg.cost >= x.agg.cost
  {
    var sorted: seq<A.Entry<G>> :|
      && multiset(sorted) == multiset(groups)
      && (forall i, j :: 0 <= i < j < |sorted| ==> sorted[i].agg.cost >= sorted[j].agg.cost)
      && items == if |sorted| <= limit then sorted else sorted[..limit];
    SameBag(sorted, groups);
    CutsBelow(sorted, limit);
  }

  lemma SameBag<T>(a: seq<T>, b: seq<T>)
    requires multiset(a) == multiset(b)
    ensures |a| == |b| && forall x :: x in a <==> x in b
  {
    assert |multiset(a)| == |multiset(b)|;
    forall x ensures x in a <==> x in b {
      assert x in a <==> x in multiset(a);
      assert x in b <==> x in multiset(b);
    }
  }

  lemma CutsBelow<G(!new)>(sorted: seq<A.Entry<G>>, limit: nat)
    requires forall i, j :: 0 <= i < j < |sorted| ==> sorted[i].agg.cost >= sorted[j].agg.cost
    ensures var items := if |sorted| <= limit then sorted else sorted[..limit];
            && (forall x :: x in items ==> x in sorted)
            && forall x :: x in sorted && x !in items ==> |items| == limit && forall y :: y in items ==> y.agg.cost >= x.agg.cost
  {
    var items := if |sorted| <= limit then sorted else sorted[..limit];
    forall x | x in sorted && x !in items ensures forall y :: y in items ==> y.agg.cost >= x.agg.cost {
      var j :| 0 <= j < |sorted| && sorted[j] == x;
      assert forall k :: 0 <= k < |items| ==> sorted[k] == items[k];
      forall i | 0 <= i < |items| ensures items[i].agg.cost >= x.agg.cost {
        assert j >= |items|;
        assert sorted[i] == items[i];
      }
    }
  }

  lemma Distinct<G(!new)>(items: seq<A.Entry<G>>, groups: seq<A.Entry<G>>, limit: nat, i: nat, j: nat)
    requires TopByCost(items, groups, limit) && A.UniqueEntryKeys(groups) && i < j < |items|
    ensures items[i].key != items[j].key
  {
    var sorted: seq<A.Entry<G>> :| multiset(sorted) == multiset(groups) && items == if |sorted| <= limit then sorted else sorted[..limit];
    if items[i].key == items[j].key {
      assert sorted[i] in multiset(groups) && sorted[j] in multiset(groups);
      SameKeySameEntry(groups, sorted[i], sorted[j]);
      CountDistinct(groups, sorted[i]);
      Twice(sorted, i, j);
      assert false;
    }
  }

  lemma SameKeySameEntry<G(!new)>(groups: seq<A.Entry<G>>, x: A.Entry<G>, y: A.Entry<G>)
    requires A.UniqueEntryKeys(groups) && x in groups && y in groups && x.key == y.key
    ensures x == y
  {
  }

  lemma Twice<T>(s: seq<T>, i: nat, j: nat)
    requires i < j < |s| && s[i] == s[j]
    ensures multiset(s)[s[i]] >= 2
  {
    assert s == s[..j] + s[j..];
    assert s[..j][i] in multiset(s[..j]);
    assert s[j..][0] in multiset(s[j..]);
  }

  /** Cutting off groups that carry these sums gives a ranking. */
  lemma RanksGroups<G(!new)>(items: seq<A.Entry<G>>, es: seq<A.Entry<G>>, limit: nat, rows: seq<Row>, f: Row -> bool, g: Row -> G)
    requires TopByCost(items, A.GroupBy(es), limit)
    requires forall k :: A.HasKey(es, k) ==> Occurs(rows, f, g, k)
    requires forall k :: A.Total(es, A.AtKey(k)).cost == CostSum(rows, In(f, g, k))
    requires forall k :: A.Total(es, A.AtKey(k)).requests == CountRows(rows, In(f, g, k)) % TWO_64
    ensures Ranks(items, rows, f, g, limit)
    ensures forall k :: A.HasKey(es, k) ==> Placed(items, rows, f, g, limit, k)
  {
    Cut(items, A.GroupBy(es), limit);
    A.GroupByTotal(es, k => true);
    forall i: nat, j: nat | 0 <= i < j < |items| ensures items[i].key != items[j].key {
      Distinct(items, A.GroupBy(es), limit, i, j);
    }
    forall x | x in A.GroupBy(es)
      ensures Occurs(rows, f, g, x.key)
      ensures x.agg.cost == CostSum(rows, In(f, g, x.key)) && x.agg.requests == CountRows(rows, In(f, g, x.key)) % TWO_64
    {
      A.GroupHolds(es, x);
    }
    forall k | A.HasKey(es, k) ensures Placed(items, rows, f, g, limit, k) {
      A.GroupByHasKey(es, k);
      var x :| x in A.GroupBy(es) && x.key == k;
      if x in items {
        assert A.HasKey(items, k);
      }
    }
  }

  // ---------------------------------------------------------------- the raw query

  function ModelOf(): Row -> string {
    (r: Row) => r.model
  }

  lemma {:induction false} SelectRawHasKey(rows: seq<Row>, q: Params, k: string)
    ensures A.HasKey(SelectRaw(rows, q), k) <==> Occurs(rows, Times(q), ModelOf(), k)
  {
    if rows != [] {
      SelectRawHasKey(rows[1..], q, k);
      var here := if InTimes(q, rows[0]) then [A.Entry(rows[0].model, TagAgg(rows[0]))] else [];
      A.HasKeyAppend(here, SelectRaw(rows[1..], q), k);
      A.HasKeyOne(A.Entry(rows[0].model, TagAgg(rows[0])), k);
      assert forall r :: r in rows <==> r == rows[0] || r in rows[1..];
      assert Times(q)(rows[0]) == InTimes(q, rows[0]) && ModelOf()(rows[0]) == rows[0].model;
    }
  }

  lemma SelectRawSums(rows: seq<Row>, q: Params, k: string)
    ensures A.Total(SelectRaw(rows, q), A.AtKey(k)).cost == CostSum(rows, In(Times(q), ModelOf(), k))
    ensures A.Total(SelectRaw(rows, q), A.AtKey(k)).requests == CountRows(rows, In(Times(q), ModelOf(), k)) % TWO_64
  {
    A.TotalSame(SelectRaw(rows, q), A.AtKey(k), A.Matching(IsModel(k)));
    SelectRawTotal(rows, q, k);
    Costs(rows, In(Times(q), ModelOf(), k), RowWeight(Times(q), k));
    Counts(rows, In(Times(q), ModelOf(), k), RowWeight(Times(q), k));
  }

  /** For every limit, the raw answer ranks the models of the FINAL rows that pass, and leaves out none that
      costs more than one it returns. */
  lemma RawTop(final: seq<Row>, q: Params, limit: nat, items: seq<A.Entry<string>>)
    requires CostRaw(final, q, limit, items)
    ensures Ranks(items, final, Times(q), ModelOf(), limit)
    ensures forall r :: r in final && InTimes(q, r) ==> Placed(items, final, Times(q), ModelOf(), limit, r.model)
  {
    forall k
      ensures A.HasKey(SelectRaw(final, q), k) <==> Occurs(final, Times(q), ModelOf(), k)
      ensures A.Total(SelectRaw(final, q), A.AtKey(k)).cost == CostSum(final, In(Times(q), ModelOf(), k))
      ensures A.Total(SelectRaw(final, q), A.AtKey(k)).requests == CountRows(final, In(Times(q), ModelOf(), k)) % TWO_64
    {
      SelectRawHasKey(final, q, k);
      SelectRawSums(final, q, k);
    }
    RanksGroups(items, SelectRaw(final, q), limit, final, Times(q), ModelOf());
    forall r | r in final && InTimes(q, r) ensures Occurs(final, Times(q), ModelOf(), r.model) {
      assert Times(q)(r) && ModelOf()(r) == r.model;
    }
  }

  // ---------------------------------------------------------------- the rollup query

  function GroupOf(): Row -> Group {
    (r: Row) => Group(r.model, r.provider)
  }

  function IsGroup(k: Group): Group -> bool {
    (g: Group) => g == k
  }

  /** What a rollup query selects before GROUP BY. */
  function Selected(s: Store, q: Params): seq<A.Entry<Group>> {
    if q.project != "" then Select(Concat(s.modelV2), V2Filter(q, DayRange(q)), V2Group)
    else Select(Concat(s.model), V1Filter(q, DayRange(q)), V1Group)
  }

  lemma GroupsOfSelected(s: Store, q: Params)
    ensures GroupsByModel(s, q) == A.GroupBy(Selected(s, q))
  {
    SelectsV2Iff(MODEL_MV, q.project);
  }

  /** The rows a selected group stands for. */
  function GroupRows(q: Params, k: Group): Row -> bool {
    In(Days(q, DayRange(q)), GroupOf(), k)
  }

  lemma V1Sums(s: Store, q: Params, k: Group)
    requires Inv(s) && q.project == ""
    ensures var t := A.Total(Select(Concat(s.model), V1Filter(q, DayRange(q)), V1Group), A.Matching(IsGroup(k)));
            && t.cost == CostSum(s.events.history, GroupRows(q, k))
            && t.tokens == TokenSum(s.events.history, GroupRows(q, k)) % TWO_64
            && t.requests == CountRows(s.events.history, GroupRows(q, k)) % TWO_64
  {
    var both := (x: ModelKey) => KeyMatches(q, DayRange(q), x) && V1Group(x) == k;
    SelectTotal(Concat(s.model), V1Filter(q, DayRange(q)), V1Group, IsGroup(k), both);
    ModelRollupIsDirect(s, both);
    forall r ensures ModelWeight(both)(r) == if GroupRows(q, k)(r) then RowAgg(r) else A.ZERO {
      assert both(ModelKeyOf(r)) <==> GroupRows(q, k)(r);
    }
    Costs(s.events.history, GroupRows(q, k), ModelWeight(both));
    Tokens(s.events.history, GroupRows(q, k), ModelWeight(both));
    Counts(s.events.history, GroupRows(q, k), ModelWeight(both));
  }

  lemma V2Sums(s: Store, q: Params, k: Group)
    requires Inv(s)
    ensures var t := A.Total(Select(Concat(s.modelV2), V2Filter(q, DayRange(q)), V2Group), A.Matching(IsGroup(k)));
            && t.cost == CostSum(s.events.history, GroupRows(q, k))
            && t.tokens == TokenSum(s.events.history, GroupRows(q, k)) % TWO_64
            && t.requests == CountRows(s.events.history, GroupRows(q, k)) % TWO_64
  {
    var both := (x: ProjectModelKey) => KeyMatches(q, DayRange(q), x.base) && Passes(q.project, x.project) && V2Group(x) == k;
    SelectTotal(Concat(s.modelV2), V2Filter(q, DayRange(q)), V2Group, IsGroup(k), both);
    ProjectRollupIsDirect(s, both);
    forall r ensures ProjectModelWeight(both)(r) == if GroupRows(q, k)(r) then RowAgg(r) else A.ZERO {
      assert both(ProjectModelKey(r.project, ModelKeyOf(r))) <==> GroupRows(q, k)(r);
    }
    Costs(s.events.history, GroupRows(q, k), ProjectModelWeight(both));
    Tokens(s.events.history, GroupRows(q, k), ProjectModelWeight(both));
    Counts(s.events.history, GroupRows(q, k), ProjectModelWeight(both));
  }

  lemma SelectedSums(s: Store, q: Params, k: Group)
    requires Inv(s)
    ensures var t := A.Total(Selected(s, q), A.AtKey(k));
            && t.cost == CostSum(s.events.history, GroupRows(q, k))
            && t.tokens == TokenSum(s.events.history, GroupRows(q, k)) % TWO_64
            && t.requests == CountRows(s.events.history, GroupRows(q, k)) % TWO_64
  {
    A.TotalSame(Selected(s, q), A.AtKey(k), A.Matching(IsGroup(k)));
    if q.project != "" {
      V2Sums(s, q, k);
    } else {
      V1Sums(s, q, k);
    }
  }

  lemma {:induction false} SelectHasKey<K(!new), G(!new)>(es: seq<A.Entry<K>>, p: K -> bool, g: K -> G, k: G)
    requires A.HasKey(Select(es, p, g), k)
    ensures exists x :: A.HasKey(es, x) && p(x) && g(x) == k
  {
    if es != [] {
      var here := if p(es[0].key) then [A.Entry(g(es[0].key), es[0].agg)] else [];
      A.HasKeyAppend(here, Select(es[1..], p, g), k);
      if A.HasKey(here, k) {
        assert es[0] in es;
        assert A.HasKey(es, es[0].key);
      } else {
        SelectHasKey(es[1..], p, g, k);
        var x :| A.HasKey(es[1..], x) && p(x) && g(x) == k;
        var e :| e in es[1..] && e.key == x;
        assert e in es;
      }
    }
  }

  lemma {:induction false} EmitHasKey<K(!new)>(rows: seq<Row>, emit: Row -> seq<A.Entry<K>>, k: K)
    requires A.HasKey(A.EmitAll(rows, emit), k)
    ensures exists r :: r in rows && A.HasKey(emit(r), k)
  {
    if rows != [] {
      A.HasKeyAppend(emit(rows[0]), A.EmitAll(rows[1..], emit), k);
      if A.HasKey(emit(rows[0]), k) {
        assert rows[0] in rows;
      } else {
        EmitHasKey(rows[1..], emit, k);
      }
    }
  }

  /** A selected group stands for some inserted row. */
  lemma SelectedOccurs(s: Store, q: Params, k: Group)
    requires Inv(s) && A.HasKey(Selected(s, q), k)
    ensures Occurs(s.events.history, Days(q, DayRange(q)), GroupOf(), k)
  {
    if q.project != "" {
      SelectHasKey(Concat(s.modelV2), V2Filter(q, DayRange(q)), V2Group, k);
      var x :| A.HasKey(Concat(s.modelV2), x) && V2Filter(q, DayRange(q))(x) && V2Group(x) == k;
      EmitHasKey(s.events.history, EmitModelV2, x);
      var r :| r in s.events.history && A.HasKey(EmitModelV2(r), x);
      A.HasKeyOne(EmitModelV2(r)[0], x);
      assert Days(q, DayRange(q))(r) && GroupOf()(r) == k;
    } else {
      SelectHasKey(Concat(s.model), V1Filter(q, DayRange(q)), V1Group, k);
      var x :| A.HasKey(Concat(s.model), x) && V1Filter(q, DayRange(q))(x) && V1Group(x) == k;
      EmitHasKey(s.events.history, EmitModel, x);
      var r :| r in s.events.history && A.HasKey(EmitModel(r), x);
      A.HasKeyOne(EmitModel(r)[0], x);
      assert Days(q, DayRange(q))(r) && GroupOf()(r) == k;
    }
  }

  /** For every limit, time range and reachable state, the rollup answer ranks the model-provider groups of
      the inserted rows of its days. */
  lemma RollupTop(s: Store, q: Params, limit: nat, items: seq<A.Entry<Group>>)
    requires Reachable(s) && CostByModel(s, q, limit, items)
    ensures Ranks(items, s.events.history, Days(q, DayRange(q)), GroupOf(), limit)
    ensures CarriesTokens(items, s.events.history, Days(q, DayRange(q)), GroupOf())
    ensures LeavesOutCheapest(items, s.events.history, Days(q, DayRange(q)), GroupOf(), limit)
  {
    ReachableInv(s);
    GroupsOfSelected(s, q);
    var es := Selected(s, q);
    forall k
      ensures A.HasKey(es, k) ==> Occurs(s.events.history, Days(q, DayRange(q)), GroupOf(), k)
      ensures A.Total(es, A.AtKey(k)).cost == CostSum(s.events.history, GroupRows(q, k))
      ensures A.Total(es, A.AtKey(k)).tokens == TokenSum(s.events.history, GroupRows(q, k)) % TWO_64
      ensures A.Total(es, A.AtKey(k)).requests == CountRows(s.events.history, GroupRows(q, k)) % TWO_64
      ensures CountRows(s.events.history, GroupRows(q, k)) % TWO_64 != 0 ==> A.HasKey(es, k)
    {
      if A.HasKey(es, k) {
        SelectedOccurs(s, q, k);
      } else {
        A.NoKeyTotal(es, k);
      }
      SelectedSums(s, q, k);
    }
    RanksGroups(items, es, limit, s.events.history, Days(q, DayRange(q)), GroupOf());
    Cut(items, A.GroupBy(es), limit);
    forall x | x in items ensures x.agg.tokens == TokenSum(s.events.history, GroupRows(q, x.key)) % TWO_64 {
      A.GroupHolds(es, x);
    }
  }

  // ---------------------------------------------------------------- the rollup answer over FINAL rows

  function Weigh(p: Row -> bool): Row -> A.Agg {
    (r: Row) => if p(r) then RowAgg(r) else A.ZERO
  }

  /** The same rows in another order, picked by conditions that agree on them. */
  lemma SumsAgree(a: seq<Row>, b: seq<Row>, p: Row -> bool, p': Row -> bool)
    requires multiset(a) == multiset(b) && forall r :: r in a ==> p(r) == p'(r)
    ensures CostSum(a, p) == CostSum(b, p')
    ensures TokenSum(a, p) % TWO_64 == TokenSum(b, p') % TWO_64
    ensures CountRows(a, p) % TWO_64 == CountRows(b, p') % TWO_64
  {
    A.TotalPermutation(a, b, Weigh(p'));
    A.TotalSame(a, Weigh(p), Weigh(p'));
    WeighSums(a, p);
    WeighSums(b, p');
  }

  lemma WeighSums(rows: seq<Row>, p: Row -> bool)
    ensures A.Total(rows, Weigh(p)).cost == CostSum(rows, p)
    ensures A.Total(rows, Weigh(p)).tokens == TokenSum(rows, p) % TWO_64
    ensures A.Total(rows, Weigh(p)).requests == CountRows(rows, p) % TWO_64
  {
    Costs(rows, p, Weigh(p));
    Tokens(rows, p, Weigh(p));
    Counts(rows, p, Weigh(p));
  }

  lemma {:induction false} CountsOne(rows: seq<Row>, p: Row -> bool, r: Row)
    requires r in rows && p(r)
    ensures 0 < CountRows(rows, p) <= |rows|
  {
    CountsAtMost(rows[1..], p);
    if r != rows[0] {
      CountsOne(rows[1..], p, r);
    }
  }

  lemma {:induction false} CountsAtMost(rows: seq<Row>, p: Row -> bool)
    ensures CountRows(rows, p) <= |rows|
  {
    if rows != [] {
      CountsAtMost(rows[1..], p);
    }
  }

  /** When no key was inserted twice, FINAL holds the inserted rows. */
  lemma FinalIsHistory(s: Store, final: seq<Row>)
    requires Inv(s) && FinalRead(s.events, final) && UniqueKeys(s.events.history)
    ensures multiset(s.events.history) == multiset(final)
  {
    FinalIsHistoryCollapse(s.events, final);
    CollapseSplitsHistory(s.events.history);
    SupersededEmpty(s.events.history);
  }

  ghost predicate Alike(f: Row -> bool, f': Row -> bool) {
    forall r :: f(r) == f'(r)
  }

  lemma AlignedIsTimes(q: Params)
    requires q.feature == "" && FitsUInt32(q) && DayAligned(q)
    ensures Alike(Days(q, DayRange(q)), Times(q))
  {
    forall r ensures Days(q, DayRange(q))(r) == Times(q)(r) {
      AlignedDays(q, r);
      if InTimes(q, r) {
        TimesWithinDays(q, r);
      }
    }
  }

  /** The same rows in another order, under a condition that says the same. */
  lemma SameGroup<G(!new)>(a: seq<Row>, b: seq<Row>, f: Row -> bool, f': Row -> bool, g: Row -> G, k: G)
    requires multiset(a) == multiset(b) && Alike(f, f')
    ensures Occurs(a, f, g, k) ==> Occurs(b, f', g, k)
    ensures CostSum(a, In(f, g, k)) == CostSum(b, In(f', g, k))
    ensures TokenSum(a, In(f, g, k)) % TWO_64 == TokenSum(b, In(f', g, k)) % TWO_64
    ensures CountRows(a, In(f, g, k)) % TWO_64 == CountRows(b, In(f', g, k)) % TWO_64
  {
    forall r ensures In(f, g, k)(r) == In(f', g, k)(r) {
    }
    SumsAgree(a, b, In(f, g, k), In(f', g, k));
    if r :| r in a && f(r) && g(r) == k {
      assert r in multiset(b) && f'(r);
    }
  }

  lemma SameRanking<G(!new)>(items: seq<A.Entry<G>>, a: seq<Row>, b: seq<Row>, f: Row -> bool, f': Row -> bool, g: Row -> G, limit: nat)
    requires multiset(a) == multiset(b) && Alike(f, f')
    ensures Ranks(items, a, f, g, limit) ==> Ranks(items, b, f', g, limit)
    ensures CarriesTokens(items, a, f, g) ==> CarriesTokens(items, b, f', g)
    ensures LeavesOutCheapest(items, a, f, g, limit) ==> LeavesOutCheapest(items, b, f', g, limit)
  {
    forall k
      ensures Occurs(a, f, g, k) ==> Occurs(b, f', g, k)
      ensures CostSum(a, In(f, g, k)) == CostSum(b, In(f', g, k))
      ensures TokenSum(a, In(f, g, k)) % TWO_64 == TokenSum(b, In(f', g, k)) % TWO_64
      ensures CountRows(a, In(f, g, k)) % TWO_64 == CountRows(b, In(f', g, k)) % TWO_64
    {
      SameGroup(a, b, f, f', g, k);
    }
  }

  /** On a day-aligned range, when no key was inserted twice: the rollup answer ranks the model-provider
      groups of the FINAL rows of the time range, for every limit. */
  lemma RollupTopFinal(s: Store, final: seq<Row>, q: Params, limit: nat, items: seq<A.Entry<Group>>)
    requires Reachable(s) && FinalRead(s.events, final) && q.feature == "" && FitsUInt32(q)
    requires CostByModel(s, q, limit, items) && DayAligned(q) && UniqueKeys(s.events.history)
    ensures Ranks(items, final, Times(q), GroupOf(), limit)
    ensures CarriesTokens(items, final, Times(q), GroupOf())
    ensures LeavesOutCheapest(items, final, Times(q), GroupOf(), limit)
  {
    ReachableInv(s);
    FinalIsHistory(s, final);
    RollupTop(s, q, limit, items);
    AlignedIsTimes(q);
    SameRanking(items, s.events.history, final, Days(q, DayRange(q)), Times(q), GroupOf(), limit);
  }

  /** The whole dispatch, for every limit: a feature filter asks the events table, everything else a rollup;
      either way the answer ranks groups of the FINAL rows the query asks for and leaves out the cheapest. */
  lemma BreakdownTop(s: Store, final: seq<Row>, q: Params, limit: nat, b: Breakdown)
    requires Reachable(s) && FinalRead(s.events, final) && FitsUInt32(q) && CostBreakdown(s, final, q, limit, b)
    ensures b.FromEvents? <==> q.feature != ""
    ensures b.FromEvents? ==>
      && Ranks(b.rows, final, Times(q), ModelOf(), limit)
      && forall r :: r in final && InTimes(q, r) ==> Placed(b.rows, final, Times(q), ModelOf(), limit, r.model)
    ensures b.FromRollup? && DayAligned(q) && UniqueKeys(s.events.history) ==>
      && Ranks(b.items, final, Times(q), GroupOf(), limit)
      && LeavesOutCheapest(b.items, final, Times(q), GroupOf(), limit)
  {
    match b {
      case FromEvents(rows) => RawTop(final, q, limit, rows);
      case FromRollup(items) =>
        if DayAligned(q) && UniqueKeys(s.events.history) {
          RollupTopFinal(s, final, q, limit, items);
        }
    }
  }

  /** The condition of the raw query, filter by filter. */
  lemma InTimesMeaning(q: Params, r: Row)
    ensures Times(q)(r) <==>
            && r.org == q.org && q.from <= r.ms && r.ms <= q.to
            && (q.project != "" ==> r.project == q.project)
            && (q.model != "" ==> r.model == q.model)
            && (q.provider != "" ==> r.provider == q.provider)
            && (q.feature != "" ==> TagValue(r.tags, "feature") == q.feature)
  {
  }
}
