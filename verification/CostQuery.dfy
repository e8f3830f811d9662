/** `GetCostBreakdown` grouped by model: three physical sources of one answer
    (server/internal/storage/clickhouse.go). */
module CostQuery {
  import opened Sequences
  import opened Calendar
  import opened Domain
  import opened EventsTable
  import opened Warehouse
  import A = Aggregation

  /** Query parameters; the empty string means "no filter". Times in milliseconds. */
  datatype Params = Params(org: uint64, project: string, model: string, provider: string, feature: string, from: int, to: int)

  const MODEL_MV := "mv_cost_by_model_daily"

  function SelectMV(base: string, project: string): string {
    if project != "" then base + "_v2_target" else base + "_target"
  }

  /** The project-keyed target is read exactly when there is a project filter. */
  lemma SelectsV2Iff(base: string, project: string)
    ensures SelectMV(base, project) == base + "_v2_target" <==> project != ""
  {
    assert |base + "_v2_target"| != |base + "_target"|;
  }

  predicate NeedsCrossDimensional(q: Params, groupBy: string) {
    if groupBy == "model" then q.feature != ""
    else if groupBy == "feature" then q.model != "" || q.provider != ""
    else false
  }

  // ---------------------------------------------------------------- filters

  /** `toDate(toDateTime(uint32(t.Unix())))`: whole seconds, truncated to 32 bits, then the day. */
  function BoundDay(ms: int): int {
    ((ms / 1000) % TWO_32) / 86_400
  }

  predicate Passes(filter: string, value: string) {
    filter == "" || filter == value
  }

  /** The inclusive day range a rollup query selects. */
  datatype Range = Range(lo: int, hi: int)

  function DayRange(q: Params): Range {
    Range(BoundDay(q.from), BoundDay(q.to))
  }

  predicate KeyMatches(q: Params, d: Range, k: ModelKey) {
    && k.org == q.org && d.lo <= k.day <= d.hi
    && Passes(q.model, k.model) && Passes(q.provider, k.provider)
  }

  /** What the condition of a rollup query means for a source row. */
  predicate InDays(q: Params, d: Range, r: Row) {
    KeyMatches(q, d, ModelKeyOf(r)) && Passes(q.project, r.project)
  }

  /** The condition of the raw query, which compares timestamps and can filter the feature tag. */
  predicate InTimes(q: Params, r: Row) {
    && r.org == q.org && q.from <= r.ms <= q.to
    && Passes(q.project, r.project) && Passes(q.model, r.model) && Passes(q.provider, r.provider)
    && Passes(q.feature, TagValue(r.tags, "feature"))
  }

  // ---------------------------------------------------------------- answers

  datatype Group = Group(model: string, provider: string)

  /** SELECT g(key), measures WHERE p(key), before GROUP BY. */
  function Select<K, G>(es: seq<A.Entry<K>>, p: K -> bool, g: K -> G): seq<A.Entry<G>> {
    if es == [] then []
    else (if p(es[0].key) then [A.Entry(g(es[0].key), es[0].agg)] else []) + Select(es[1..], p, g)
  }

  /** The raw query selects cost and count only. */
  function SelectRaw(rows: seq<Row>, q: Params): seq<A.Entry<string>> {
    if rows == [] then []
    else (if InTimes(q, rows[0]) then [A.Entry(rows[0].model, TagAgg(rows[0]))] else []) + SelectRaw(rows[1..], q)
  }

  /** ORDER BY cost DESC LIMIT n: some sorted arrangement of the groups, cut off. */
  ghost predicate TopByCost<G(!new)>(items: seq<A.Entry<G>>, groups: seq<A.Entry<G>>, limit: nat) {
    exists sorted: seq<A.Entry<G>> ::
      && multiset(sorted) == multiset(groups)
      && (forall i, j :: 0 <= i < j < |sorted| ==> sorted[i].agg.cost >= sorted[j].agg.cost)
      && items == if |sorted| <= limit then sorted else sorted[..limit]
  }

  function V1Filter(q: Params, d: Range): ModelKey -> bool {
    (k: ModelKey) => KeyMatches(q, d, k)
  }

  function V2Filter(q: Params, d: Range): ProjectModelKey -> bool {
    (k: ProjectModelKey) => KeyMatches(q, d, k.base) && Passes(q.project, k.project)
  }

  function V1Group(k: ModelKey): Group {
    Group(k.model, k.provider)
  }

  function V2Group(k: ProjectModelKey): Group {
    V1Group(k.base)
  }

  function GroupsByModel(s: Store, q: Params): seq<A.Entry<Group>> {
    if SelectMV(MODEL_MV, q.project) == MODEL_MV + "_v2_target" then
      A.GroupBy(Select(Concat(s.modelV2), V2Filter(q, DayRange(q)), V2Group))
    else A.GroupBy(Select(Concat(s.model), V1Filter(q, DayRange(q)), V1Group))
  }

  /** An answer of `getCostByModel`: the target `SelectMV` names, grouped by model and provider. */
  ghost predicate CostByModel(s: Store, q: Params, limit: nat, items: seq<A.Entry<Group>>) {
    TopByCost(items, GroupsByModel(s, q), limit)
  }

  function RawGroups(final: seq<Row>, q: Params): seq<A.Entry<string>> {
    A.GroupBy(SelectRaw(final, q))
  }

  /** An answer of `getCostCrossDimensional` grouped by model, over a FINAL read of `events`. */
  ghost predicate CostRaw(final: seq<Row>, q: Params, limit: nat, items: seq<A.Entry<string>>) {
    TopByCost(items, RawGroups(final, q), limit)
  }

  function OfModel(m: string): Group -> bool {
    (g: Group) => g.model == m
  }

  function IsModel(m: string): string -> bool {
    (g: string) => g == m
  }

  datatype Answer = Answer(cost: real, requests: uint64)

  /** Cost and requests of one model in an answer of either shape. */
  function ModelAnswer(items: seq<A.Entry<Group>>, m: string): Answer {
    CostAndRequests(A.Total(items, A.Matching(OfModel(m))))
  }

  function RawAnswer(items: seq<A.Entry<string>>, m: string): Answer {
    CostAndRequests(A.Total(items, A.Matching(IsModel(m))))
  }

  // ---------------------------------------------------------------- meaning of the answers

  function RowWeight(f: Row -> bool, m: string): Row -> A.Agg {
    (r: Row) => if f(r) && r.model == m then RowAgg(r) else A.ZERO
  }

  function Days(q: Params, d: Range): Row -> bool {
    (r: Row) => InDays(q, d, r)
  }

  function Times(q: Params): Row -> bool {
    (r: Row) => InTimes(q, r)
  }

  /** Rows of the first and last day that the rollup counts and the time range excludes. */
  function Boundary(q: Params, d: Range): Row -> bool {
    (r: Row) => InDays(q, d, r) && !InTimes(q, r)
  }

  lemma UncutTotal<G(!new)>(items: seq<A.Entry<G>>, groups: seq<A.Entry<G>>, limit: nat, p: G -> bool)
    requires TopByCost(items, groups, limit) && |groups| <= limit
    ensures A.Total(items, A.Matching(p)) == A.Total(groups, A.Matching(p))
  {
    var sorted: seq<A.Entry<G>> :| multiset(sorted) == multiset(groups) && items == if |sorted| <= limit then sorted else sorted[..limit];
    assert |multiset(sorted)| == |multiset(groups)|;
    A.TotalPermutation(items, groups, A.Matching(p));
  }

  lemma {:induction false} SelectTotal<K, G>(es: seq<A.Entry<K>>, p: K -> bool, g: K -> G, q: G -> bool, both: K -> bool)
    requires forall k :: both(k) <==> p(k) && q(g(k))
    ensures A.Total(Select(es, p, g), A.Matching(q)) == A.Total(es, A.Matching(both))
  {
    if es != [] {
      SelectTotal(es[1..], p, g, q, both);
      var here := if p(es[0].key) then [A.Entry(g(es[0].key), es[0].agg)] else [];
      A.TotalAppend(here, Select(es[1..], p, g), A.Matching(q));
      if p(es[0].key) {
        A.TotalOne(here[0], A.Matching(q));
      }
    }
  }

  lemma GroupedTotal<K, G(!new)>(es: seq<A.Entry<K>>, p: K -> bool, g: K -> G, q: G -> bool, both: K -> bool)
    requires forall k :: both(k) <==> p(k) && q(g(k))
    ensures A.Total(A.GroupBy(Select(es, p, g)), A.Matching(q)) == A.Total(es, A.Matching(both))
  {
    A.GroupByTotal(Select(es, p, g), q);
    SelectTotal(es, p, g, q, both);
  }

  lemma V1Meaning(s: Store, q: Params, d: Range, m: string)
    requires Inv(s) && q.project == ""
    ensures A.Total(A.GroupBy(Select(Concat(s.model), V1Filter(q, d), V1Group)), A.Matching(OfModel(m))) ==
            A.Total(s.events.history, RowWeight(Days(q, d), m))
  {
    var both := (k: ModelKey) => KeyMatches(q, d, k) && k.model == m;
    GroupedTotal(Concat(s.model), V1Filter(q, d), V1Group, OfModel(m), both);
    ModelRollupIsDirect(s, both);
    forall r | r in s.events.history ensures ModelWeight(both)(r) == RowWeight(Days(q, d), m)(r) {
      assert both(ModelKeyOf(r)) <==> Days(q, d)(r) && r.model == m;
    }
    A.TotalSame(s.events.history, ModelWeight(both), RowWeight(Days(q, d), m));
  }

  lemma V2Meaning(s: Store, q: Params, d: Range, m: string)
    requires Inv(s)
    ensures A.Total(A.GroupBy(Select(Concat(s.modelV2), V2Filter(q, d), V2Group)), A.Matching(OfModel(m))) ==
            A.Total(s.events.history, RowWeight(Days(q, d), m))
  {
    var both := (k: ProjectModelKey) => KeyMatches(q, d, k.base) && Passes(q.project, k.project) && k.base.model == m;
    GroupedTotal(Concat(s.modelV2), V2Filter(q, d), V2Group, OfModel(m), both);
    ProjectRollupIsDirect(s, both);
    forall r | r in s.events.history ensures ProjectModelWeight(both)(r) == RowWeight(Days(q, d), m)(r) {
      assert both(ProjectModelKey(r.project, ModelKeyOf(r))) <==> Days(q, d)(r) && r.model == m;
    }
    A.TotalSame(s.events.history, ProjectModelWeight(both), RowWeight(Days(q, d), m));
  }

  /** Whichever target is chosen, an uncut answer sums all rows ever inserted that pass the day filter. */
  lemma CostByModelMeaning(s: Store, q: Params, limit: nat, items: seq<A.Entry<Group>>, m: string)
    requires Reachable(s) && CostByModel(s, q, limit, items) && |GroupsByModel(s, q)| <= limit
    ensures A.Total(items, A.Matching(OfModel(m))) == A.Total(s.events.history, RowWeight(Days(q, DayRange(q)), m))
  {
    ReachableInv(s);
    UncutTotal(items, GroupsByModel(s, q), limit, OfModel(m));
    SelectsV2Iff(MODEL_MV, q.project);
    if q.project != "" {
      V2Meaning(s, q, DayRange(q), m);
    } else {
      V1Meaning(s, q, DayRange(q), m);
    }
  }

  function CostAndRequests(a: A.Agg): Answer {
    Answer(a.cost, a.requests)
  }

  lemma {:induction false} SelectRawTotal(rows: seq<Row>, q: Params, m: string)
    ensures CostAndRequests(A.Total(SelectRaw(rows, q), A.Matching(IsModel(m)))) ==
            CostAndRequests(A.Total(rows, RowWeight(Times(q), m)))
  {
    if rows != [] {
      SelectRawTotal(rows[1..], q, m);
      SelectRawStep(rows[0], SelectRaw(rows[1..], q), rows[1..], q, InTimes(q, rows[0]), m);
    }
  }

  lemma SelectRawStep(r: Row, selected: seq<A.Entry<string>>, rest: seq<Row>, q: Params, hit: bool, m: string)
    requires hit == InTimes(q, r)
    requires CostAndRequests(A.Total(selected, A.Matching(IsModel(m)))) == CostAndRequests(A.Total(rest, RowWeight(Times(q), m)))
    ensures CostAndRequests(A.Total((if hit then [A.Entry(r.model, TagAgg(r))] else []) + selected, A.Matching(IsModel(m)))) ==
            CostAndRequests(A.Plus(RowWeight(Times(q), m)(r), A.Total(rest, RowWeight(Times(q), m))))
  {
    var a, b := A.Total(selected, A.Matching(IsModel(m))), A.Total(rest, RowWeight(Times(q), m));
    assert RowWeight(Times(q), m)(r) == WeightIf(hit && r.model == m, r);
    if hit {
      var x := A.Entry(r.model, TagAgg(r));
      A.TotalCons(x, selected, A.Matching(IsModel(m)));
      assert A.Matching(IsModel(m))(x) == if r.model == m then TagAgg(r) else A.ZERO;
      SamePlus(if r.model == m then TagAgg(r) else A.ZERO, WeightIf(r.model == m, r), a, b);
    } else {
      assert [] + selected == selected;
      A.PlusLaws(b, A.ZERO, A.ZERO);
    }
  }

  function WeightIf(c: bool, r: Row): A.Agg {
    if c then RowAgg(r) else A.ZERO
  }

  lemma SamePlus(a: A.Agg, a': A.Agg, b: A.Agg, b': A.Agg)
    requires CostAndRequests(a) == CostAndRequests(a') && CostAndRequests(b) == CostAndRequests(b')
    ensures CostAndRequests(A.Plus(a, b)) == CostAndRequests(A.Plus(a', b'))
  {
  }

  lemma CostRawMeaning(final: seq<Row>, q: Params, limit: nat, items: seq<A.Entry<string>>, m: string)
    requires CostRaw(final, q, limit, items) && |RawGroups(final, q)| <= limit
    ensures RawAnswer(items, m) == CostAndRequests(A.Total(final, RowWeight(Times(q), m)))
  {
    UncutTotal(items, RawGroups(final, q), limit, IsModel(m));
    A.GroupByTotal(SelectRaw(final, q), IsModel(m));
    SelectRawTotal(final, q, m);
  }

  lemma {:induction false} TotalSplits<T>(xs: seq<T>, u: T -> A.Agg, v: T -> A.Agg, w: T -> A.Agg)
    requires forall x :: x in xs ==> w(x) == A.Plus(u(x), v(x))
    ensures A.Total(xs, w) == A.Plus(A.Total(xs, u), A.Total(xs, v))
  {
    if xs != [] {
      TotalSplits(xs[1..], u, v, w);
      assert w(xs[0]) == A.Plus(u(xs[0]), v(xs[0]));
      Interchange(u(xs[0]), v(xs[0]), A.Total(xs[1..], u), A.Total(xs[1..], v));
    }
  }

  lemma Interchange(a: A.Agg, b: A.Agg, c: A.Agg, d: A.Agg)
    ensures A.Plus(A.Plus(a, b), A.Plus(c, d)) == A.Plus(A.Plus(a, c), A.Plus(b, d))
  {
    A.PlusLaws(a, b, A.Plus(c, d));
    A.SwapFirst(b, c, d);
    A.PlusLaws(a, c, A.Plus(b, d));
  }

  /** Both bounds fit the 32-bit seconds the rollup queries are given. */
  predicate FitsUInt32(q: Params) {
    0 <= q.from / 1000 < TWO_32 && 0 <= q.to / 1000 < TWO_32
  }

  lemma BoundDayIsDay(ms: int)
    requires 0 <= ms / 1000 < TWO_32
    ensures BoundDay(ms) == DayOf(ms)
  {
  }

  /** The bound is taken modulo 2^32 seconds. */
  lemma BoundDayWraps(ms: int)
    ensures BoundDay(ms + 1000 * TWO_32) == BoundDay(ms)
  {
    assert (ms + 1000 * TWO_32) / 1000 == ms / 1000 + TWO_32;
  }

  /** A single rollup target cannot serve filters on a dimension it does not have. */
  lemma CrossDimensionalIff(q: Params)
    ensures NeedsCrossDimensional(q, "model") <==> q.feature != ""
    ensures NeedsCrossDimensional(q, "feature") <==> q.model != "" || q.provider != ""
    ensures !NeedsCrossDimensional(q, "project")
  {
  }

  lemma TimesWithinDays(q: Params, r: Row)
    requires FitsUInt32(q) && InTimes(q, r)
    ensures InDays(q, DayRange(q), r)
  {
    BoundDayIsDay(q.from);
    BoundDayIsDay(q.to);
  }

  lemma DaysSplit(q: Params, r: Row, m: string)
    requires FitsUInt32(q)
    ensures RowWeight(Days(q, DayRange(q)), m)(r) ==
            A.Plus(RowWeight(Times(q), m)(r), RowWeight(Boundary(q, DayRange(q)), m)(r))
  {
    var d := DayRange(q);
    var days, times := InDays(q, d, r), InTimes(q, r);
    assert times ==> days by {
      if times {
        TimesWithinDays(q, r);
      }
    }
    SplitWeight(days, times, r, m);
  }

  lemma SplitWeight(days: bool, times: bool, r: Row, m: string)
    requires times ==> days
    ensures (if days && r.model == m then RowAgg(r) else A.ZERO) ==
            A.Plus(if times && r.model == m then RowAgg(r) else A.ZERO, if days && !times && r.model == m then RowAgg(r) else A.ZERO)
  {
  }

  /** What the rollup answer holds beyond the raw one: boundary rows of the first and last day, and rows
      that a later insert of the same key replaced. */
  function Extra(s: Store, final: seq<Row>, q: Params, d: Range, m: string): A.Agg {
    TwoTotals(final, Superseded(s.events.history), Boundary(q, d), Days(q, d), m)
  }

  function TwoTotals(a: seq<Row>, b: seq<Row>, f: Row -> bool, g: Row -> bool, m: string): A.Agg {
    A.Plus(A.Total(a, RowWeight(f, m)), A.Total(b, RowWeight(g, m)))
  }

  ghost predicate UncutAnswers(s: Store, final: seq<Row>, q: Params, limit: nat,
                               items: seq<A.Entry<Group>>, raw: seq<A.Entry<string>>) {
    && Reachable(s) && FinalRead(s.events, final) && q.feature == "" && FitsUInt32(q)
    && CostByModel(s, q, limit, items) && |GroupsByModel(s, q)| <= limit
    && CostRaw(final, q, limit, raw) && |RawGroups(final, q)| <= limit
  }

  lemma HistoryDecomposes(s: Store, final: seq<Row>, q: Params, m: string)
    requires Inv(s) && FinalRead(s.events, final) && FitsUInt32(q)
    ensures A.Total(s.events.history, RowWeight(Days(q, DayRange(q)), m)) ==
            A.Plus(A.Total(final, RowWeight(Times(q), m)), Extra(s, final, q, DayRange(q), m))
  {
    var days, times, edge := RowWeight(Days(q, DayRange(q)), m), RowWeight(Times(q), m), RowWeight(Boundary(q, DayRange(q)), m);
    HistoryTotal(s, final, days);
    forall r | r in final ensures days(r) == A.Plus(times(r), edge(r)) {
      DaysSplit(q, r, m);
    }
    TotalSplits(final, times, edge, days);
    A.PlusLaws(A.Total(final, times), A.Total(final, edge), A.Total(Superseded(s.events.history), days));
  }

  /** The rollup answer, decomposed: in every reachable state and for every time range, rollup = raw +
      boundary + replaced, for the target either way `SelectMV` goes. */
  lemma RollupAnswerDecomposes(s: Store, final: seq<Row>, q: Params, limit: nat,
                               items: seq<A.Entry<Group>>, raw: seq<A.Entry<string>>, m: string)
    requires UncutAnswers(s, final, q, limit, items, raw)
    ensures ModelAnswer(items, m) ==
            Raise(RawAnswer(raw, m), Extra(s, final, q, DayRange(q), m))
  {
    ReachableInv(s);
    CostByModelMeaning(s, q, limit, items, m);
    CostRawMeaning(final, q, limit, raw, m);
    HistoryDecomposes(s, final, q, m);
    RaisePlus(A.Total(final, RowWeight(Times(q), m)), Extra(s, final, q, DayRange(q), m));
  }

  function Raise(answer: Answer, extra: A.Agg): Answer {
    Answer(answer.cost + extra.cost, A.AddU64(answer.requests, extra.requests))
  }

  lemma RaisePlus(a: A.Agg, b: A.Agg)
    ensures CostAndRequests(A.Plus(a, b)) == Raise(CostAndRequests(a), b)
  {
  }

  predicate DayAligned(q: Params) {
    q.from % MS_PER_DAY == 0 && q.to % MS_PER_DAY == MS_PER_DAY - 1
  }

  /** On a day-aligned range, when no key was inserted twice, the rollup answer is the aggregate of the
      FINAL rows in the time range. */
  lemma RollupIsDirect(s: Store, final: seq<Row>, q: Params, limit: nat, items: seq<A.Entry<Group>>, m: string)
    requires Reachable(s) && FinalRead(s.events, final) && q.feature == "" && FitsUInt32(q)
    requires CostByModel(s, q, limit, items) && |GroupsByModel(s, q)| <= limit
    requires DayAligned(q) && UniqueKeys(s.events.history)
    ensures ModelAnswer(items, m) == CostAndRequests(A.Total(final, RowWeight(Times(q), m)))
  {
    ReachableInv(s);
    CostByModelMeaning(s, q, limit, items, m);
    HistoryDecomposes(s, final, q, m);
    NothingExtra(s, final, q, m);
    RaisePlus(A.Total(final, RowWeight(Times(q), m)), A.ZERO);
    RaiseNothing(CostAndRequests(A.Total(final, RowWeight(Times(q), m))));
  }

  lemma NothingExtra(s: Store, final: seq<Row>, q: Params, m: string)
    requires q.feature == "" && FitsUInt32(q) && DayAligned(q) && UniqueKeys(s.events.history)
    ensures Extra(s, final, q, DayRange(q), m) == A.ZERO
  {
    SupersededEmpty(s.events.history);
    forall r | r in final ensures !Boundary(q, DayRange(q))(r) {
      AlignedDays(q, r);
    }
    NothingTotal(final, Boundary(q, DayRange(q)), m);
    NothingTotal([], Days(q, DayRange(q)), m);
    A.AddZero(A.ZERO);
  }

  /** Routing preserves meaning: on a day-aligned range, when no key was inserted twice, the rollup
      target (either version) and the raw FINAL query give every model the same cost and requests. */
  lemma RoutesAgree(s: Store, final: seq<Row>, q: Params, limit: nat,
                    items: seq<A.Entry<Group>>, raw: seq<A.Entry<string>>, m: string)
    requires UncutAnswers(s, final, q, limit, items, raw)
    requires DayAligned(q) && UniqueKeys(s.events.history)
    ensures ModelAnswer(items, m) == RawAnswer(raw, m)
  {
    RollupIsDirect(s, final, q, limit, items, m);
    CostRawMeaning(final, q, limit, raw, m);
  }

  /** What `GetCostBreakdown` returns for group_by model: rows of a rollup target or of the raw query. */
  datatype Breakdown = FromRollup(items: seq<A.Entry<Group>>) | FromEvents(rows: seq<A.Entry<string>>)

  ghost predicate CostBreakdown(s: Store, final: seq<Row>, q: Params, limit: nat, b: Breakdown) {
    if NeedsCrossDimensional(q, "model") then b.FromEvents? && CostRaw(final, q, limit, b.rows)
    else b.FromRollup? && CostByModel(s, q, limit, b.items)
  }

  function BreakdownAnswer(b: Breakdown, m: string): Answer {
    match b
    case FromRollup(items) => ModelAnswer(items, m)
    case FromEvents(rows) => RawAnswer(rows, m)
  }

  /** The whole dispatch: for every filter combination, on a day-aligned range, when no key was inserted
      twice and the limit cuts nothing, the breakdown is the aggregate of the matching FINAL rows. */
  lemma BreakdownIsDirect(s: Store, final: seq<Row>, q: Params, limit: nat, b: Breakdown, m: string)
    requires Reachable(s) && FinalRead(s.events, final) && FitsUInt32(q)
    requires CostBreakdown(s, final, q, limit, b)
    requires (if NeedsCrossDimensional(q, "model") then |RawGroups(final, q)| else |GroupsByModel(s, q)|) <= limit
    requires DayAligned(q) && UniqueKeys(s.events.history)
    ensures BreakdownAnswer(b, m) == CostAndRequests(A.Total(final, RowWeight(Times(q), m)))
  {
    match b {
      case FromEvents(rows) => CostRawMeaning(final, q, limit, rows, m);
      case FromRollup(items) => RollupIsDirect(s, final, q, limit, items, m);
    }
  }

  lemma RaiseNothing(answer: Answer)
    ensures Raise(answer, A.ZERO) == answer
  {
  }

  lemma AlignedDays(q: Params, r: Row)
    requires FitsUInt32(q) && DayAligned(q) && q.feature == ""
    ensures InDays(q, DayRange(q), r) ==> InTimes(q, r)
  {
    BoundDayIsDay(q.from);
    BoundDayIsDay(q.to);
  }

  lemma {:induction false} NothingTotal(rows: seq<Row>, f: Row -> bool, m: string)
    requires forall r :: r in rows ==> !f(r)
    ensures A.Total(rows, RowWeight(f, m)) == A.ZERO
  {
    if rows != [] {
      NothingTotal(rows[1..], f, m);
    }
  }

  /** How many rows the rollup counts and the raw query does not. */
  function ExtraRows(s: Store, final: seq<Row>, q: Params, d: Range, m: string): nat {
    TwoCounts(final, Superseded(s.events.history), Boundary(q, d), Days(q, d), m)
  }

  function TwoCounts(a: seq<Row>, b: seq<Row>, f: Row -> bool, g: Row -> bool, m: string): nat {
    CountRows(a, OfModelIn(f, m)) + CountRows(b, OfModelIn(g, m))
  }

  lemma ExtraRequests(s: Store, final: seq<Row>, q: Params, d: Range, m: string)
    ensures Extra(s, final, q, d, m).requests == ExtraRows(s, final, q, d, m) % TWO_64
  {
    TwoTotalsCount(final, Superseded(s.events.history), Boundary(q, d), Days(q, d), m);
  }

  lemma TwoTotalsCount(a: seq<Row>, b: seq<Row>, f: Row -> bool, g: Row -> bool, m: string)
    ensures TwoTotals(a, b, f, g, m).requests == TwoCounts(a, b, f, g, m) % TWO_64
  {
    var x, n := WeightCounts(a, f, m);
    var y, k := WeightCounts(b, g, m);
    PlusRequests(x, y, n, k, TwoTotals(a, b, f, g, m), TwoCounts(a, b, f, g, m));
  }

  lemma WeightCounts(rows: seq<Row>, f: Row -> bool, m: string) returns (total: A.Agg, n: nat)
    ensures total == A.Total(rows, RowWeight(f, m)) && n == CountRows(rows, OfModelIn(f, m))
    ensures total.requests == n % TWO_64
  {
    total, n := A.Total(rows, RowWeight(f, m)), CountRows(rows, OfModelIn(f, m));
    Counts(rows, OfModelIn(f, m), RowWeight(f, m));
  }

  lemma PlusRequests(x: A.Agg, y: A.Agg, n: nat, k: nat, total: A.Agg, count: nat)
    requires x.requests == n % TWO_64 && y.requests == k % TWO_64
    requires total == A.Plus(x, y) && count == n + k
    ensures total.requests == count % TWO_64
  {
    SumWraps(n, k);
  }

  /** The request counts agree exactly when boundary and replaced rows cancel out, modulo 2^64. */
  lemma RoutesAgreeOnRequestsIff(s: Store, final: seq<Row>, q: Params, limit: nat,
                                 items: seq<A.Entry<Group>>, raw: seq<A.Entry<string>>, m: string)
    requires UncutAnswers(s, final, q, limit, items, raw)
    ensures ModelAnswer(items, m).requests == RawAnswer(raw, m).requests <==> ExtraRows(s, final, q, DayRange(q), m) % TWO_64 == 0
  {
    RollupAnswerDecomposes(s, final, q, limit, items, raw, m);
    ExtraRequests(s, final, q, DayRange(q), m);
    AddsNothingIff(RawAnswer(raw, m).requests, Extra(s, final, q, DayRange(q), m).requests);
  }

  lemma AddsNothingIff(a: uint64, b: uint64)
    ensures A.AddU64(a, b) == a <==> b == 0
  {
  }

  function OfModelIn(f: Row -> bool, m: string): Row -> bool {
    (r: Row) => f(r) && r.model == m
  }

  lemma SumWraps(a: nat, b: nat)
    ensures A.AddU64(a % TWO_64, b % TWO_64) == (a + b) % TWO_64
  {
  }
}
