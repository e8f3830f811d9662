/** The ClickHouse store: the `events` table with its four daily rollups, and what rollups and FINAL
    reads agree on in every reachable state. */
module Warehouse {
  import opened Sequences
  import opened Calendar
  import opened Domain
  import opened EventsTable
  import A = Aggregation

  // ---------------------------------------------------------------- rows of an insert

  function RowOf(e: Event, now: int): Row
    requires e.uuid.Some?
  {
    Row(e.org, e.uuid.value, e.project, e.ms, now, e.model, e.provider,
        e.promptTokens, e.completionTokens, e.totalTokens, e.cost, e.tags, e.s3Key, e.s3Status)
  }

  predicate WellFormed(events: seq<Event>) {
    forall i :: 0 <= i < |events| ==> events[i].uuid.Some?
  }

  /** The batch `InsertEvents` sends: nothing at all when one id does not parse. */
  function BatchOf(events: seq<Event>, now: int): Option<seq<Row>> {
    if WellFormed(events) then Some(seq(|events|, i requires 0 <= i < |events| => RowOf(events[i], now))) else None
  }

  /** One row for each event, in order, its columns the event's fields; one id that does not parse fails all. */
  method BuildBatch(events: seq<Event>, now: int) returns (r: Option<seq<Row>>)
    ensures r == BatchOf(events, now)
    ensures r.None? <==> exists i :: 0 <= i < |events| && events[i].uuid.None?
    ensures r.Some? ==> |r.value| == |events|
    ensures r.Some? ==> forall i :: 0 <= i < |events| ==>
      && r.value[i].org == events[i].org && events[i].uuid == Some(r.value[i].uuid)
      && r.value[i].project == events[i].project && r.value[i].ms == events[i].ms && r.value[i].insertedAt == now
      && r.value[i].model == events[i].model && r.value[i].provider == events[i].provider
      && r.value[i].promptTokens == events[i].promptTokens && r.value[i].completionTokens == events[i].completionTokens
      && r.value[i].totalTokens == events[i].totalTokens && r.value[i].cost == events[i].cost
      && r.value[i].tags == events[i].tags && r.value[i].s3Key == events[i].s3Key && r.value[i].s3Status == events[i].s3Status
  {
    var batch := [];
    for i := 0 to |events|
      invariant WellFormed(events[..i])
      invariant batch == BatchOf(events[..i], now).value
    {
      if events[i].uuid.None? {
        return None;
      }
      batch := batch + [RowOf(events[i], now)];
      assert events[..i + 1] == events[..i] + [events[i]];
    }
    assert events[..|events|] == events;
    r := Some(batch);
  }

  // ---------------------------------------------------------------- the views

  datatype ModelKey = ModelKey(org: uint64, day: int, model: string, provider: string)
  datatype ProjectModelKey = ProjectModelKey(project: string, base: ModelKey)
  datatype TagKey = TagKey(org: uint64, day: int, tag: Tag)
  datatype ProjectTagKey = ProjectTagKey(project: string, base: TagKey)

  function ModelKeyOf(r: Row): ModelKey {
    ModelKey(r.org, DayOf(r.ms), r.model, r.provider)
  }

  function RowAgg(r: Row): A.Agg {
    A.Agg(r.cost, r.totalTokens, 1)
  }

  /** The tag targets have no token column. */
  function TagAgg(r: Row): A.Agg {
    A.Agg(r.cost, 0, 1)
  }

  function EmitModel(r: Row): seq<A.Entry<ModelKey>> {
    [A.Entry(ModelKeyOf(r), RowAgg(r))]
  }

  function EmitModelV2(r: Row): seq<A.Entry<ProjectModelKey>> {
    [A.Entry(ProjectModelKey(r.project, ModelKeyOf(r)), RowAgg(r))]
  }

  /** ARRAY JOIN over the tag map: one row for each tag. */
  function EmitTag(r: Row): seq<A.Entry<TagKey>> {
    TagEntries(r, r.tags)
  }

  function TagEntries(r: Row, tags: seq<Tag>): seq<A.Entry<TagKey>> {
    if tags == [] then []
    else [A.Entry(TagKey(r.org, DayOf(r.ms), tags[0]), TagAgg(r))] + TagEntries(r, tags[1..])
  }

  function EmitTagV2(r: Row): seq<A.Entry<ProjectTagKey>> {
    ProjectTagEntries(r, r.tags)
  }

  function ProjectTagEntries(r: Row, tags: seq<Tag>): seq<A.Entry<ProjectTagKey>> {
    if tags == [] then []
    else
      [A.Entry(ProjectTagKey(r.project, TagKey(r.org, DayOf(r.ms), tags[0])), TagAgg(r))] +
      ProjectTagEntries(r, tags[1..])
  }

  // ---------------------------------------------------------------- the state and its steps

  datatype Store = Store(
    events: Table, model: A.Target<ModelKey>, modelV2: A.Target<ProjectModelKey>,
    tag: A.Target<TagKey>, tagV2: A.Target<ProjectTagKey>)

  const EMPTY := Store(Table([], []), [], [], [], [])

  /** One insert block reaches the table and, through the views, every target. */
  ghost predicate Ingests(s: Store, s': Store, rows: seq<Row>) {
    && s'.events == Insert(s.events, rows)
    && A.ViewInserts(s.model, s'.model, EmitModel, rows)
    && A.ViewInserts(s.modelV2, s'.modelV2, EmitModelV2, rows)
    && A.ViewInserts(s.tag, s'.tag, EmitTag, rows)
    && A.ViewInserts(s.tagV2, s'.tagV2, EmitTagV2, rows)
  }

  /** Every block can be ingested. */
  lemma IngestExists(s: Store, rows: seq<Row>) returns (s': Store)
    ensures Ingests(s, s', rows)
  {
    s' := Store(Insert(s.events, rows),
                s.model + [A.GroupBy(A.EmitAll(rows, EmitModel))], s.modelV2 + [A.GroupBy(A.EmitAll(rows, EmitModelV2))],
                s.tag + [A.GroupBy(A.EmitAll(rows, EmitTag))], s.tagV2 + [A.GroupBy(A.EmitAll(rows, EmitTagV2))]);
    A.ViewInsertExists(s.model, EmitModel, rows);
    A.ViewInsertExists(s.modelV2, EmitModelV2, rows);
    A.ViewInsertExists(s.tag, EmitTag, rows);
    A.ViewInsertExists(s.tagV2, EmitTagV2, rows);
  }

  /** One background merge, in any of the five tables. */
  ghost predicate Background(s: Store, s': Store) {
    || (exists g :: Merges(s.events, s'.events, g) && s' == s.(events := s'.events))
    || (A.ViewMerges(s.model, s'.model) && s' == s.(model := s'.model))
    || (A.ViewMerges(s.modelV2, s'.modelV2) && s' == s.(modelV2 := s'.modelV2))
    || (A.ViewMerges(s.tag, s'.tag) && s' == s.(tag := s'.tag))
    || (A.ViewMerges(s.tagV2, s'.tagV2) && s' == s.(tagV2 := s'.tagV2))
  }

  /** The row `UpdateS3Status` writes for the row `r` its inner SELECT picked. */
  function Restated(r: Row, status: S3Status, key: string, now: int): Row {
    r.(insertedAt := now, s3Status := status, s3Key := key)
  }

  /** `UpdateS3Status` copies some stored row of that event id, or nothing when there is none. */
  ghost predicate UpdatesStatus(s: Store, s': Store, id: nat, status: S3Status, key: string) {
    || (s' == s && forall r :: r in Contents(s.events.parts) ==> r.uuid != id)
    || (exists r, now :: r in Contents(s.events.parts) && r.uuid == id && Ingests(s, s', [Restated(r, status, key, now)]))
  }

  /** It inserts at most one row: a stored one with new S3 columns. */
  lemma StatusRows(s: Store, s': Store, id: nat, status: S3Status, key: string) returns (more: seq<Row>)
    requires UpdatesStatus(s, s', id, status, key) && forall r :: r in Contents(s.events.parts) ==> r in s.events.history
    ensures |more| <= 1 && s'.events.history == s.events.history + more
    ensures forall x :: x in more ==>
              exists r :: r in s.events.history && r.uuid == id && x == Restated(r, status, key, x.insertedAt)
  {
    if r, now :| r in Contents(s.events.parts) && r.uuid == id && Ingests(s, s', [Restated(r, status, key, now)]) {
      more := [Restated(r, status, key, now)];
      assert Restated(r, status, key, now).insertedAt == now;
    } else {
      more := [];
    }
  }

  ghost predicate Next(s: Store, s': Store) {
    || (exists rows :: Ingests(s, s', rows))
    || Background(s, s')
    || s' == s
  }

  ghost predicate Run(run: seq<Store>) {
    run != [] && run[0] == EMPTY && forall i :: 0 <= i < |run| - 1 ==> Next(run[i], run[i + 1])
  }

  ghost predicate Inv(s: Store) {
    && TableInv(s.events)
    && A.TargetInv(s.model, EmitModel, s.events.history)
    && A.TargetInv(s.modelV2, EmitModelV2, s.events.history)
    && A.TargetInv(s.tag, EmitTag, s.events.history)
    && A.TargetInv(s.tagV2, EmitTagV2, s.events.history)
  }

  lemma IngestKeepsInv(s: Store, s': Store, rows: seq<Row>)
    requires Inv(s) && Ingests(s, s', rows)
    ensures Inv(s')
  {
    InsertKeepsInv(s.events, rows);
    A.ViewInsertKeepsInv(s.model, s'.model, EmitModel, s.events.history, rows);
    A.ViewInsertKeepsInv(s.modelV2, s'.modelV2, EmitModelV2, s.events.history, rows);
    A.ViewInsertKeepsInv(s.tag, s'.tag, EmitTag, s.events.history, rows);
    A.ViewInsertKeepsInv(s.tagV2, s'.tagV2, EmitTagV2, s.events.history, rows);
  }

  lemma BackgroundKeepsInv(s: Store, s': Store)
    requires Inv(s) && Background(s, s')
    ensures Inv(s') && s'.events.history == s.events.history
    ensures forall k :: Latest(Contents(s'.events.parts), k) == Latest(Contents(s.events.parts), k)
  {
    var h := s.events.history;
    if g :| Merges(s.events, s'.events, g) && s' == s.(events := s'.events) {
      MergeKeepsInv(s.events, s'.events, g);
    } else if A.ViewMerges(s.model, s'.model) && s' == s.(model := s'.model) {
      A.ViewMergeKeepsInv(s.model, s'.model, EmitModel, h);
    } else if A.ViewMerges(s.modelV2, s'.modelV2) && s' == s.(modelV2 := s'.modelV2) {
      A.ViewMergeKeepsInv(s.modelV2, s'.modelV2, EmitModelV2, h);
    } else if A.ViewMerges(s.tag, s'.tag) && s' == s.(tag := s'.tag) {
      A.ViewMergeKeepsInv(s.tag, s'.tag, EmitTag, h);
    } else {
      A.ViewMergeKeepsInv(s.tagV2, s'.tagV2, EmitTagV2, h);
    }
  }

  lemma NextKeepsInv(s: Store, s': Store)
    requires Inv(s) && Next(s, s')
    ensures Inv(s')
  {
    if rows :| Ingests(s, s', rows) {
      IngestKeepsInv(s, s', rows);
    } else if Background(s, s') {
      BackgroundKeepsInv(s, s');
    }
  }

  /** Whatever blocks were inserted and whatever merges ran, in any order: FINAL is the collapse of the
      insert history and each target is its direct aggregate. */
  lemma {:induction false} RunKeepsInv(run: seq<Store>)
    requires Run(run)
    ensures Inv(run[|run| - 1])
    decreases |run|
  {
    if |run| > 1 {
      var n := |run| - 1;
      RunKeepsInv(run[..n]);
      assert run[..n][n - 1] == run[n - 1];
      assert Next(run[n - 1], run[n - 1 + 1]);
      NextKeepsInv(run[n - 1], run[n]);
    }
  }

  ghost predicate Reachable(s: Store) {
    exists run :: Run(run) && s == run[|run| - 1]
  }

  lemma ReachableInv(s: Store)
    requires Reachable(s)
    ensures Inv(s)
  {
    var run :| Run(run) && s == run[|run| - 1];
    RunKeepsInv(run);
  }

  // ---------------------------------------------------------------- sums over rows

  function CountRows(rows: seq<Row>, p: Row -> bool): nat {
    if rows == [] then 0 else (if p(rows[0]) then 1 else 0) + CountRows(rows[1..], p)
  }

  function CostSum(rows: seq<Row>, p: Row -> bool): real {
    if rows == [] then 0.0 else (if p(rows[0]) then rows[0].cost else 0.0) + CostSum(rows[1..], p)
  }

  function TokenSum(rows: seq<Row>, p: Row -> bool): nat {
    if rows == [] then 0 else (if p(rows[0]) then rows[0].totalTokens else 0) + TokenSum(rows[1..], p)
  }

  /** A filtered total adds up the costs, and counts rows and tokens modulo the counter width. */
  lemma {:induction false} Costs(rows: seq<Row>, p: Row -> bool, w: Row -> A.Agg)
    requires forall r :: r in rows ==> w(r).cost == if p(r) then r.cost else 0.0
    ensures A.Total(rows, w).cost == CostSum(rows, p)
  {
    if rows != [] {
      Costs(rows[1..], p, w);
      assert rows[0] in rows;
    }
  }

  lemma {:induction false} Counts(rows: seq<Row>, p: Row -> bool, w: Row -> A.Agg)
    requires forall r :: r in rows ==> w(r).requests == if p(r) then 1 else 0
    ensures A.Total(rows, w).requests == CountRows(rows, p) % TWO_64
  {
    if rows != [] {
      Counts(rows[1..], p, w);
      assert rows[0] in rows;
      AddWraps(if p(rows[0]) then 1 else 0, CountRows(rows[1..], p));
    }
  }

  lemma {:induction false} Tokens(rows: seq<Row>, p: Row -> bool, w: Row -> A.Agg)
    requires forall r :: r in rows ==> w(r).tokens == if p(r) then r.totalTokens else 0
    ensures A.Total(rows, w).tokens == TokenSum(rows, p) % TWO_64
  {
    if rows != [] {
      Tokens(rows[1..], p, w);
      assert rows[0] in rows;
      AddWraps(if p(rows[0]) then rows[0].totalTokens else 0, TokenSum(rows[1..], p));
    }
  }

  lemma AddWraps(x: uint64, n: nat)
    ensures A.AddU64(x, n % TWO_64) == (x + n) % TWO_64
  {
    A.AddU64Wraps(x, n % TWO_64);
  }

  // ---------------------------------------------------------------- rollups are direct aggregates

  /** The rows of one organisation, day, model and provider. */
  function ModelRows(org: uint64, day: int, model: string, provider: string): Row -> bool {
    (r: Row) => r.org == org && DayOf(r.ms) == day && r.model == model && r.provider == provider
  }

  /** The rows of one organisation and day whose tag `key` reads `value`. */
  function TagRows(org: uint64, day: int, key: string, value: string): Row -> bool {
    (r: Row) => r.org == org && DayOf(r.ms) == day && HasTag(r.tags, key) && TagValue(r.tags, key) == value
  }

  function InProject(project: string, p: Row -> bool): Row -> bool {
    (r: Row) => r.project == project && p(r)
  }

  lemma KeyTotal<K(!new)>(t: A.Target<K>, emit: Row -> seq<A.Entry<K>>, history: seq<Row>, k: K)
    requires A.TargetInv(t, emit, history)
    ensures A.Total(Concat(t), A.AtKey(k)) == A.Total(history, A.PerRow(emit, A.AtKey(k)))
  {
    A.EmitTotal(history, emit, A.AtKey(k));
  }

  /** What one key of each target adds up to: costs, tokens and number of exactly the inserted rows it stands
      for. (The tag targets have no token column.) */
  lemma ModelRollupSums(s: Store, org: uint64, day: int, model: string, provider: string)
    requires Reachable(s)
    ensures var t := A.Total(Concat(s.model), A.AtKey(ModelKey(org, day, model, provider)));
            && t.cost == CostSum(s.events.history, ModelRows(org, day, model, provider))
            && t.tokens == TokenSum(s.events.history, ModelRows(org, day, model, provider)) % TWO_64
            && t.requests == CountRows(s.events.history, ModelRows(org, day, model, provider)) % TWO_64
  {
    var k, p := ModelKey(org, day, model, provider), ModelRows(org, day, model, provider);
    ReachableInv(s);
    KeyTotal(s.model, EmitModel, s.events.history, k);
    forall r ensures A.PerRow(EmitModel, A.AtKey(k))(r) == if p(r) then RowAgg(r) else A.ZERO {
      A.TotalOne(EmitModel(r)[0], A.AtKey(k));
    }
    Costs(s.events.history, p, A.PerRow(EmitModel, A.AtKey(k)));
    Counts(s.events.history, p, A.PerRow(EmitModel, A.AtKey(k)));
    Tokens(s.events.history, p, A.PerRow(EmitModel, A.AtKey(k)));
  }

  lemma ProjectRollupSums(s: Store, project: string, org: uint64, day: int, model: string, provider: string)
    requires Reachable(s)
    ensures var t := A.Total(Concat(s.modelV2), A.AtKey(ProjectModelKey(project, ModelKey(org, day, model, provider))));
            && t.cost == CostSum(s.events.history, InProject(project, ModelRows(org, day, model, provider)))
            && t.tokens == TokenSum(s.events.history, InProject(project, ModelRows(org, day, model, provider))) % TWO_64
            && t.requests == CountRows(s.events.history, InProject(project, ModelRows(org, day, model, provider))) % TWO_64
  {
    var k, p := ProjectModelKey(project, ModelKey(org, day, model, provider)), InProject(project, ModelRows(org, day, model, provider));
    ReachableInv(s);
    KeyTotal(s.modelV2, EmitModelV2, s.events.history, k);
    forall r ensures A.PerRow(EmitModelV2, A.AtKey(k))(r) == if p(r) then RowAgg(r) else A.ZERO {
      A.TotalOne(EmitModelV2(r)[0], A.AtKey(k));
    }
    Costs(s.events.history, p, A.PerRow(EmitModelV2, A.AtKey(k)));
    Counts(s.events.history, p, A.PerRow(EmitModelV2, A.AtKey(k)));
    Tokens(s.events.history, p, A.PerRow(EmitModelV2, A.AtKey(k)));
  }

  lemma TagRollupSums(s: Store, org: uint64, day: int, key: string, value: string)
    requires Reachable(s) && forall r :: r in s.events.history ==> UniqueTags(r.tags)
    ensures var t := A.Total(Concat(s.tag), A.AtKey(TagKey(org, day, Tag(key, value))));
            && t.cost == CostSum(s.events.history, TagRows(org, day, key, value))
            && t.requests == CountRows(s.events.history, TagRows(org, day, key, value)) % TWO_64
  {
    var k, p := TagKey(org, day, Tag(key, value)), TagRows(org, day, key, value);
    ReachableInv(s);
    KeyTotal(s.tag, EmitTag, s.events.history, k);
    forall r | r in s.events.history ensures A.PerRow(EmitTag, A.AtKey(k))(r) == if p(r) then TagAgg(r) else A.ZERO {
      OneTagOfRow(r, r.tags, org, day, key, value);
      assert EmitTag(r) == TagEntries(r, r.tags);
    }
    Costs(s.events.history, p, A.PerRow(EmitTag, A.AtKey(k)));
    Counts(s.events.history, p, A.PerRow(EmitTag, A.AtKey(k)));
  }

  lemma ProjectTagRollupSums(s: Store, project: string, org: uint64, day: int, key: string, value: string)
    requires Reachable(s) && forall r :: r in s.events.history ==> UniqueTags(r.tags)
    ensures var t := A.Total(Concat(s.tagV2), A.AtKey(ProjectTagKey(project, TagKey(org, day, Tag(key, value)))));
            && t.cost == CostSum(s.events.history, InProject(project, TagRows(org, day, key, value)))
            && t.requests == CountRows(s.events.history, InProject(project, TagRows(org, day, key, value))) % TWO_64
  {
    var base, p := TagKey(org, day, Tag(key, value)), InProject(project, TagRows(org, day, key, value));
    var k := ProjectTagKey(project, base);
    ReachableInv(s);
    KeyTotal(s.tagV2, EmitTagV2, s.events.history, k);
    forall r | r in s.events.history ensures A.PerRow(EmitTagV2, A.AtKey(k))(r) == if p(r) then TagAgg(r) else A.ZERO {
      OneTagOfRow(r, r.tags, org, day, key, value);
      TagOfProject(r, r.tags, project, base);
      assert EmitTagV2(r) == ProjectTagEntries(r, r.tags);
    }
    Costs(s.events.history, p, A.PerRow(EmitTagV2, A.AtKey(k)));
    Counts(s.events.history, p, A.PerRow(EmitTagV2, A.AtKey(k)));
  }

  lemma {:induction false} TagOfProject(r: Row, tags: seq<Tag>, project: string, base: TagKey)
    ensures A.Total(ProjectTagEntries(r, tags), A.AtKey(ProjectTagKey(project, base))) ==
            if r.project == project then A.Total(TagEntries(r, tags), A.AtKey(base)) else A.ZERO
  {
    if tags != [] {
      TagOfProject(r, tags[1..], project, base);
      A.AtKeyCons(ProjectTagEntries(r, tags)[0], ProjectTagEntries(r, tags[1..]), ProjectTagKey(project, base));
      A.AtKeyCons(TagEntries(r, tags)[0], TagEntries(r, tags[1..]), base);
    }
  }

  lemma {:induction false} OneTagOfRow(r: Row, tags: seq<Tag>, org: uint64, day: int, key: string, value: string)
    requires UniqueTags(tags)
    ensures A.Total(TagEntries(r, tags), A.AtKey(TagKey(org, day, Tag(key, value)))) ==
            if r.org == org && DayOf(r.ms) == day && HasTag(tags, key) && TagValue(tags, key) == value then TagAgg(r) else A.ZERO
  {
    if tags != [] {
      OneTagOfRow(r, tags[1..], org, day, key, value);
      if tags[0].key == key {
        NoTag(tags[1..], key);
      }
      A.AtKeyCons(TagEntries(r, tags)[0], TagEntries(r, tags[1..]), TagKey(org, day, Tag(key, value)));
      A.AddZero(TagAgg(r));
    }
  }

  /** The direct aggregate of rows whose model key satisfies `p`. */
  function ModelWeight(p: ModelKey -> bool): Row -> A.Agg {
    (r: Row) => if p(ModelKeyOf(r)) then RowAgg(r) else A.ZERO
  }

  /** The direct aggregate of a project's rows; `p` also sees the project. */
  function ProjectModelWeight(p: ProjectModelKey -> bool): Row -> A.Agg {
    (r: Row) => if p(ProjectModelKey(r.project, ModelKeyOf(r))) then RowAgg(r) else A.ZERO
  }

  lemma ModelRollupIsDirect(s: Store, p: ModelKey -> bool)
    requires Inv(s)
    ensures A.Total(Concat(s.model), A.Matching(p)) == A.Total(s.events.history, ModelWeight(p))
  {
    A.TargetAnswers(s.model, EmitModel, s.events.history, p);
    forall r ensures A.PerRow(EmitModel, A.Matching(p))(r) == ModelWeight(p)(r) {
      A.TotalOne(EmitModel(r)[0], A.Matching(p));
    }
    A.TotalSame(s.events.history, A.PerRow(EmitModel, A.Matching(p)), ModelWeight(p));
  }

  lemma ProjectRollupIsDirect(s: Store, p: ProjectModelKey -> bool)
    requires Inv(s)
    ensures A.Total(Concat(s.modelV2), A.Matching(p)) == A.Total(s.events.history, ProjectModelWeight(p))
  {
    A.TargetAnswers(s.modelV2, EmitModelV2, s.events.history, p);
    forall r ensures A.PerRow(EmitModelV2, A.Matching(p))(r) == ProjectModelWeight(p)(r) {
      A.TotalOne(EmitModelV2(r)[0], A.Matching(p));
    }
    A.TotalSame(s.events.history, A.PerRow(EmitModelV2, A.Matching(p)), ProjectModelWeight(p));
  }

  /** Summing the project rollup over all projects gives the organisation-wide rollup, for every filter. */
  lemma V2SumsToV1(s: Store, p: ModelKey -> bool)
    requires Inv(s)
    ensures A.Total(Concat(s.modelV2), A.Matching((k: ProjectModelKey) => p(k.base))) ==
            A.Total(Concat(s.model), A.Matching(p))
  {
    var q := (k: ProjectModelKey) => p(k.base);
    ProjectRollupIsDirect(s, q);
    ModelRollupIsDirect(s, p);
    A.TotalSame(s.events.history, ProjectModelWeight(q), ModelWeight(p));
  }

  /** The same for the tag rollups. */
  lemma TagV2SumsToV1(s: Store, p: TagKey -> bool)
    requires Inv(s)
    ensures A.Total(Concat(s.tagV2), A.Matching((k: ProjectTagKey) => p(k.base))) ==
            A.Total(Concat(s.tag), A.Matching(p))
  {
    var q := (k: ProjectTagKey) => p(k.base);
    A.TargetAnswers(s.tag, EmitTag, s.events.history, p);
    A.TargetAnswers(s.tagV2, EmitTagV2, s.events.history, q);
    forall r ensures A.PerRow(EmitTagV2, A.Matching(q))(r) == A.PerRow(EmitTag, A.Matching(p))(r) {
      ProjectTagTotal(r, r.tags, q, p);
      assert EmitTagV2(r) == ProjectTagEntries(r, r.tags) && EmitTag(r) == TagEntries(r, r.tags);
    }
    A.TotalSame(s.events.history, A.PerRow(EmitTagV2, A.Matching(q)), A.PerRow(EmitTag, A.Matching(p)));
  }

  lemma {:induction false} ProjectTagTotal(r: Row, tags: seq<Tag>, q: ProjectTagKey -> bool, p: TagKey -> bool)
    requires forall k :: q(k) <==> p(k.base)
    ensures A.Total(ProjectTagEntries(r, tags), A.Matching(q)) == A.Total(TagEntries(r, tags), A.Matching(p))
  {
    if tags != [] {
      ProjectTagTotal(r, tags[1..], q, p);
    }
  }

  function OneTagKey(org: uint64, day: int, key: string): TagKey -> bool {
    (k: TagKey) => k.org == org && k.day == day && k.tag.key == key
  }

  /** The direct aggregate of an organisation's rows of one day that carry tag `key`. */
  function TagWeight(org: uint64, day: int, key: string): Row -> A.Agg {
    (r: Row) => if r.org == org && DayOf(r.ms) == day && HasTag(r.tags, key) then TagAgg(r) else A.ZERO
  }

  /** For one tag key, the tag rollup summed over all values is the total over the rows carrying the key
      (tag maps have no repeated keys). */
  lemma TagValuesSumToCarriers(s: Store, org: uint64, day: int, key: string)
    requires Inv(s)
    requires forall r :: r in s.events.history ==> UniqueTags(r.tags)
    ensures A.Total(Concat(s.tag), A.Matching(OneTagKey(org, day, key))) ==
            A.Total(s.events.history, TagWeight(org, day, key))
  {
    var p := OneTagKey(org, day, key);
    A.TargetAnswers(s.tag, EmitTag, s.events.history, p);
    forall r | r in s.events.history
      ensures A.PerRow(EmitTag, A.Matching(p))(r) == TagWeight(org, day, key)(r)
    {
      TagsOfRow(r, r.tags, org, day, key);
      assert EmitTag(r) == TagEntries(r, r.tags);
    }
    A.TotalSame(s.events.history, A.PerRow(EmitTag, A.Matching(p)), TagWeight(org, day, key));
  }

  lemma {:induction false} NoTag(tags: seq<Tag>, key: string)
    requires forall i :: 0 <= i < |tags| ==> tags[i].key != key
    ensures !HasTag(tags, key)
  {
    if tags != [] {
      NoTag(tags[1..], key);
    }
  }

  lemma {:induction false} TagsOfRow(r: Row, tags: seq<Tag>, org: uint64, day: int, key: string)
    requires UniqueTags(tags)
    ensures A.Total(TagEntries(r, tags), A.Matching(OneTagKey(org, day, key))) ==
            if r.org == org && DayOf(r.ms) == day && HasTag(tags, key) then TagAgg(r) else A.ZERO
  {
    if tags != [] {
      TagsOfRow(r, tags[1..], org, day, key);
      var w := A.Matching(OneTagKey(org, day, key));
      var first, rest := TagEntries(r, tags)[0], TagEntries(r, tags[1..]);
      A.TotalCons(first, rest, w);
      if tags[0].key == key {
        NoTag(tags[1..], key);
        A.AddZero(w(first));
      } else {
        A.PlusLaws(A.Total(rest, w), A.ZERO, A.ZERO);
      }
    }
  }

  // ---------------------------------------------------------------- rollups against FINAL

  /** In every reachable state a rollup sum is the FINAL sum plus the contribution of the rows that a
      later insert of the same key replaced. */
  lemma RollupGap(s: Store, final: seq<Row>, p: ModelKey -> bool)
    requires Inv(s) && FinalRead(s.events, final)
    ensures A.Total(Concat(s.model), A.Matching(p)) ==
            A.Plus(A.Total(final, ModelWeight(p)), A.Total(Superseded(s.events.history), ModelWeight(p)))
  {
    ModelRollupIsDirect(s, p);
    HistoryTotal(s, final, ModelWeight(p));
  }

  lemma ProjectRollupGap(s: Store, final: seq<Row>, p: ProjectModelKey -> bool)
    requires Inv(s) && FinalRead(s.events, final)
    ensures A.Total(Concat(s.modelV2), A.Matching(p)) ==
            A.Plus(A.Total(final, ProjectModelWeight(p)), A.Total(Superseded(s.events.history), ProjectModelWeight(p)))
  {
    ProjectRollupIsDirect(s, p);
    HistoryTotal(s, final, ProjectModelWeight(p));
  }

  lemma HistoryTotal(s: Store, final: seq<Row>, w: Row -> A.Agg)
    requires Inv(s) && FinalRead(s.events, final)
    ensures A.Total(s.events.history, w) == A.Plus(A.Total(final, w), A.Total(Superseded(s.events.history), w))
  {
    var h := s.events.history;
    FinalIsHistoryCollapse(s.events, final);
    CollapseSplitsHistory(h);
    A.TotalPermutation(h, final + Superseded(h), w);
    A.TotalAppend(final, Superseded(h), w);
  }

  function OnKey(p: ModelKey -> bool): Row -> bool {
    (r: Row) => p(ModelKeyOf(r))
  }

  lemma {:induction false} CountAll(rows: seq<Row>, all: Row -> bool)
    requires forall r :: all(r)
    ensures CountRows(rows, all) == |rows|
  {
    if rows != [] {
      CountAll(rows[1..], all);
    }
  }

  /** Request counts of rollup and FINAL agree exactly when the number of replaced rows under the filter
      is zero modulo the counter width. */
  lemma CountsAgreeIff(s: Store, final: seq<Row>, p: ModelKey -> bool)
    requires Inv(s) && FinalRead(s.events, final)
    ensures (A.Total(Concat(s.model), A.Matching(p)).requests == A.Total(final, ModelWeight(p)).requests) <==>
            CountRows(Superseded(s.events.history), OnKey(p)) % TWO_64 == 0
  {
    var gone := Superseded(s.events.history);
    RollupGap(s, final, p);
    WeighsRequests(gone, p);
    AddsNothing(A.Total(final, ModelWeight(p)), A.Total(gone, ModelWeight(p)), CountRows(gone, OnKey(p)));
  }

  lemma WeighsRequests(rows: seq<Row>, p: ModelKey -> bool)
    ensures A.Total(rows, ModelWeight(p)).requests == CountRows(rows, OnKey(p)) % TWO_64
  {
    forall r ensures ModelWeight(p)(r).requests == if OnKey(p)(r) then 1 else 0 {
      assert ModelWeight(p)(r) == if p(ModelKeyOf(r)) then RowAgg(r) else A.ZERO;
    }
    Counts(rows, OnKey(p), ModelWeight(p));
  }

  lemma AddsNothing(a: A.Agg, b: A.Agg, n: nat)
    requires b.requests == n % TWO_64
    ensures A.Plus(a, b).requests == a.requests <==> n % TWO_64 == 0
  {
  }

  /** Below 2^64 inserts, the unfiltered counts agree exactly when no key was ever inserted twice. */
  lemma AllCountsAgreeIff(s: Store, final: seq<Row>, all: ModelKey -> bool)
    requires Inv(s) && FinalRead(s.events, final) && |s.events.history| < TWO_64
    requires forall k :: all(k)
    ensures (A.Total(Concat(s.model), A.Matching(all)).requests == A.Total(final, ModelWeight(all)).requests) <==>
            UniqueKeys(s.events.history)
  {
    var h := s.events.history;
    CountsAgreeIff(s, final, all);
    forall r ensures OnKey(all)(r) {
      assert all(ModelKeyOf(r));
    }
    CountAll(Superseded(h), OnKey(all));
    SupersededEmpty(h);
    SupersededLength(h);
    BelowWidth(|Superseded(h)|);
  }

  lemma BelowWidth(n: nat)
    requires n < TWO_64
    ensures n % TWO_64 == 0 <==> n == 0
  {
  }

  lemma SupersededLength(h: seq<Row>)
    ensures |Superseded(h)| <= |h|
  {
    CollapseSplitsHistory(h);
    assert |multiset(Collapse(h)) + multiset(Superseded(h))| == |Collapse(h)| + |Superseded(h)|;
  }
}
