/** The deduplicating `events` table: ReplacingMergeTree(inserted_at), ordered by
    (org_id, toDate(timestamp), event_id) and partitioned by toYYYYMM(timestamp). */
module EventsTable {
  import opened Sequences
  import opened Calendar
  import opened Domain

  datatype Row = Row(
    org: uint64, uuid: nat, project: string, ms: int, insertedAt: int,
    model: string, provider: string,
    promptTokens: uint32, completionTokens: uint32, totalTokens: uint32, cost: real,
    tags: seq<Tag>, s3Key: string, s3Status: S3Status)

  /** The sort key. */
  datatype Key = Key(org: uint64, day: int, uuid: nat)

  function KeyOf(r: Row): Key {
    Key(r.org, DayOf(r.ms), r.uuid)
  }

  // ---------------------------------------------------------------- which row a key reads as

  /** Of two versions the one with the greater `inserted_at` stays; on a tie the later one. */
  function Later(a: Option<Row>, b: Option<Row>): Option<Row> {
    match (a, b)
    case (_, None) => a
    case (None, _) => b
    case (Some(x), Some(y)) => if y.insertedAt >= x.insertedAt then b else a
  }

  /** The surviving version of key `k` among `rows`, oldest insert first. */
  function Latest(rows: seq<Row>, k: Key): Option<Row> {
    if rows == [] then None
    else Later(if KeyOf(rows[0]) == k then Some(rows[0]) else None, Latest(rows[1..], k))
  }

  lemma {:induction false} LatestAppend(a: seq<Row>, b: seq<Row>, k: Key)
    ensures Latest(a + b, k) == Later(Latest(a, k), Latest(b, k))
  {
    if a == [] {
      assert a + b == b;
    } else {
      assert (a + b)[1..] == a[1..] + b;
      LatestAppend(a[1..], b, k);
    }
  }

  lemma {:induction false} LatestMember(rows: seq<Row>, k: Key)
    ensures Latest(rows, k).Some? ==> Latest(rows, k).value in rows && KeyOf(Latest(rows, k).value) == k
    ensures Latest(rows, k).None? <==> forall r :: r in rows ==> KeyOf(r) != k
  {
    if rows != [] {
      LatestMember(rows[1..], k);
      assert forall r :: r in rows <==> r == rows[0] || r in rows[1..];
    }
  }

  ghost predicate UniqueKeys(rows: seq<Row>) {
    forall i, j :: 0 <= i < j < |rows| ==> KeyOf(rows[i]) != KeyOf(rows[j])
  }

  /** What a merge writes and what FINAL reads: one row for each key, the surviving version. The order
      of the rows is left open. */
  ghost predicate Collapses(out: seq<Row>, rows: seq<Row>) {
    UniqueKeys(out) && forall k :: Latest(out, k) == Latest(rows, k)
  }

  lemma {:induction false} UniqueLatest(rows: seq<Row>, r: Row)
    requires UniqueKeys(rows)
    ensures r in rows <==> Latest(rows, KeyOf(r)) == Some(r)
  {
    LatestMember(rows, KeyOf(r));
    if r in rows {
      var i, j :| 0 <= i < |rows| && 0 <= j < |rows| && rows[i] == r && rows[j] == Latest(rows, KeyOf(r)).value;
    }
  }

  /** All collapses of the same rows are permutations of one another. */
  lemma CollapseUnique(a: seq<Row>, b: seq<Row>, rows: seq<Row>)
    requires Collapses(a, rows) && Collapses(b, rows)
    ensures multiset(a) == multiset(b)
  {
    forall r ensures r in a <==> r in b {
      UniqueLatest(a, r);
      UniqueLatest(b, r);
    }
    SameElementsSameMultiset(a, b);
  }

  /** A reference collapse: the surviving rows of an insert history. */
  function Collapse(rows: seq<Row>): seq<Row> {
    if rows == [] then [] else Keep(rows[0], Collapse(rows[1..]))
  }

  /** The other rows of the history: those a later version replaced. */
  function Superseded(rows: seq<Row>): seq<Row> {
    if rows == [] then [] else Drop(rows[0], Collapse(rows[1..])) + Superseded(rows[1..])
  }

  /** Adds the older row `r` in front of the survivors `rest`, or drops it, or drops the row it beats. */
  function Keep(r: Row, rest: seq<Row>): seq<Row> {
    match Latest(rest, KeyOf(r))
    case None => [r] + rest
    case Some(x) => if x.insertedAt >= r.insertedAt then rest else [r] + WithoutKey(rest, KeyOf(r))
  }

  function Drop(r: Row, rest: seq<Row>): seq<Row> {
    match Latest(rest, KeyOf(r))
    case None => []
    case Some(x) => [if x.insertedAt >= r.insertedAt then r else x]
  }

  function WithoutKey(rows: seq<Row>, k: Key): seq<Row> {
    Filter(rows, (r: Row) => KeyOf(r) != k)
  }

  lemma {:induction false} WithoutKeyLatest(rows: seq<Row>, k: Key, k': Key)
    ensures Latest(WithoutKey(rows, k), k') == if k' == k then None else Latest(rows, k')
  {
    if rows != [] {
      WithoutKeyLatest(rows[1..], k, k');
    }
  }

  lemma {:induction false} WithoutKeyUnique(rows: seq<Row>, k: Key)
    requires UniqueKeys(rows)
    ensures UniqueKeys(WithoutKey(rows, k))
  {
    if rows != [] {
      WithoutKeyUnique(rows[1..], k);
      if KeyOf(rows[0]) != k {
        ConsUnique(rows[0], WithoutKey(rows[1..], k));
      }
    }
  }

  lemma ConsUnique(r: Row, rows: seq<Row>)
    requires UniqueKeys(rows) && forall x :: x in rows ==> KeyOf(x) != KeyOf(r)
    ensures UniqueKeys([r] + rows)
  {
  }

  /** In a table with unique keys, dropping a key drops exactly the row it reads as. */
  lemma {:induction false} WithoutKeyDropsOne(rows: seq<Row>, k: Key, x: Row)
    requires UniqueKeys(rows) && Latest(rows, k) == Some(x)
    ensures multiset(rows) == multiset(WithoutKey(rows, k)) + multiset{x}
  {
    assert rows == [rows[0]] + rows[1..];
    LatestMember(rows[1..], k);
    if KeyOf(rows[0]) == k {
      WithoutAbsentKey(rows[1..], k);
    } else {
      WithoutKeyDropsOne(rows[1..], k, x);
    }
  }

  lemma {:induction false} WithoutAbsentKey(rows: seq<Row>, k: Key)
    requires forall r :: r in rows ==> KeyOf(r) != k
    ensures WithoutKey(rows, k) == rows
  {
    if rows != [] {
      WithoutAbsentKey(rows[1..], k);
    }
  }

  lemma KeepStep(r: Row, rest: seq<Row>)
    requires UniqueKeys(rest)
    ensures UniqueKeys(Keep(r, rest))
    ensures multiset(Keep(r, rest)) + multiset(Drop(r, rest)) == multiset{r} + multiset(rest)
  {
    LatestMember(rest, KeyOf(r));
    match Latest(rest, KeyOf(r)) {
      case None =>
        ConsUnique(r, rest);
      case Some(x) =>
        if x.insertedAt < r.insertedAt {
          WithoutKeyUnique(rest, KeyOf(r));
          WithoutKeyDropsOne(rest, KeyOf(r), x);
          ConsUnique(r, WithoutKey(rest, KeyOf(r)));
        }
    }
  }

  lemma KeepLatest(r: Row, rest: seq<Row>, k: Key)
    ensures Latest(Keep(r, rest), k) == Later(if KeyOf(r) == k then Some(r) else None, Latest(rest, k))
  {
    WithoutKeyLatest(rest, KeyOf(r), k);
    LatestMember(rest, k);
  }

  lemma {:induction false} CollapseCollapses(rows: seq<Row>)
    ensures Collapses(Collapse(rows), rows)
  {
    if rows != [] {
      CollapseCollapses(rows[1..]);
      KeepStep(rows[0], Collapse(rows[1..]));
      forall k ensures Latest(Collapse(rows), k) == Latest(rows, k) {
        KeepLatest(rows[0], Collapse(rows[1..]), k);
      }
    }
  }

  lemma SplitStep(r: Row, rest: seq<Row>, gone: seq<Row>, tail: seq<Row>)
    requires UniqueKeys(rest) && multiset(rest) + multiset(gone) == multiset(tail)
    ensures multiset(Keep(r, rest)) + multiset(Drop(r, rest) + gone) == multiset([r] + tail)
  {
    KeepStep(r, rest);
    Exchange(multiset(Keep(r, rest)), multiset(Drop(r, rest)), multiset(gone), multiset(rest), multiset{r}, multiset(tail));
  }

  lemma {:induction false} CollapseUniqueKeys(rows: seq<Row>)
    ensures UniqueKeys(Collapse(rows))
  {
    if rows != [] {
      CollapseUniqueKeys(rows[1..]);
      KeepStep(rows[0], Collapse(rows[1..]));
    }
  }

  /** History = survivors + superseded rows, as multisets. */
  lemma {:induction false} CollapseSplitsHistory(rows: seq<Row>)
    ensures multiset(Collapse(rows)) + multiset(Superseded(rows)) == multiset(rows)
  {
    if rows != [] {
      CollapseSplitsHistory(rows[1..]);
      CollapseUniqueKeys(rows[1..]);
      SplitCons(rows[0], rows[1..]);
      assert rows == [rows[0]] + rows[1..];
    }
  }

  lemma SplitCons(r: Row, tail: seq<Row>)
    requires UniqueKeys(Collapse(tail)) && multiset(Collapse(tail)) + multiset(Superseded(tail)) == multiset(tail)
    ensures multiset(Collapse([r] + tail)) + multiset(Superseded([r] + tail)) == multiset([r] + tail)
  {
    assert ([r] + tail)[1..] == tail;
    SplitStep(r, Collapse(tail), Superseded(tail), tail);
  }

  /** Nothing is superseded exactly when no key was inserted twice. */
  lemma {:induction false} SupersededEmpty(rows: seq<Row>)
    ensures Superseded(rows) == [] <==> UniqueKeys(rows)
  {
    if rows != [] {
      SupersededEmpty(rows[1..]);
      CollapseCollapses(rows[1..]);
      LatestMember(rows[1..], KeyOf(rows[0]));
      assert Latest(Collapse(rows[1..]), KeyOf(rows[0])) == Latest(rows[1..], KeyOf(rows[0]));
      assert UniqueKeys(rows) <==> UniqueKeys(rows[1..]) && forall r :: r in rows[1..] ==> KeyOf(r) != KeyOf(rows[0]);
    }
  }

  // ---------------------------------------------------------------- parts, inserts and merges

  datatype Part = Part(month: int, rows: seq<Row>)

  /** The active parts in block order. `history` records every row ever inserted, in order; no query
      of the source can see it. */
  datatype Table = Table(parts: seq<Part>, history: seq<Row>)

  function Contents(parts: seq<Part>): seq<Row> {
    if parts == [] then [] else parts[0].rows + Contents(parts[1..])
  }

  lemma {:induction false} ContentsAppend(a: seq<Part>, b: seq<Part>)
    ensures Contents(a + b) == Contents(a) + Contents(b)
  {
    if a == [] {
      assert a + b == b;
    } else {
      assert (a + b)[1..] == a[1..] + b;
      ContentsAppend(a[1..], b);
    }
  }

  predicate InPartition(p: Part) {
    forall i :: 0 <= i < |p.rows| ==> ToYYYYMM(p.rows[i].ms) == p.month
  }

  /** Rows with equal sort keys belong to the same partition. */
  lemma EqualKeysSharePartition(r: Row, s: Row)
    requires KeyOf(r) == KeyOf(s)
    ensures ToYYYYMM(r.ms) == ToYYYYMM(s.ms)
  {
    assert DayOf(r.ms) == KeyOf(r).day && DayOf(s.ms) == KeyOf(s).day;
  }

  /** A partition is a calendar month: of two instants, in one partition exactly when year and month agree. */
  lemma PartitionIsMonth(a: int, b: int)
    ensures ToYYYYMM(a) / 100 == CivilOf(DayOf(a)).year && ToYYYYMM(a) % 100 == CivilOf(DayOf(a)).month
    ensures ToYYYYMM(a) == ToYYYYMM(b) <==>
            CivilOf(DayOf(a)).year == CivilOf(DayOf(b)).year && CivilOf(DayOf(a)).month == CivilOf(DayOf(b)).month
  {
    CivilRoundTrip(DayOf(a));
    CivilRoundTrip(DayOf(b));
  }

  /** An insert block becomes one part for each partition it touches. */
  function SplitByMonth(rows: seq<Row>): seq<Part>
    decreases |rows|
  {
    if rows == [] then []
    else
      var m := ToYYYYMM(rows[0].ms);
      [Part(m, Filter(rows, (r: Row) => ToYYYYMM(r.ms) == m))] +
      SplitByMonth(Filter(rows[1..], (r: Row) => ToYYYYMM(r.ms) != m))
  }

  function Insert(t: Table, rows: seq<Row>): Table {
    Table(t.parts + SplitByMonth(rows), t.history + rows)
  }

  /** A background merge: part `p` and the later parts `qs` of its partition, with only other
      partitions' parts `between` them, become one part holding `merged` (`qs` empty: `p` alone is
      rewritten). */
  datatype Merge = Merge(before: seq<Part>, p: Part, between: seq<Part>, qs: seq<Part>, after: seq<Part>, merged: seq<Row>)

  ghost predicate Merges(t: Table, t': Table, g: Merge) {
    && t.parts == g.before + [g.p] + g.between + g.qs + g.after
    && (forall i :: 0 <= i < |g.between| ==> g.between[i].month != g.p.month)
    && (forall i :: 0 <= i < |g.qs| ==> g.qs[i].month == g.p.month)
    && Collapses(g.merged, g.p.rows + Contents(g.qs))
    && t' == Table(g.before + [Part(g.p.month, g.merged)] + g.between + g.after, t.history)
  }

  /** What FINAL returns on the current parts. */
  ghost predicate FinalRead(t: Table, out: seq<Row>) {
    Collapses(out, Contents(t.parts))
  }

  ghost predicate TableInv(t: Table) {
    && (forall i :: 0 <= i < |t.parts| ==> InPartition(t.parts[i]))
    && (forall k :: Latest(Contents(t.parts), k) == Latest(t.history, k))
    && (forall r :: r in Contents(t.parts) ==> r in t.history)
  }

  lemma {:induction false} FilterMonthLatest(rows: seq<Row>, m: int, k: Key, p: Row -> bool, q: Row -> bool)
    requires forall r :: p(r) <==> ToYYYYMM(r.ms) == m
    requires forall r :: q(r) <==> ToYYYYMM(r.ms) != m
    ensures Latest(rows, k) == Later(Latest(Filter(rows, p), k), Latest(Filter(rows, q), k))
    ensures Latest(Filter(rows, p), k).None? || Latest(Filter(rows, q), k).None?
  {
    if rows != [] {
      FilterMonthLatest(rows[1..], m, k, p, q);
      LatestMember(Filter(rows[1..], p), k);
      LatestMember(Filter(rows[1..], q), k);
      if KeyOf(rows[0]) == k {
        if Latest(Filter(rows[1..], p), k).Some? {
          EqualKeysSharePartition(rows[0], Latest(Filter(rows[1..], p), k).value);
        }
        if Latest(Filter(rows[1..], q), k).Some? {
          EqualKeysSharePartition(rows[0], Latest(Filter(rows[1..], q), k).value);
        }
      }
    }
  }

  lemma {:induction false} SplitKeepsRows(rows: seq<Row>, k: Key)
    ensures Latest(Contents(SplitByMonth(rows)), k) == Latest(rows, k)
    ensures forall i :: 0 <= i < |SplitByMonth(rows)| ==> InPartition(SplitByMonth(rows)[i])
    ensures forall r :: r in Contents(SplitByMonth(rows)) ==> r in rows
    decreases |rows|
  {
    if rows != [] {
      var m := ToYYYYMM(rows[0].ms);
      var p, q := (r: Row) => ToYYYYMM(r.ms) == m, (r: Row) => ToYYYYMM(r.ms) != m;
      var here, rest := Filter(rows, p), Filter(rows[1..], q);
      assert Filter(rows, q) == rest;
      SplitKeepsRows(rest, k);
      FilterMonthLatest(rows, m, k, p, q);
      assert SplitByMonth(rows) == [Part(m, here)] + SplitByMonth(rest);
      assert Contents(SplitByMonth(rows)) == here + Contents(SplitByMonth(rest));
      LatestAppend(here, Contents(SplitByMonth(rest)), k);
    }
  }

  lemma InsertKeepsInv(t: Table, rows: seq<Row>)
    requires TableInv(t)
    ensures TableInv(Insert(t, rows))
  {
    ContentsAppend(t.parts, SplitByMonth(rows));
    forall k ensures Latest(Contents(Insert(t, rows).parts), k) == Latest(t.history + rows, k) {
      SplitKeepsRows(rows, k);
      LatestAppend(Contents(t.parts), Contents(SplitByMonth(rows)), k);
      LatestAppend(t.history, rows, k);
    }
    SplitKeepsRows(rows, Key(0, 0, 0));
  }

  lemma {:induction false} OtherPartitionsHoldNoVersion(parts: seq<Part>, k: Key, r: Row)
    requires KeyOf(r) == k
    requires forall i :: 0 <= i < |parts| ==> InPartition(parts[i]) && parts[i].month != ToYYYYMM(r.ms)
    ensures Latest(Contents(parts), k) == None
  {
    if parts != [] {
      OtherPartitionsHoldNoVersion(parts[1..], k, r);
      LatestMember(parts[0].rows, k);
      LatestAppend(parts[0].rows, Contents(parts[1..]), k);
      if Latest(parts[0].rows, k).Some? {
        EqualKeysSharePartition(r, Latest(parts[0].rows, k).value);
      }
    }
  }

  /** Swapping the middle of a concatenation: nothing of key `k` in both moved blocks. */
  lemma FourBlocks(a: seq<Row>, x: seq<Row>, m: seq<Row>, y: seq<Row>, c: seq<Row>, merged: seq<Row>, k: Key)
    requires Latest(merged, k) == Later(Latest(x, k), Latest(y, k))
    requires Latest(m, k) == None || (Latest(x, k) == None && Latest(y, k) == None)
    ensures Latest(a + merged + m + c, k) == Latest(a + x + m + y + c, k)
  {
    LatestAppend(a, merged, k);
    LatestAppend(a + merged, m, k);
    LatestAppend(a + merged + m, c, k);
    LatestAppend(a, x, k);
    LatestAppend(a + x, m, k);
    LatestAppend(a + x + m, y, k);
    LatestAppend(a + x + m + y, c, k);
  }

  lemma MergeKeepsLatest(t: Table, t': Table, g: Merge, k: Key)
    requires TableInv(t) && Merges(t, t', g)
    ensures Latest(Contents(t'.parts), k) == Latest(Contents(t.parts), k)
  {
    var x, m, y := g.p.rows, Contents(g.between), Contents(g.qs);
    LatestAppend(x, y, k);
    BetweenHoldsNoVersion(t, g, k);
    FourBlocks(Contents(g.before), x, m, y, Contents(g.after), g.merged, k);
    MergeContents(t, t', g);
  }

  lemma BetweenHoldsNoVersion(t: Table, g: Merge, k: Key)
    requires TableInv(t)
    requires t.parts == g.before + [g.p] + g.between + g.qs + g.after
    requires forall i :: 0 <= i < |g.between| ==> g.between[i].month != g.p.month
    requires forall i :: 0 <= i < |g.qs| ==> g.qs[i].month == g.p.month
    ensures Latest(Contents(g.between), k) == None || (Latest(g.p.rows, k) == None && Latest(Contents(g.qs), k) == None)
  {
    PartsInPartition(t, g);
    LatestMember(g.p.rows, k);
    LatestMember(Contents(g.qs), k);
    if Latest(g.p.rows, k).Some? {
      OtherPartitionsHoldNoVersion(g.between, k, Latest(g.p.rows, k).value);
    } else if Latest(Contents(g.qs), k).Some? {
      RowsInPartition(g.qs, g.p.month);
      OtherPartitionsHoldNoVersion(g.between, k, Latest(Contents(g.qs), k).value);
    }
  }

  lemma MergeContents(t: Table, t': Table, g: Merge)
    requires Merges(t, t', g)
    ensures Contents(t.parts) == Contents(g.before) + g.p.rows + Contents(g.between) + Contents(g.qs) + Contents(g.after)
    ensures Contents(t'.parts) == Contents(g.before) + g.merged + Contents(g.between) + Contents(g.after)
  {
    ContentsFive(g.before, g.p, g.between, g.qs, g.after);
    var p' := Part(g.p.month, g.merged);
    ContentsFive(g.before, p', g.between, [], g.after);
    assert g.before + [p'] + g.between + [] == g.before + [p'] + g.between;
    var front := Contents(g.before) + g.merged + Contents(g.between);
    assert front + Contents([]) == front;
  }

  lemma PartsInPartition(t: Table, g: Merge)
    requires TableInv(t)
    requires t.parts == g.before + [g.p] + g.between + g.qs + g.after
    ensures InPartition(g.p)
    ensures forall q :: q in g.before + g.between + g.qs + g.after ==> InPartition(q)
  {
    assert forall q :: q in g.before + g.between + g.qs + g.after ==> q in t.parts;
    assert g.p in t.parts;
  }

  lemma {:induction false} RowsInPartition(parts: seq<Part>, month: int)
    requires forall i :: 0 <= i < |parts| ==> InPartition(parts[i]) && parts[i].month == month
    ensures forall r :: r in Contents(parts) ==> ToYYYYMM(r.ms) == month
  {
    if parts != [] {
      RowsInPartition(parts[1..], month);
    }
  }

  lemma ContentsFive(a: seq<Part>, p: Part, m: seq<Part>, q: seq<Part>, c: seq<Part>)
    ensures Contents(a + [p] + m + q + c) == Contents(a) + p.rows + Contents(m) + Contents(q) + Contents(c)
  {
    ContentsAppend(a + [p] + m + q, c);
    ContentsAppend(a + [p] + m, q);
    ContentsAppend(a + [p], m);
    ContentsAppend(a, [p]);
    assert Contents([p]) == p.rows;
  }

  lemma MergeKeepsInv(t: Table, t': Table, g: Merge)
    requires TableInv(t) && Merges(t, t', g)
    ensures TableInv(t')
  {
    forall k ensures Latest(Contents(t'.parts), k) == Latest(t'.history, k) {
      MergeKeepsLatest(t, t', g, k);
    }
    PartsInPartition(t, g);
    MergedRowsComeFromInput(g);
    MergeContents(t, t', g);
    forall n | 0 <= n < |t'.parts| ensures InPartition(t'.parts[n]) {
      assert t'.parts[n] == Part(g.p.month, g.merged) || t'.parts[n] in g.before + g.between + g.qs + g.after;
    }
  }

  lemma MergedRowsComeFromInput(g: Merge)
    requires InPartition(g.p) && forall i :: 0 <= i < |g.qs| ==> InPartition(g.qs[i]) && g.qs[i].month == g.p.month
    requires Collapses(g.merged, g.p.rows + Contents(g.qs))
    ensures forall r :: r in g.merged ==> r in g.p.rows || r in Contents(g.qs)
    ensures InPartition(Part(g.p.month, g.merged))
  {
    var input := g.p.rows + Contents(g.qs);
    RowsInPartition(g.qs, g.p.month);
    forall r | r in g.merged ensures r in input {
      UniqueLatest(g.merged, r);
      LatestMember(input, KeyOf(r));
    }
    forall n | 0 <= n < |g.merged| ensures ToYYYYMM(g.merged[n].ms) == g.p.month {
      assert g.merged[n] in input;
    }
  }

  /** FINAL depends on the insert history alone: whatever merges ran, its rows are the survivors. */
  lemma FinalIsHistoryCollapse(t: Table, out: seq<Row>)
    requires TableInv(t) && FinalRead(t, out)
    ensures multiset(out) == multiset(Collapse(t.history))
    ensures forall k :: Latest(out, k) == Latest(t.history, k)
  {
    CollapseCollapses(t.history);
    CollapseUnique(out, Collapse(t.history), t.history);
  }

  /** The version at index `i` survives: no inserted row of its key has a greater `inserted_at`, and none
      inserted after it an equal one. */
  ghost predicate Newest(history: seq<Row>, i: nat) {
    i < |history| &&
    forall j :: 0 <= j < |history| && SameSortKey(history[j], history[i]) ==>
      if j <= i then history[j].insertedAt <= history[i].insertedAt else history[j].insertedAt < history[i].insertedAt
  }

  predicate SameSortKey(a: Row, b: Row) {
    a.org == b.org && DayOf(a.ms) == DayOf(b.ms) && a.uuid == b.uuid
  }

  lemma {:induction false} LatestIsNewest(rows: seq<Row>, k: Key) returns (i: nat)
    requires Latest(rows, k).Some?
    ensures Newest(rows, i) && rows[i] == Latest(rows, k).value && KeyOf(rows[i]) == k
  {
    var tail := rows[1..];
    LatestMember(tail, k);
    if Latest(tail, k).Some? {
      var n := LatestIsNewest(tail, k);
      assert rows[n + 1] == tail[n];
      i := if Latest(rows, k) == Latest(tail, k) && !(KeyOf(rows[0]) == k && rows[0].insertedAt > tail[n].insertedAt) then n + 1 else 0;
      forall j | 0 < j < |rows| ensures rows[j] == tail[j - 1] {
      }
    } else {
      i := 0;
      forall j | 0 < j < |rows| ensures KeyOf(rows[j]) != k {
        assert rows[j] in tail;
      }
    }
  }

  /** FINAL reads one row for each sort key ever inserted, and it is that key's newest version. */
  lemma FinalReadsNewest(t: Table, out: seq<Row>)
    requires TableInv(t) && FinalRead(t, out)
    ensures forall r :: r in out ==> exists i: nat :: Newest(t.history, i) && t.history[i] == r
    ensures forall x :: x in t.history ==> exists r :: r in out && SameSortKey(r, x) && r.insertedAt >= x.insertedAt
    ensures forall i, j :: 0 <= i < j < |out| ==> !SameSortKey(out[i], out[j])
  {
    forall r | r in out ensures exists i: nat :: Newest(t.history, i) && t.history[i] == r {
      UniqueLatest(out, r);
      var i := LatestIsNewest(t.history, KeyOf(r));
    }
    forall x | x in t.history ensures exists r :: r in out && SameSortKey(r, x) && r.insertedAt >= x.insertedAt {
      LatestMember(t.history, KeyOf(x));
      var i := LatestIsNewest(t.history, KeyOf(x));
      LatestMember(out, KeyOf(x));
      var j :| 0 <= j < |t.history| && t.history[j] == x;
      assert SameSortKey(t.history[j], t.history[i]);
      assert Latest(out, KeyOf(x)) == Latest(t.history, KeyOf(x));
    }
    forall i, j | 0 <= i < j < |out| ensures !SameSortKey(out[i], out[j]) {
      assert KeyOf(out[i]) != KeyOf(out[j]);
    }
  }

  lemma FinalRowOf(t: Table, out: seq<Row>, x: Row) returns (r: Row)
    requires TableInv(t) && FinalRead(t, out) && x in t.history
    ensures r in out && r.org == x.org && DayOf(r.ms) == DayOf(x.ms) && r.uuid == x.uuid
    ensures forall i, j :: 0 <= i < j < |out| ==> !SameSortKey(out[i], out[j])
  {
    FinalReadsNewest(t, out);
    r :| r in out && SameSortKey(r, x) && r.insertedAt >= x.insertedAt;
  }
}
