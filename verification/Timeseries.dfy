/** The top-five-plus-`_other` fold of the time-series endpoints
    (`getTimeseriesByModel`, `getTimeseriesByFeature` in server/internal/storage/clickhouse.go). */
module Timeseries {
  import opened Domain
  import A = Aggregation

  /** One row of the detail query. */
  datatype Detail = Detail(ts: int, group: string, cost: real, requests: uint64)
  datatype Point = Point(ts: int, cost: real, requests: uint64)
  datatype Series = Series(group: string, points: seq<Point>)

  const OTHER := "_other"

  function Target(top: seq<string>, group: string): string {
    if group in top then group else OTHER
  }

  /** Adds a row to a series: into the last point when the timestamps agree, else as a new point. */
  function AddPoint(points: seq<Point>, d: Detail): seq<Point> {
    var n := |points|;
    if n > 0 && points[n - 1].ts == d.ts then points[..n - 1] + [Merged(points[n - 1], d)]
    else points + [PointOf(d)]
  }

  function Merged(p: Point, d: Detail): Point {
    Point(p.ts, p.cost + d.cost, A.AddU64(p.requests, d.requests))
  }

  function PointOf(d: Detail): Point {
    Point(d.ts, d.cost, d.requests)
  }

  /** The points of series `name` after `rows`. */
  function Collect(rows: seq<Detail>, top: seq<string>, name: string): seq<Point> {
    if rows == [] then []
    else
      var n := |rows| - 1;
      var before := Collect(rows[..n], top, name);
      if Target(top, rows[n].group) == name then AddPoint(before, rows[n]) else before
  }

  /** The series of `names` that have points, in order. */
  function Assemble(rows: seq<Detail>, top: seq<string>, names: seq<string>): seq<Series> {
    if names == [] then []
    else
      var points := Collect(rows, top, names[0]);
      (if points == [] then [] else [Series(names[0], points)]) + Assemble(rows, top, names[1..])
  }

  lemma {:induction false} AssembleAppend(rows: seq<Detail>, top: seq<string>, a: seq<string>, b: seq<string>)
    ensures Assemble(rows, top, a + b) == Assemble(rows, top, a) + Assemble(rows, top, b)
  {
    if a == [] {
      assert a + b == b;
    } else {
      assert (a + b)[1..] == a[1..] + b;
      AssembleAppend(rows, top, a[1..], b);
    }
  }

  /** The series map after all detail rows: one entry for each top group, and `_other`. */
  method CollectSeries(top: seq<string>, rows: seq<Detail>) returns (seriesMap: map<string, seq<Point>>)
    ensures forall m :: m in seriesMap <==> m in top || m == OTHER
    ensures forall m :: m in seriesMap ==> seriesMap[m] == Collect(rows, top, m)
  {
    seriesMap := map[];
    for i := 0 to |top|
      invariant forall m :: m in seriesMap <==> m in top[..i]
      invariant forall m :: m in seriesMap ==> seriesMap[m] == []
    {
      assert top[..i + 1] == top[..i] + [top[i]];
      seriesMap := seriesMap[top[i] := []];
    }
    assert top[..|top|] == top;
    seriesMap := seriesMap[OTHER := []];

    for i := 0 to |rows|
      invariant forall m :: m in seriesMap <==> m in top || m == OTHER
      invariant forall m :: m in seriesMap ==> seriesMap[m] == Collect(rows[..i], top, m)
    {
      CollectStep(rows, i, top);
      var target := if rows[i].group in top then rows[i].group else OTHER;
      seriesMap := seriesMap[target := AddPoint(seriesMap[target], rows[i])];
    }
    assert rows[..|rows|] == rows;
  }

  lemma CollectStep(rows: seq<Detail>, i: nat, top: seq<string>)
    requires i < |rows|
    ensures forall m :: Collect(rows[..i + 1], top, m) ==
                        if Target(top, rows[i].group) == m then AddPoint(Collect(rows[..i], top, m), rows[i])
                        else Collect(rows[..i], top, m)
  {
    assert rows[..i + 1][..i] == rows[..i];
  }

  /** The whole fold: collect, then emit the non-empty series in order, `_other` last. */
  method FoldSeries(top: seq<string>, rows: seq<Detail>) returns (result: seq<Series>)
    ensures result == Assemble(rows, top, top + [OTHER])
  {
    var seriesMap := CollectSeries(top, rows);
    result := [];
    for i := 0 to |top|
      invariant result == Assemble(rows, top, top[..i])
    {
      assert top[..i + 1] == top[..i] + [top[i]];
      AssembleAppend(rows, top, top[..i], [top[i]]);
      if seriesMap[top[i]] != [] {
        result := result + [Series(top[i], seriesMap[top[i]])];
      }
    }
    assert top[..|top|] == top;
    AssembleAppend(rows, top, top, [OTHER]);
    if seriesMap[OTHER] != [] {
      result := result + [Series(OTHER, seriesMap[OTHER])];
    }
  }

  // ---------------------------------------------------------------- shape

  ghost predicate Distinct(names: seq<string>) {
    forall i, j :: 0 <= i < j < |names| ==> names[i] != names[j]
  }

  ghost predicate SortedByTime(rows: seq<Detail>) {
    forall i, j :: 0 <= i < j < |rows| ==> rows[i].ts <= rows[j].ts
  }

  ghost predicate StrictlyIncreasing(points: seq<Point>) {
    forall i, j :: 0 <= i < j < |points| ==> points[i].ts < points[j].ts
  }

  lemma AddPointIncreasing(points: seq<Point>, d: Detail)
    requires StrictlyIncreasing(points) && forall p :: p in points ==> p.ts <= d.ts
    ensures StrictlyIncreasing(AddPoint(points, d)) && forall p :: p in AddPoint(points, d) ==> p.ts <= d.ts
  {
    assert forall i :: 0 <= i < |points| ==> points[i] in points;
  }

  lemma {:induction false} CollectIncreasing(rows: seq<Detail>, top: seq<string>, name: string)
    requires SortedByTime(rows)
    ensures StrictlyIncreasing(Collect(rows, top, name))
    ensures rows != [] ==> forall p :: p in Collect(rows, top, name) ==> p.ts <= rows[|rows| - 1].ts
  {
    if rows != [] {
      var n := |rows| - 1;
      CollectIncreasing(rows[..n], top, name);
      assert n > 0 ==> rows[..n][n - 1].ts <= rows[n].ts;
      AddPointIncreasing(Collect(rows[..n], top, name), rows[n]);
    }
  }

  /** One series for each name at most, named in order, non-empty, with strictly increasing timestamps. */
  lemma {:induction false} SeriesShape(rows: seq<Detail>, top: seq<string>, names: seq<string>)
    requires SortedByTime(rows)
    ensures |Assemble(rows, top, names)| <= |names|
    ensures forall s :: s in Assemble(rows, top, names) ==>
              s.group in names && s.points != [] && s.points == Collect(rows, top, s.group) && StrictlyIncreasing(s.points)
    ensures forall m :: m in names && Collect(rows, top, m) != [] ==> Series(m, Collect(rows, top, m)) in Assemble(rows, top, names)
  {
    if names != [] {
      SeriesShape(rows, top, names[1..]);
      CollectIncreasing(rows, top, names[0]);
    }
  }

  /** With at most five top groups the answer has at most six series. */
  lemma AtMostSix(rows: seq<Detail>, top: seq<string>)
    requires SortedByTime(rows) && |top| <= 5
    ensures |Assemble(rows, top, top + [OTHER])| <= 6
  {
    SeriesShape(rows, top, top + [OTHER]);
  }

  // ---------------------------------------------------------------- a top series is its own rows

  /** The rows of one group as points, one for each row. */
  function OwnPoints(rows: seq<Detail>, group: string): seq<Point> {
    if rows == [] then []
    else
      var n := |rows| - 1;
      OwnPoints(rows[..n], group) +
      (if rows[n].group == group then [Point(rows[n].ts, rows[n].cost, rows[n].requests)] else [])
  }

  ghost predicate UniqueRows(rows: seq<Detail>) {
    forall i, j :: 0 <= i < j < |rows| && rows[i].ts == rows[j].ts ==> rows[i].group != rows[j].group
  }

  lemma {:induction false} OwnPointsMember(rows: seq<Detail>, group: string)
    ensures forall p :: p in OwnPoints(rows, group) ==>
              exists i :: 0 <= i < |rows| && rows[i].group == group && rows[i].ts == p.ts
  {
    if rows != [] {
      var n := |rows| - 1;
      OwnPointsMember(rows[..n], group);
      forall p | p in OwnPoints(rows[..n], group)
        ensures exists i :: 0 <= i < |rows| && rows[i].group == group && rows[i].ts == p.ts
      {
        var i :| 0 <= i < n && rows[..n][i].group == group && rows[..n][i].ts == p.ts;
        assert rows[i] == rows[..n][i];
      }
    }
  }

  /** The series of a top group other than `_other` is exactly that group's rows. */
  lemma {:induction false} TopSeriesIsOwnRows(rows: seq<Detail>, top: seq<string>, group: string)
    requires UniqueRows(rows) && group in top && group != "_other"
    ensures Collect(rows, top, group) == OwnPoints(rows, group)
  {
    if rows != [] {
      var n := |rows| - 1;
      TopSeriesIsOwnRows(rows[..n], top, group);
      OwnPointsMember(rows[..n], group);
      var before := OwnPoints(rows[..n], group);
      if rows[n].group == group && before != [] {
        assert before[|before| - 1] in before;
        var i :| 0 <= i < n && rows[..n][i].group == group && rows[..n][i].ts == before[|before| - 1].ts;
        assert rows[i] == rows[..n][i];
      }
    }
  }

  // ---------------------------------------------------------------- conservation

  function At(ts: int): Point -> A.Agg {
    (p: Point) => if p.ts == ts then A.Agg(p.cost, 0, p.requests) else A.ZERO
  }

  function DetailAt(ts: int): Detail -> A.Agg {
    (d: Detail) => if d.ts == ts then A.Agg(d.cost, 0, d.requests) else A.ZERO
  }

  /** Cost and requests of one timestamp, summed over all series. */
  function SeriesAt(result: seq<Series>, ts: int): A.Agg {
    if result == [] then A.ZERO else A.Plus(A.Total(result[0].points, At(ts)), SeriesAt(result[1..], ts))
  }

  function NamesAt(rows: seq<Detail>, top: seq<string>, names: seq<string>, ts: int): A.Agg {
    if names == [] then A.ZERO
    else A.Plus(A.Total(Collect(rows, top, names[0]), At(ts)), NamesAt(rows, top, names[1..], ts))
  }

  /** A series without points would add nothing. */
  lemma SeriesAtCons(name: string, points: seq<Point>, rest: seq<Series>, ts: int)
    ensures SeriesAt((if points == [] then [] else [Series(name, points)]) + rest, ts) ==
            A.Plus(A.Total(points, At(ts)), SeriesAt(rest, ts))
  {
    if points == [] {
      assert [] + rest == rest;
      A.PlusLaws(SeriesAt(rest, ts), A.ZERO, A.ZERO);
    } else {
      assert ([Series(name, points)] + rest)[1..] == rest;
    }
  }

  lemma {:induction false} AssembleAt(rows: seq<Detail>, top: seq<string>, names: seq<string>, ts: int)
    ensures SeriesAt(Assemble(rows, top, names), ts) == NamesAt(rows, top, names, ts)
  {
    if names != [] {
      AssembleAt(rows, top, names[1..], ts);
      var points, rest := Collect(rows, top, names[0]), Assemble(rows, top, names[1..]);
      var here := if points == [] then [] else [Series(names[0], points)];
      assert Assemble(rows, top, names) == here + rest;
      SeriesAtCons(names[0], points, rest, ts);
    }
  }

  lemma AddPointAt(points: seq<Point>, d: Detail, ts: int)
    ensures A.Total(AddPoint(points, d), At(ts)) == A.Plus(A.Total(points, At(ts)), DetailAt(ts)(d))
  {
    var n, w := |points|, At(ts);
    A.TotalSnoc(AddPoint(points, d), w);
    if n > 0 && points[n - 1].ts == d.ts {
      assert AddPoint(points, d)[..n - 1] == points[..n - 1];
      A.TotalSnoc(points, w);
      MergedPoint(points[n - 1], d, ts);
      A.PlusLaws(A.Total(points[..n - 1], w), w(points[n - 1]), DetailAt(ts)(d));
    } else {
      assert AddPoint(points, d)[..n] == points;
    }
  }

  lemma MergedPoint(last: Point, d: Detail, ts: int)
    requires last.ts == d.ts
    ensures At(ts)(Merged(last, d)) == A.Plus(At(ts)(last), DetailAt(ts)(d))
  {
  }

  /** One more row changes the sum over distinct names by that row if its target is among them. */
  lemma {:induction false} NamesStep(rows: seq<Detail>, top: seq<string>, names: seq<string>, ts: int)
    requires rows != [] && Distinct(names)
    ensures NamesAt(rows, top, names, ts) ==
            A.Plus(NamesAt(rows[..|rows| - 1], top, names, ts),
                   if Target(top, rows[|rows| - 1].group) in names then DetailAt(ts)(rows[|rows| - 1]) else A.ZERO)
  {
    var n := |rows| - 1;
    if names == [] {
      A.AddZero(A.ZERO);
    } else {
      NamesStep(rows, top, names[1..], ts);
      var before := A.Total(Collect(rows[..n], top, names[0]), At(ts));
      var rest := NamesAt(rows[..n], top, names[1..], ts);
      var d := DetailAt(ts)(rows[n]);
      if Target(top, rows[n].group) == names[0] {
        AddPointAt(Collect(rows[..n], top, names[0]), rows[n], ts);
        assert names[0] !in names[1..];
        A.AddZero(rest);
        A.PlusLaws(before, d, rest);
        A.PlusLaws(before, rest, d);
        A.PlusLaws(d, rest, A.ZERO);
      } else {
        assert Target(top, rows[n].group) in names <==> Target(top, rows[n].group) in names[1..];
        A.PlusLaws(before, rest, d);
        A.PlusLaws(before, rest, A.ZERO);
      }
    }
  }

  lemma {:induction false} NamesTotal(rows: seq<Detail>, top: seq<string>, names: seq<string>, ts: int)
    requires Distinct(names) && forall g :: Target(top, g) in names
    ensures NamesAt(rows, top, names, ts) == A.Total(rows, DetailAt(ts))
  {
    if rows == [] {
      EmptyNames(top, names, ts);
    } else {
      var n := |rows| - 1;
      NamesTotal(rows[..n], top, names, ts);
      NamesStep(rows, top, names, ts);
      A.TotalSnoc(rows, DetailAt(ts));
      assert Target(top, rows[n].group) in names;
    }
  }

  lemma {:induction false} EmptyNames(top: seq<string>, names: seq<string>, ts: int)
    ensures NamesAt([], top, names, ts) == A.ZERO
  {
    if names != [] {
      EmptyNames(top, names[1..], ts);
      A.AddZero(A.ZERO);
    }
  }

  lemma {:induction false} NamesAppend(rows: seq<Detail>, top: seq<string>, a: seq<string>, b: seq<string>, ts: int)
    ensures NamesAt(rows, top, a + b, ts) == A.Plus(NamesAt(rows, top, a, ts), NamesAt(rows, top, b, ts))
  {
    if a == [] {
      assert a + b == b;
      A.PlusLaws(NamesAt(rows, top, b, ts), A.ZERO, A.ZERO);
    } else {
      assert (a + b)[1..] == a[1..] + b;
      NamesAppend(rows, top, a[1..], b, ts);
      A.PlusLaws(A.Total(Collect(rows, top, a[0]), At(ts)), NamesAt(rows, top, a[1..], ts), NamesAt(rows, top, b, ts));
    }
  }

  /** What the answer counts twice: the `_other` series, when a top group bears that very name. */
  function CountedTwice(rows: seq<Detail>, top: seq<string>, ts: int): A.Agg {
    if OTHER in top then A.Total(Collect(rows, top, OTHER), At(ts)) else A.ZERO
  }

  /** At every timestamp, cost and requests summed over the answer's series are those summed over the
      rows, plus what is counted twice. */
  lemma SeriesConserve(rows: seq<Detail>, top: seq<string>, ts: int)
    requires Distinct(top)
    ensures SeriesAt(Assemble(rows, top, top + [OTHER]), ts) ==
            A.Plus(A.Total(rows, DetailAt(ts)), CountedTwice(rows, top, ts))
  {
    AssembleAt(rows, top, top + [OTHER], ts);
    if OTHER in top {
      NamesAppend(rows, top, top, [OTHER], ts);
      NamesTotal(rows, top, top, ts);
      OneName(rows, top, ts);
    } else {
      NamesTotal(rows, top, top + [OTHER], ts);
      A.AddZero(A.Total(rows, DetailAt(ts)));
    }
  }

  lemma OneName(rows: seq<Detail>, top: seq<string>, ts: int)
    ensures NamesAt(rows, top, [OTHER], ts) == A.Total(Collect(rows, top, OTHER), At(ts))
  {
    assert [OTHER][1..] == [];
    A.AddZero(A.Total(Collect(rows, top, OTHER), At(ts)));
  }

  // ---------------------------------------------------------------- exactly when it conserves

  function RequestSum(rows: seq<Detail>): nat {
    if rows == [] then 0 else rows[|rows| - 1].requests + RequestSum(rows[..|rows| - 1])
  }

  /** Requests of `_other` at `ts`, unwrapped. */
  function OtherSum(rows: seq<Detail>, top: seq<string>, ts: int): nat {
    if rows == [] then 0
    else
      var d := rows[|rows| - 1];
      (if Target(top, d.group) == OTHER && d.ts == ts then d.requests else 0) + OtherSum(rows[..|rows| - 1], top, ts)
  }

  lemma {:induction false} OtherSumIs(rows: seq<Detail>, top: seq<string>, ts: int)
    requires RequestSum(rows) < TWO_64
    ensures OtherSum(rows, top, ts) <= RequestSum(rows)
    ensures A.Total(Collect(rows, top, OTHER), At(ts)).requests == OtherSum(rows, top, ts)
  {
    if rows != [] {
      var n := |rows| - 1;
      OtherSumIs(rows[..n], top, ts);
      if Target(top, rows[n].group) == OTHER {
        AddPointAt(Collect(rows[..n], top, OTHER), rows[n], ts);
      }
    }
  }

  lemma {:induction false} OtherSumPositive(rows: seq<Detail>, top: seq<string>, i: nat)
    requires forall d :: d in rows ==> d.requests > 0
    requires i < |rows| && Target(top, rows[i].group) == OTHER
    ensures OtherSum(rows, top, rows[i].ts) > 0
  {
    var n := |rows| - 1;
    assert rows[n] in rows;
    if i < n {
      OtherSumPositive(rows[..n], top, i);
    }
  }

  lemma {:induction false} NoOtherRows(rows: seq<Detail>, top: seq<string>)
    requires forall d :: d in rows ==> Target(top, d.group) != OTHER
    ensures Collect(rows, top, OTHER) == []
  {
    if rows != [] {
      NoOtherRows(rows[..|rows| - 1], top);
      assert rows[|rows| - 1] in rows;
    }
  }

  /** For rows as the queries return them (every count positive, counts below 2^64 in all), the answer is
      conservative at every timestamp exactly when no top group is named `_other` or nothing else falls
      into that series. */
  lemma ConservesIff(rows: seq<Detail>, top: seq<string>)
    requires Distinct(top) && RequestSum(rows) < TWO_64 && forall d :: d in rows ==> d.requests > 0
    ensures (forall ts :: SeriesAt(Assemble(rows, top, top + [OTHER]), ts) == A.Total(rows, DetailAt(ts))) <==>
            (OTHER !in top || forall d :: d in rows ==> Target(top, d.group) != OTHER)
  {
    if OTHER in top && exists d :: d in rows && Target(top, d.group) == OTHER {
      var i :| 0 <= i < |rows| && Target(top, rows[i].group) == OTHER;
      var ts := rows[i].ts;
      SeriesConserve(rows, top, ts);
      OtherSumIs(rows, top, ts);
      OtherSumPositive(rows, top, i);
      RaisesRequests(A.Total(rows, DetailAt(ts)), CountedTwice(rows, top, ts));
    } else {
      forall ts ensures SeriesAt(Assemble(rows, top, top + [OTHER]), ts) == A.Total(rows, DetailAt(ts)) {
        SeriesConserve(rows, top, ts);
        if OTHER in top {
          NoOtherRows(rows, top);
        }
        A.AddZero(A.Total(rows, DetailAt(ts)));
      }
    }
  }

  lemma RaisesRequests(a: A.Agg, b: A.Agg)
    requires b.requests != 0
    ensures A.Plus(a, b) != a
  {
  }
}
