/**
 * CPUBySQL: ranks SQL statements by CPU share, and draws their CPU samples as
 * a smooth spline over a 1400 x 360 viewport with a filled area under it.
 */
module CPUBySQL {
  import opened Wrappers
  import opened Records
  import opened Geometry
  import StableSort
  import Expansion

  const Width: real := 1400.0
  const Height: real := 360.0
  const MaxCPU: real := 100.0
  const TopCount: nat := 10

  /** The comparator `b.cpuPercent - a.cpuPercent` sorts by ascending negated CPU share. */
  function RankKey(q: SqlQuery): real { -q.cpuPercent }

  /** The comparator `new Date(a.timestamp) - new Date(b.timestamp)`. */
  function TimeKey(q: SqlQuery): real { q.timestamp as real }

  function SqlIdOf(q: SqlQuery): string { q.sqlId }

  // ---------------------------------------------------------------- ranking

  /**
   * `sortedQueries`: a permutation of the input by descending CPU share; within
   * one CPU value (one key -v of RankKey) the queries keep their input order.
   */
  function SortedQueries(queries: seq<SqlQuery>): (r: seq<SqlQuery>)
    ensures |r| == |queries| && multiset(r) == multiset(queries)
    ensures forall i, j :: 0 <= i < j < |r| ==> r[i].cpuPercent >= r[j].cpuPercent
    ensures StableSort.SameTies(r, queries, RankKey)
  {
    StableSort.SortByStable(queries, RankKey);
    StableSort.SortBy(queries, RankKey)
  }

  /**
   * Any rearrangement of the queries by descending CPU share that keeps equal
   * shares in input order is `sortedQueries`: the ranking does not depend on
   * which stable sort the engine runs.
   */
  lemma SortedQueriesIsTheStableSort(queries: seq<SqlQuery>, r: seq<SqlQuery>)
    requires forall i, j :: 0 <= i < j < |r| ==> r[i].cpuPercent >= r[j].cpuPercent
    requires StableSort.SameTies(r, queries, RankKey)
    ensures r == SortedQueries(queries)
  {
    StableSort.SortByUnique(queries, r, RankKey);
  }

  /** Ranking an already ranked list changes nothing. */
  lemma SortedQueriesIdempotent(queries: seq<SqlQuery>)
    ensures SortedQueries(SortedQueries(queries)) == SortedQueries(queries)
  {
    StableSort.SortByIdempotent(queries, RankKey);
  }

  /**
   * `topQueries`: the first min(10, n) ranked queries. Truncation happens after
   * ranking, so no query left out has a higher CPU share than one kept.
   */
  function TopQueries(queries: seq<SqlQuery>): (r: seq<SqlQuery>)
    ensures |r| == if |queries| < TopCount then |queries| else TopCount
    ensures r == SortedQueries(queries)[..|r|]
    ensures forall q, i :: q in multiset(queries) - multiset(r) && 0 <= i < |r| ==>
      q.cpuPercent <= r[i].cpuPercent
  {
    var sorted := SortedQueries(queries);
    var t := if |sorted| < TopCount then |sorted| else TopCount;
    LeftOutRankLower(queries, sorted, t);
    sorted[..t]
  }

  /** No query left out of a prefix of the ranking has a higher CPU share than one kept. */
  lemma LeftOutRankLower(queries: seq<SqlQuery>, sorted: seq<SqlQuery>, t: nat)
    requires t <= |sorted| && multiset(sorted) == multiset(queries)
    requires forall i, j :: 0 <= i < j < |sorted| ==> sorted[i].cpuPercent >= sorted[j].cpuPercent
    ensures forall q, i :: q in multiset(queries) - multiset(sorted[..t]) && 0 <= i < t ==>
      q.cpuPercent <= sorted[i].cpuPercent
  {
    assert StableSort.SortedBy(sorted, RankKey);
    StableSort.PrefixDominates(sorted, RankKey, t);
    forall q, i | q in multiset(queries) - multiset(sorted[..t]) && 0 <= i < t
      ensures q.cpuPercent <= sorted[i].cpuPercent
    {
      assert RankKey(sorted[i]) <= RankKey(q);
    }
  }

  // ---------------------------------------------------------------- chart points

  /** The samples in chronological order: a stable sort of a copy by timestamp. */
  function Chronological(queries: seq<SqlQuery>): (r: seq<SqlQuery>)
    ensures |r| == |queries| && multiset(r) == multiset(queries)
    ensures forall i, j :: 0 <= i < j < |r| ==> r[i].timestamp <= r[j].timestamp
    ensures StableSort.SameTies(r, queries, TimeKey)
  {
    StableSort.SortByStable(queries, TimeKey);
    StableSort.SortBy(queries, TimeKey)
  }

  /** `{ ...d, x, y }`: a sample with its screen position. */
  datatype QueryPoint = QueryPoint(query: SqlQuery, x: real, y: real)

  /** `(i / (n - 1)) * width`: the samples span the full width with no padding. */
  function XAt(i: nat, n: nat): (x: real)
    requires i < n && n >= 2
    ensures i == 0 ==> x == 0.0
    ensures i == n - 1 ==> x == Width
    ensures 0.0 <= x <= Width
  {
    (i as real / (n - 1) as real) * Width
  }

  lemma XStrictlyIncreasing(i: nat, j: nat, n: nat)
    requires i < j < n && n >= 2
    ensures XAt(i, n) < XAt(j, n)
  {
    var d := (n - 1) as real;
    assert i as real / d < j as real / d;
  }

  /** Consecutive samples are `width / (n - 1)` apart. */
  lemma XEvenlySpaced(i: nat, n: nat)
    requires i + 1 < n && n >= 2
    ensures XAt(i + 1, n) - XAt(i, n) == Width / (n - 1) as real
  {
    var d := (n - 1) as real;
    assert (i + 1) as real / d - i as real / d == 1.0 / d;
  }

  /** CPU share to screen height: `height - (cpu / maxCPU) * height`. */
  function YOf(cpu: real): (y: real)
    ensures cpu == 0.0 ==> y == Height
    ensures cpu == MaxCPU ==> y == 0.0
    ensures 0.0 <= cpu <= MaxCPU ==> 0.0 <= y <= Height
    ensures CpuAt(y) == cpu
  {
    Height - (cpu / MaxCPU) * Height
  }

  /** The inverse of YOf: the CPU share a screen height stands for. */
  function CpuAt(y: real): real {
    (Height - y) / Height * MaxCPU
  }

  lemma YStrictlyDecreasing(a: real, b: real)
    requires a < b
    ensures YOf(b) < YOf(a)
  {
  }

  /**
   * `points`: empty for no samples; otherwise one point per sample, in
   * chronological order, spread evenly across the width. A single sample puts
   * 0 / 0 into x, so it is excluded.
   */
  function Points(queries: seq<SqlQuery>): (ps: seq<QueryPoint>)
    requires |queries| != 1
    ensures |ps| == |queries|
    ensures forall i :: 0 <= i < |ps| ==> ps[i].query == Chronological(queries)[i]
    ensures forall i :: 0 <= i < |ps| ==> ps[i].x == XAt(i, |ps|) && ps[i].y == YOf(ps[i].query.cpuPercent)
  {
    var sorted := Chronological(queries);
    seq(|sorted|, i requires 0 <= i < |sorted| =>
      QueryPoint(sorted[i], XAt(i, |sorted|), YOf(sorted[i].cpuPercent)))
  }

  // ---------------------------------------------------------------- paths

  /**
   * One reduce step: with `dx = (point.x - prev.x) / 2`, a cubic segment to
   * `point` whose two control points sit on the horizontal midpoint, at the
   * heights of `prev` and of `point`.
   */
  function Segment(prev: QueryPoint, point: QueryPoint): (c: PathCmd)
    ensures c.C?
    ensures c.x1 == c.x2 == (prev.x + point.x) / 2.0
    ensures c.y1 == prev.y && c.y2 == point.y
    ensures Endpoint(c) == Some(Point(point.x, point.y))
  {
    var dx := (point.x - prev.x) / 2.0;
    C(prev.x + dx, prev.y, point.x - dx, point.y, point.x, point.y)
  }

  /** The `points.reduce(...)` accumulator after the points `ps`. */
  function Spline(ps: seq<QueryPoint>): (path: seq<PathCmd>)
    requires |ps| >= 1
    ensures |path| == |ps|
    ensures path[0] == M(ps[0].x, ps[0].y)
    ensures forall i :: 1 <= i < |ps| ==> path[i] == Segment(ps[i - 1], ps[i])
  {
    if |ps| == 1 then [M(ps[0].x, ps[0].y)]
    else Spline(ps[..|ps| - 1]) + [Segment(ps[|ps| - 2], ps[|ps| - 1])]
  }

  /** `linePath`: nothing for fewer than two points, otherwise the spline. */
  function LinePath(ps: seq<QueryPoint>): (path: seq<PathCmd>)
    ensures |ps| < 2 ==> path == []
    ensures |ps| >= 2 ==> |path| == |ps| && path[0] == M(ps[0].x, ps[0].y)
    ensures |ps| >= 2 ==> forall i :: 1 <= i < |ps| ==> path[i] == Segment(ps[i - 1], ps[i])
  {
    if |ps| < 2 then [] else Spline(ps)
  }

  /** The curve passes through every point, in order. */
  lemma LinePassesThroughPoints(ps: seq<QueryPoint>)
    requires |ps| >= 2
    ensures forall i :: 0 <= i < |ps| ==> Endpoint(LinePath(ps)[i]) == Some(Point(ps[i].x, ps[i].y))
  {
    forall i | 0 <= i < |ps| ensures Endpoint(LinePath(ps)[i]) == Some(Point(ps[i].x, ps[i].y)) {
      if i > 0 {
        assert LinePath(ps)[i] == Segment(ps[i - 1], ps[i]);
      }
    }
  }

  /**
   * `areaPath`. With no points, `points.at(-1)?.x` is `undefined` and the
   * string holds an undefined coordinate; otherwise the line is closed by the
   * baseline vertices under the last and the first point.
   */
  datatype Area = Closed(path: seq<PathCmd>) | UndefinedVertex

  function AreaPath(ps: seq<QueryPoint>): (a: Area)
    ensures a.UndefinedVertex? <==> ps == []
    ensures ps != [] ==> a.path == LinePath(ps) + [L(ps[|ps| - 1].x, Height), L(ps[0].x, Height), Z]
  {
    if ps == [] then UndefinedVertex
    else Closed(LinePath(ps) + [L(ps[|ps| - 1].x, Height), L(ps[0].x, Height), Z])
  }

  /**
   * For two or more samples within 0..100 %, the area is the line followed by
   * the two bottom corners of the viewport and a close, and every vertex of
   * the line lies inside the viewport, above or on the baseline.
   */
  lemma AreaClosesLineAgainstBaseline(queries: seq<SqlQuery>)
    requires |queries| >= 2
    requires forall q :: q in queries ==> 0.0 <= q.cpuPercent <= MaxCPU
    ensures var ps := Points(queries);
      var a := AreaPath(ps);
      && a.Closed? && |a.path| == |ps| + 3
      && a.path[..|ps|] == LinePath(ps)
      && a.path[|ps|] == L(Width, Height) && a.path[|ps| + 1] == L(0.0, Height) && a.path[|ps| + 2] == Z
      && forall i :: 0 <= i < |ps| ==> 0.0 <= ps[i].x <= Width && 0.0 <= ps[i].y <= Height
  {
    var ps := Points(queries);
    var sorted := Chronological(queries);
    forall i | 0 <= i < |ps| ensures 0.0 <= ps[i].y <= Height {
      assert sorted[i] in multiset(queries);
    }
    var a := AreaPath(ps);
    assert a.path[..|ps|] == LinePath(ps);
  }

  // ---------------------------------------------------------------- table

  /** The colour tier of a CPU share (`getBarColor` and the row, bar and text classes). */
  datatype Severity = Normal | Warning | Critical

  function SeverityOf(cpu: real): (s: Severity)
    ensures s == Critical <==> cpu >= 70.0
    ensures s == Warning <==> 40.0 <= cpu < 70.0
    ensures s == Normal <==> cpu < 40.0
  {
    if cpu >= 70.0 then Critical else if cpu >= 40.0 then Warning else Normal
  }

  function Level(s: Severity): nat {
    match s
    case Normal => 0
    case Warning => 1
    case Critical => 2
  }

  /** A higher CPU share never gets a milder tier. */
  lemma SeverityMonotone(a: real, b: real)
    requires a <= b
    ensures Level(SeverityOf(a)) <= Level(SeverityOf(b))
  {
  }

  /**
   * The table body: every ranked query (not only the top ten) with rank
   * index + 1, each followed by its detail row when its SQL id is expanded.
   */
  function TableRows(queries: seq<SqlQuery>, expanded: set<string>): (rows: seq<Expansion.Row<SqlQuery>>)
    ensures Expansion.Mains(rows) == Expansion.Ranked(SortedQueries(queries), 0)
  {
    Expansion.FlatRowsMains(SortedQueries(queries), SqlIdOf, expanded, 0);
    Expansion.FlatRows(SortedQueries(queries), SqlIdOf, expanded, 0)
  }

  /**
   * A detail row follows the main row of its own query, whose SQL id is
   * expanded; a main row is followed by its detail row exactly when its SQL
   * id is expanded.
   */
  lemma TableRowsInterleave(queries: seq<SqlQuery>, expanded: set<string>, k: nat)
    requires k < |TableRows(queries, expanded)|
    ensures var rows := TableRows(queries, expanded);
      && (rows[k].Detail? ==> 0 < k && rows[k - 1].Main? && rows[k - 1].item == rows[k].item
                                    && rows[k].item.sqlId in expanded)
      && (rows[k].Main? ==> (rows[k].item.sqlId in expanded <==> k + 1 < |rows| && rows[k + 1] == Expansion.Detail(rows[k].item)))
  {
    var rows := TableRows(queries, expanded);
    if rows[k].Detail? {
      Expansion.DetailFollowsMain(SortedQueries(queries), SqlIdOf, expanded, 0, k);
    } else {
      Expansion.MainExpandedIff(SortedQueries(queries), SqlIdOf, expanded, 0, k);
    }
  }
}
