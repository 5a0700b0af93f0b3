/**
 * CPUBySession: a polyline of the session CPU samples over a padded 1400 x 400
 * viewport, a hover tooltip, and a table of the ten busiest sessions with
 * rank badges, load bars and the formatted CPU time.
 */
module CPUBySession {
  import opened Wrappers
  import opened Records
  import opened Geometry
  import StableSort
  import Durations

  const Width: real := 1400.0
  const Height: real := 400.0
  const PaddingX: real := 60.0
  const PaddingY: real := 40.0
  const GraphWidth: real := Width - PaddingX * 2.0
  const GraphHeight: real := Height - PaddingY * 2.0
  const TopCount: nat := 10

  /** `b.cpuPercent - a.cpuPercent`: ascending by negated CPU share. */
  function RankKey(s: SessionSample): real { -s.cpuPercent }

  /** `new Date(a.timestamp) - new Date(b.timestamp)`. */
  function TimeKey(s: SessionSample): real { s.timestamp as real }

  // ---------------------------------------------------------------- durations

  /**
   * `formatCPUTime`: a missing CPU time prints as "0s"; otherwise the shared
   * duration format. Either way the text reads back as the breakdown of the
   * time, a missing one counting as zero seconds.
   */
  function FormatCPUTime(seconds: Option<int>): (r: string)
    ensures seconds.None? ==> r == "0s"
    ensures Durations.ParseClock(r) == Some(Durations.Breakdown(if seconds.None? then 0 else seconds.value))
    ensures forall s :: Durations.ParseClock(s) == Some(Durations.Breakdown(if seconds.None? then 0 else seconds.value)) ==> s == r
  {
    if seconds.None? then
      assert Durations.Format(0) == "0s";
      "0s"
    else Durations.Format(seconds.value)
  }

  // ---------------------------------------------------------------- data

  /** `{ time, cpuPct, sid, username }`: one sample as the chart keeps it. */
  datatype ChartDatum = ChartDatum(time: int, cpuPct: real, sid: int, username: string)

  function DatumOf(s: SessionSample): ChartDatum {
    ChartDatum(s.timestamp, s.cpuPercent, s.sid, s.username)
  }

  /** The samples as a stable sort by timestamp arranges them. */
  function Chronological(sessions: seq<SessionSample>): (r: seq<SessionSample>)
    ensures |r| == |sessions| && multiset(r) == multiset(sessions)
    ensures forall i, j :: 0 <= i < j < |r| ==> r[i].timestamp <= r[j].timestamp
    ensures StableSort.SameTies(r, sessions, TimeKey)
  {
    StableSort.SortByStable(sessions, TimeKey);
    StableSort.SortBy(sessions, TimeKey)
  }

  /**
   * `processed`: nothing for a missing or empty feed; otherwise every sample,
   * oldest first, reduced to the four fields the chart shows.
   */
  function Processed(sessions: Option<seq<SessionSample>>): (r: seq<ChartDatum>)
    ensures sessions.None? ==> r == []
    ensures sessions.Some? ==> |r| == |sessions.value|
    ensures sessions.Some? ==> forall i :: 0 <= i < |r| ==> r[i] == DatumOf(Chronological(sessions.value)[i])
    ensures forall i, j :: 0 <= i < j < |r| ==> r[i].time <= r[j].time
  {
    if sessions.None? || |sessions.value| == 0 then []
    else
      var sorted := Chronological(sessions.value);
      seq(|sorted|, i requires 0 <= i < |sorted| => DatumOf(sorted[i]))
  }

  /** Each datum of the chart comes from a sample of the feed. */
  lemma ProcessedFromFeed(sessions: seq<SessionSample>, i: nat)
    requires i < |sessions|
    ensures exists s :: s in sessions && Processed(Some(sessions))[i] == DatumOf(s)
  {
    var sorted := Chronological(sessions);
    assert Processed(Some(sessions))[i] == DatumOf(sorted[i]);
    assert sorted[i] in multiset(sessions);
  }

  /**
   * `topSessions`: the feed ranked by descending CPU share, cut to ten. There
   * is no guard here: spreading a missing feed throws, modelled as None.
   */
  function TopSessions(sessions: Option<seq<SessionSample>>): (r: Option<seq<SessionSample>>)
    ensures r.None? <==> sessions.None?
    ensures r.Some? ==> |r.value| == if |sessions.value| < TopCount then |sessions.value| else TopCount
    ensures r.Some? ==> r.value == StableSort.SortBy(sessions.value, RankKey)[..|r.value|]
    ensures r.Some? ==> forall i, j :: 0 <= i < j < |r.value| ==> r.value[i].cpuPercent >= r.value[j].cpuPercent
    ensures r.Some? ==> forall q, i :: q in multiset(sessions.value) - multiset(r.value) && 0 <= i < |r.value| ==>
      q.cpuPercent <= r.value[i].cpuPercent
  {
    if sessions.None? then None
    else
      var sorted := StableSort.SortBy(sessions.value, RankKey);
      var t := if |sorted| < TopCount then |sorted| else TopCount;
      LeftOutRankLower(sessions.value, sorted, t);
      Some(sorted[..t])
  }

  /** No session left out of a prefix of the ranking has a higher CPU share than one kept. */
  lemma LeftOutRankLower(sessions: seq<SessionSample>, sorted: seq<SessionSample>, t: nat)
    requires t <= |sorted| && multiset(sorted) == multiset(sessions) && StableSort.SortedBy(sorted, RankKey)
    ensures forall i, j :: 0 <= i < j < t ==> sorted[i].cpuPercent >= sorted[j].cpuPercent
    ensures forall q, i :: q in multiset(sessions) - multiset(sorted[..t]) && 0 <= i < t ==>
      q.cpuPercent <= sorted[i].cpuPercent
  {
    StableSort.PrefixDominates(sorted, RankKey, t);
    forall q, i | q in multiset(sessions) - multiset(sorted[..t]) && 0 <= i < t
      ensures q.cpuPercent <= sorted[i].cpuPercent
    {
      assert RankKey(sorted[i]) <= RankKey(q);
    }
    forall i, j | 0 <= i < j < t ensures sorted[i].cpuPercent >= sorted[j].cpuPercent {
      assert RankKey(sorted[i]) <= RankKey(sorted[j]);
    }
  }

  // ---------------------------------------------------------------- points

  /** `xStep`: the graph width shared out over the gaps, or 0 without a gap. */
  function XStep(n: nat): (d: real)
    ensures n > 1 ==> d * (n - 1) as real == GraphWidth && d > 0.0
    ensures n <= 1 ==> d == 0.0
  {
    if n > 1 then GraphWidth / (n - 1) as real else 0.0
  }

  /** `paddingX + i * xStep`. */
  function XOf(i: nat, n: nat): (x: real)
    requires i < n
    ensures i == 0 ==> x == PaddingX
    ensures n > 1 && i == n - 1 ==> x == Width - PaddingX
    ensures PaddingX <= x <= Width - PaddingX
  {
    var step := XStep(n);
    assert n > 1 ==> i as real * step <= (n - 1) as real * step;
    PaddingX + i as real * step
  }

  lemma XStrictlyIncreasing(i: nat, j: nat, n: nat)
    requires i < j < n
    ensures XOf(i, n) < XOf(j, n)
  {
    var d := XStep(n);
    MulStrict(i as real, j as real, d);
  }

  lemma MulStrict(a: real, b: real, d: real)
    requires a < b && d > 0.0
    ensures a * d < b * d
  {
  }

  /** `paddingY + graphHeight - (cpuPct / 100) * graphHeight`. */
  function YOf(cpu: real): (y: real)
    ensures cpu == 0.0 ==> y == Height - PaddingY
    ensures cpu == 100.0 ==> y == PaddingY
    ensures 0.0 <= cpu <= 100.0 ==> PaddingY <= y <= Height - PaddingY
    ensures CpuAt(y) == cpu
  {
    PaddingY + GraphHeight - (cpu / 100.0) * GraphHeight
  }

  /** A higher CPU share is drawn strictly higher up. */
  lemma YStrictlyDecreasing(a: real, b: real)
    requires a < b
    ensures YOf(b) < YOf(a)
  {
  }

  /** The CPU share a screen height stands for. */
  function CpuAt(y: real): real {
    (PaddingY + GraphHeight - y) / GraphHeight * 100.0
  }

  /** `{ x, y, ...d }`. */
  datatype SessionPoint = SessionPoint(datum: ChartDatum, x: real, y: real)

  function Points(data: seq<ChartDatum>): (ps: seq<SessionPoint>)
    ensures |ps| == |data|
    ensures forall i :: 0 <= i < |ps| ==> ps[i].datum == data[i]
    ensures forall i :: 0 <= i < |ps| ==> ps[i].x == XOf(i, |ps|) && ps[i].y == YOf(data[i].cpuPct)
  {
    seq(|data|, i requires 0 <= i < |data| => SessionPoint(data[i], XOf(i, |data|), YOf(data[i].cpuPct)))
  }

  // ---------------------------------------------------------------- paths

  /**
   * `pathContent`: a move to the first point and a straight line to each
   * later one, so the path visits exactly the points, in order.
   */
  function PathContent(ps: seq<SessionPoint>): (path: seq<PathCmd>)
    ensures |path| == |ps|
    ensures forall i :: 0 <= i < |ps| ==> Endpoint(path[i]) == Some(Point(ps[i].x, ps[i].y))
    ensures forall i :: 0 <= i < |ps| ==> (path[i].M? <==> i == 0) && (path[i].L? <==> i > 0)
  {
    seq(|ps|, i requires 0 <= i < |ps| => if i == 0 then M(ps[i].x, ps[i].y) else L(ps[i].x, ps[i].y))
  }

  /** `points[points.length - 1]?.x || paddingX`: undefined and 0 are both falsy. */
  function LastXOrPadding(ps: seq<SessionPoint>): (x: real)
    ensures ps == [] ==> x == PaddingX
    ensures ps != [] && ps[|ps| - 1].x != 0.0 ==> x == ps[|ps| - 1].x
    ensures ps != [] && ps[|ps| - 1].x == 0.0 ==> x == PaddingX
  {
    if ps == [] || ps[|ps| - 1].x == 0.0 then PaddingX else ps[|ps| - 1].x
  }

  /** `areaContent`: the polyline, down to the baseline, back to the left edge, closed. */
  function AreaContent(ps: seq<SessionPoint>): (path: seq<PathCmd>)
    ensures |path| == |ps| + 3
    ensures path[..|ps|] == PathContent(ps)
    ensures path[|ps|] == L(LastXOrPadding(ps), Height - PaddingY)
    ensures path[|ps| + 1] == L(PaddingX, Height - PaddingY) && path[|ps| + 2] == Z
  {
    var line := PathContent(ps);
    var r := line + [L(LastXOrPadding(ps), Height - PaddingY), L(PaddingX, Height - PaddingY), Z];
    assert r[..|ps|] == line;
    r
  }

  /**
   * For the points of the chart, the area drops from the last point
   * straight to the baseline and returns to the left edge, where the first
   * point is; with no samples it degenerates to the left bottom corner.
   */
  lemma AreaClosesUnderCurve(sessions: Option<seq<SessionSample>>)
    ensures var ps := Points(Processed(sessions));
      var area := AreaContent(ps);
      && (ps != [] ==> area[|ps|] == L(ps[|ps| - 1].x, Height - PaddingY) && ps[0].x == PaddingX)
      && (ps == [] ==> area == [L(PaddingX, Height - PaddingY), L(PaddingX, Height - PaddingY), Z])
  {
    var ps := Points(Processed(sessions));
    if ps != [] {
      assert ps[|ps| - 1].x >= PaddingX;
    }
  }

  /** With two or more samples the chart spans the graph area from edge to edge. */
  lemma ChartSpansGraph(sessions: Option<seq<SessionSample>>)
    requires |Processed(sessions)| >= 2
    ensures var ps := Points(Processed(sessions));
      ps[0].x == PaddingX && ps[|ps| - 1].x == Width - PaddingX
  {
  }

  // ---------------------------------------------------------------- hover

  /** Tooltip placement as percentages of the viewport. */
  datatype TooltipBox = TooltipBox(left: real, top: real, time: int, cpuPct: real)

  function TooltipAt(p: SessionPoint): (t: TooltipBox)
    ensures t.left * Width == p.x * 100.0 && t.top * Height == p.y * 100.0
    ensures t.time == p.datum.time && t.cpuPct == p.datum.cpuPct
  {
    TooltipBox(p.x / Width * 100.0, p.y / Height * 100.0, p.datum.time, p.datum.cpuPct)
  }

  /**
   * The tooltip of any chart point with a share in 0..100 % stays within the
   * viewport; `data` is any chart series, `Processed(sessions)` among them.
   */
  lemma TooltipInsideViewport(data: seq<ChartDatum>, i: nat)
    requires i < |data| && 0.0 <= data[i].cpuPct <= 100.0
    ensures var t := TooltipAt(Points(data)[i]);
      0.0 < t.left < 100.0 && 0.0 < t.top < 100.0
  {
  }

  /**
   * The `hoveredPoint` state: entering a point's hit area shows its tooltip,
   * leaving it hides it. New data does not clear it.
   */
  class Hover {
    var hovered: Option<SessionPoint>

    constructor ()
      ensures hovered == None
    {
      hovered := None;
    }

    method MouseEnter(p: SessionPoint)
      modifies this
      ensures hovered == Some(p)
    {
      hovered := Some(p);
    }

    method MouseLeave()
      modifies this
      ensures hovered == None
    {
      hovered := None;
    }

    /** The tooltip overlay: rendered exactly while a point is hovered. */
    function Tooltip(): (t: Option<TooltipBox>)
      reads this
      ensures t.Some? <==> hovered.Some?
      ensures t.Some? ==> t.value == TooltipAt(hovered.value)
    {
      if hovered.None? then None else Some(TooltipAt(hovered.value))
    }
  }

  // ---------------------------------------------------------------- table

  datatype Tier = Gold | Silver | Bronze | Plain

  /** The rank cell: a coloured badge for the first three rows, `#n` after. */
  datatype RankBadge = RankBadge(tier: Tier, number: nat)

  function TierLevel(t: Tier): nat {
    match t
    case Plain => 0
    case Bronze => 1
    case Silver => 2
    case Gold => 3
  }

  function RankCell(index: nat): (b: RankBadge)
    ensures b.number == index + 1
    ensures b.tier == Gold <==> index == 0
    ensures b.tier == Silver <==> index == 1
    ensures b.tier == Bronze <==> index == 2
    ensures b.tier == Plain <==> index >= 3
  {
    RankBadge(if index == 0 then Gold else if index == 1 then Silver else if index == 2 then Bronze else Plain,
              index + 1)
  }

  /** Down the table the CPU share never rises and the badge never improves. */
  lemma BadgesFollowLoad(sessions: seq<SessionSample>, i: nat, j: nat)
    requires i < j < |TopSessions(Some(sessions)).value|
    ensures var top := TopSessions(Some(sessions)).value;
      top[i].cpuPercent >= top[j].cpuPercent
      && TierLevel(RankCell(i).tier) >= TierLevel(RankCell(j).tier)
      && RankCell(i).number < RankCell(j).number
  {
  }

  datatype BarColor = Blue | Orange | Red

  /** The load bar: above 80 % red, above 50 % orange, otherwise blue. */
  function BarColorOf(cpu: real): (c: BarColor)
    ensures c == Red <==> cpu > 80.0
    ensures c == Orange <==> 50.0 < cpu <= 80.0
    ensures c == Blue <==> cpu <= 50.0
  {
    if cpu > 80.0 then Red else if cpu > 50.0 then Orange else Blue
  }

  function BarLevel(c: BarColor): nat {
    match c
    case Blue => 0
    case Orange => 1
    case Red => 2
  }

  lemma BarColorMonotone(a: real, b: real)
    requires a <= b
    ensures BarLevel(BarColorOf(a)) <= BarLevel(BarColorOf(b))
  {
  }

  // ---------------------------------------------------------------- layout

  datatype Section = Chart | Table

  /** `mode`: 'full' shows both, 'graph-only' the chart, 'table-only' the table, anything else neither. */
  function Sections(mode: string): (r: seq<Section>)
    ensures Chart in r <==> mode == "full" || mode == "graph-only"
    ensures Table in r <==> mode == "full" || mode == "table-only"
    ensures |r| <= 2 && (|r| == 2 ==> r == [Chart, Table])
  {
    (if mode == "full" || mode == "graph-only" then [Chart] else [])
    + (if mode == "full" || mode == "table-only" then [Table] else [])
  }
}
