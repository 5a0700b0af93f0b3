/**
 * BlockingGraph: the session-distribution chart's tooltip, which reads the
 * active, waiting and idle values out of the hovered payload, and the choice
 * of sections by `mode`.
 */
module BlockingGraph {
  import opened Wrappers

  /** One series entry of a tooltip payload; its value may be missing. */
  datatype TooltipEntry = TooltipEntry(dataKey: string, value: Option<real>)

  /** `payload.find(p => p.dataKey === key)`: the position of the first entry with the key. */
  function FindKey(payload: seq<TooltipEntry>, key: string): (r: Option<nat>)
    ensures r.Some? ==> r.value < |payload| && payload[r.value].dataKey == key
    ensures r.Some? ==> forall j :: 0 <= j < r.value ==> payload[j].dataKey != key
    ensures r.None? ==> forall j :: 0 <= j < |payload| ==> payload[j].dataKey != key
  {
    if payload == [] then None
    else if payload[0].dataKey == key then Some(0)
    else match FindKey(payload[1..], key)
      case None => None
      case Some(k) => Some(k + 1)
  }

  /** `?.value || 0`: a missing entry, a missing value and a zero all read as 0. */
  function ValueOf(payload: seq<TooltipEntry>, key: string): (v: real)
    ensures (forall j :: 0 <= j < |payload| ==> payload[j].dataKey != key) ==> v == 0.0
    ensures forall i :: 0 <= i < |payload| && payload[i].dataKey == key
                        && (forall j :: 0 <= j < i ==> payload[j].dataKey != key) ==>
      v == (if payload[i].value.Some? then payload[i].value.value else 0.0)
  {
    match FindKey(payload, key)
    case None => 0.0
    case Some(i) => if payload[i].value.Some? then payload[i].value.value else 0.0
  }

  datatype TooltipContent = TooltipContent(active: real, waiting: real, idle: real, total: real)

  /**
   * `CustomTooltip`: rendered only while active with a non-empty payload;
   * the total load is the sum of the three series read.
   */
  function Tooltip(active: bool, payload: Option<seq<TooltipEntry>>): (t: Option<TooltipContent>)
    ensures t.Some? <==> active && payload.Some? && |payload.value| > 0
    ensures t.Some? ==>
      && t.value.active == ValueOf(payload.value, "active")
      && t.value.waiting == ValueOf(payload.value, "waiting")
      && t.value.idle == ValueOf(payload.value, "idle")
      && t.value.total == t.value.active + t.value.waiting + t.value.idle
  {
    if active && payload.Some? && |payload.value| > 0 then
      var a := ValueOf(payload.value, "active");
      var w := ValueOf(payload.value, "waiting");
      var i := ValueOf(payload.value, "idle");
      Some(TooltipContent(a, w, i, a + w + i))
    else None
  }

  /** The payload recharts passes for one point of the three-area chart. */
  function PointPayload(active: real, waiting: real, idle: real): seq<TooltipEntry> {
    [TooltipEntry("active", Some(active)), TooltipEntry("waiting", Some(waiting)), TooltipEntry("idle", Some(idle))]
  }

  /** For a point of the chart, the tooltip shows its three counts and their sum. */
  lemma TooltipOfPoint(active: real, waiting: real, idle: real)
    ensures Tooltip(true, Some(PointPayload(active, waiting, idle)))
         == Some(TooltipContent(active, waiting, idle, active + waiting + idle))
  {
    var p := PointPayload(active, waiting, idle);
    assert p[0].dataKey == "active" && p[1].dataKey == "waiting" && p[2].dataKey == "idle";
    assert ValueOf(p, "waiting") == waiting;
    assert ValueOf(p, "idle") == idle;
  }

  /** A series missing from the payload adds nothing to the total. */
  lemma MissingSeriesCountsZero(payload: seq<TooltipEntry>)
    requires |payload| > 0
    requires forall j :: 0 <= j < |payload| ==> payload[j].dataKey != "idle"
    ensures var t := Tooltip(true, Some(payload)).value;
      t.idle == 0.0 && t.total == t.active + t.waiting
  {
  }

  /** Only the first entry with a key counts; later duplicates are ignored. */
  lemma FirstEntryWins(payload: seq<TooltipEntry>, key: string, extra: TooltipEntry)
    requires exists i :: 0 <= i < |payload| && payload[i].dataKey == key
    ensures ValueOf(payload + [extra], key) == ValueOf(payload, key)
  {
    var r := FindKey(payload, key);
    var i := r.value;
    var p := payload + [extra];
    assert p[i] == payload[i];
    assert forall j :: 0 <= j < i ==> p[j] == payload[j];
  }

  // ---------------------------------------------------------------- layout

  datatype Section = Cards | Graph

  /** 'graph-only' and 'cards-only' show one section; any other mode shows the cards, then the graph. */
  function Sections(mode: string): (r: seq<Section>)
    ensures mode == "graph-only" ==> r == [Graph]
    ensures mode == "cards-only" ==> r == [Cards]
    ensures mode !in {"graph-only", "cards-only"} ==> r == [Cards, Graph]
    ensures Graph in r <==> mode != "cards-only"
    ensures Cards in r <==> mode != "graph-only"
  {
    if mode == "graph-only" then [Graph]
    else if mode == "cards-only" then [Cards]
    else [Cards, Graph]
  }
}
