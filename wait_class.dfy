/**
 * WaitClassDistribution: a pie of wait-class percentages, coloured by class
 * name, and a legend that shows each class with an estimated session count.
 */
module WaitClass {
  import opened Records

  /** `COLORS`. */
  const Colors: map<string, string> := map[
    "CPU" := "#16a34a",
    "User I/O" := "#2563eb",
    "Application" := "#dc2626",
    "Concurrency" := "#ea580c",
    "System I/O" := "#8b5cf6",
    "Other" := "#6b7280"
  ]

  const OtherColor: string := "#6b7280"

  /** `COLORS[name] || COLORS.Other`: the class's own colour, grey for an unknown class. */
  function ColorOf(name: string): (c: string)
    ensures name in Colors ==> c == Colors[name]
    ensures name !in Colors ==> c == OtherColor
    ensures c in Colors.Values
  {
    assert Colors["Other"] == OtherColor;
    if name in Colors then Colors[name] else OtherColor
  }

  /** The five named classes get five different colours, none of them the fallback grey. */
  lemma KnownClassesDistinct(a: string, b: string)
    requires a in Colors && b in Colors && a != "Other" && b != "Other" && a != b
    ensures ColorOf(a) != ColorOf(b) && ColorOf(a) != OtherColor
  {
  }

  // ---------------------------------------------------------------- total

  /** `data.reduce((sum, item) => sum + item.value, 0)`: a left fold. */
  function Total(data: seq<WaitClassItem>): real {
    if data == [] then 0.0 else Total(data[..|data| - 1]) + data[|data| - 1].value
  }

  /** The plain sum, element by element from the front. */
  function Sum(data: seq<WaitClassItem>): real {
    if data == [] then 0.0 else data[0].value + Sum(data[1..])
  }

  lemma {:induction false} SumAppend(a: seq<WaitClassItem>, b: seq<WaitClassItem>)
    ensures Sum(a + b) == Sum(a) + Sum(b)
  {
    if a == [] {
      assert a + b == b;
    } else {
      assert (a + b)[1..] == a[1..] + b;
      SumAppend(a[1..], b);
    }
  }

  /** The fold computes the sum of the values. */
  lemma {:induction false} TotalIsSum(data: seq<WaitClassItem>)
    ensures Total(data) == Sum(data)
  {
    if data != [] {
      var init := data[..|data| - 1];
      TotalIsSum(init);
      assert data == init + [data[|data| - 1]];
      SumAppend(init, [data[|data| - 1]]);
    }
  }

  /** Non-negative values give a total at least every single value. */
  lemma {:induction false} TotalBoundsEachValue(data: seq<WaitClassItem>, i: nat)
    requires i < |data|
    requires forall j :: 0 <= j < |data| ==> data[j].value >= 0.0
    ensures 0.0 <= data[i].value <= Total(data)
  {
    TotalIsSum(data);
    SumBoundsEach(data, i);
  }

  lemma {:induction false} SumBoundsEach(data: seq<WaitClassItem>, i: nat)
    requires i < |data|
    requires forall j :: 0 <= j < |data| ==> data[j].value >= 0.0
    ensures data[i].value <= Sum(data)
  {
    SumNonNegative(data[1..]);
    if i > 0 {
      SumBoundsEach(data[1..], i - 1);
    }
  }

  lemma {:induction false} SumNonNegative(data: seq<WaitClassItem>)
    requires forall j :: 0 <= j < |data| ==> data[j].value >= 0.0
    ensures Sum(data) >= 0.0
  {
    if data != [] {
      SumNonNegative(data[1..]);
    }
  }

  // ---------------------------------------------------------------- legend

  /** `Math.round`: the nearest integer, halves rounded up. */
  function JsRound(x: real): (r: int)
    ensures x - 0.5 < r as real <= x + 0.5
  {
    (x + 0.5).Floor
  }

  /** `Math.round((value / 100) * total)`: the class's share of the total, in sessions. */
  function SessionCount(value: real, total: real): (n: int)
    ensures value / 100.0 * total - 0.5 < n as real <= value / 100.0 * total + 0.5
  {
    JsRound(value / 100.0 * total)
  }

  /** One legend row: swatch colour, class name, percentage and estimated sessions. */
  datatype LegendEntry = LegendEntry(name: string, color: string, value: real, sessions: int)

  /** The legend: one row per item, in data order, the swatch matching the pie slice. */
  function Legend(data: seq<WaitClassItem>): (rows: seq<LegendEntry>)
    ensures |rows| == |data|
    ensures forall i :: 0 <= i < |data| ==>
      rows[i].name == data[i].name && rows[i].value == data[i].value && rows[i].color == ColorOf(data[i].name)
    ensures forall i :: 0 <= i < |data| ==> rows[i].sessions == SessionCount(data[i].value, Total(data))
  {
    var total := Total(data);
    seq(|data|, i requires 0 <= i < |data| =>
      LegendEntry(data[i].name, ColorOf(data[i].name), data[i].value, SessionCount(data[i].value, total)))
  }

  /** The pie slices' fills, `data.map(entry => COLORS[entry.name] || COLORS.Other)`. */
  function SliceColors(data: seq<WaitClassItem>): (fills: seq<string>)
    ensures |fills| == |data|
    ensures forall i :: 0 <= i < |data| ==> fills[i] == Legend(data)[i].color
  {
    seq(|data|, i requires 0 <= i < |data| => ColorOf(data[i].name))
  }

  function CountSum(rows: seq<LegendEntry>): int {
    if rows == [] then 0 else rows[0].sessions + CountSum(rows[1..])
  }

  function ShareSum(data: seq<WaitClassItem>, total: real): real {
    if data == [] then 0.0 else data[0].value / 100.0 * total + ShareSum(data[1..], total)
  }

  lemma {:induction false} ShareSumIsScaledSum(data: seq<WaitClassItem>, total: real)
    ensures ShareSum(data, total) == Sum(data) / 100.0 * total
  {
    if data != [] {
      ShareSumIsScaledSum(data[1..], total);
    }
  }

  /** The rounded counts of the items, added up. */
  function RoundedSum(data: seq<WaitClassItem>, total: real): int {
    if data == [] then 0 else SessionCount(data[0].value, total) + RoundedSum(data[1..], total)
  }

  /** Rounded counts stay within half a session per row of the exact shares. */
  lemma {:induction false} CountsNearShares(data: seq<WaitClassItem>, total: real)
    ensures ShareSum(data, total) - 0.5 * |data| as real <= RoundedSum(data, total) as real
    ensures RoundedSum(data, total) as real <= ShareSum(data, total) + 0.5 * |data| as real
  {
    if data != [] {
      CountsNearShares(data[1..], total);
    }
  }

  lemma {:induction false} CountSumOfRows(rows: seq<LegendEntry>, data: seq<WaitClassItem>, total: real)
    requires |rows| == |data|
    requires forall i :: 0 <= i < |data| ==> rows[i].sessions == SessionCount(data[i].value, total)
    ensures CountSum(rows) == RoundedSum(data, total)
  {
    if rows != [] {
      CountSumOfRows(rows[1..], data[1..], total);
    }
  }

  /**
   * When the percentages add up to 100, the session counts of the legend add
   * up to the total, give or take half a session per row.
   */
  lemma LegendCountsNearTotal(data: seq<WaitClassItem>)
    requires Total(data) == 100.0
    ensures var t := Total(data);
      t - 0.5 * |data| as real <= CountSum(Legend(data)) as real <= t + 0.5 * |data| as real
  {
    var t := Total(data);
    TotalIsSum(data);
    ShareSumIsScaledSum(data, t);
    CountsNearShares(data, t);
    CountSumOfRows(Legend(data), data, t);
  }
}
