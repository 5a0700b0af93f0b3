/**
 * IncidentTable: one row per incident in feed order, each followed by its
 * full-SQL detail row while expanded, with a row highlight, a role badge, an
 * elapsed-time colour and a wait-class badge derived from the incident.
 */
module IncidentTable {
  import opened Wrappers
  import opened Records
  import Durations
  import Expansion

  const LongRunSeconds: int := 1800
  const SlowSeconds: int := 300
  const ImpactThreshold: int := 2

  function IdOf(i: Incident): int { i.id }

  /** `formatElapsedTime`: the shared duration format (there is no null case here). */
  function FormatElapsedTime(seconds: int): (r: string)
    ensures Durations.ParseClock(r) == Some(Durations.Breakdown(seconds))
    ensures forall s :: Durations.ParseClock(s) == Some(Durations.Breakdown(seconds)) ==> s == r
  {
    Durations.Format(seconds)
  }

  // ---------------------------------------------------------------- badges

  datatype Variant = Destructive | Secondary | Default | Outline

  /** `variants[role]`: the three known roles have a variant, any other role none. */
  function RoleBadge(role: string): (v: Option<Variant>)
    ensures v == Some(Destructive) <==> role == "BLOCKER"
    ensures v == Some(Secondary) <==> role == "VICTIM"
    ensures v == Some(Default) <==> role == "LONG RUNNER"
    ensures v.None? <==> role !in {"BLOCKER", "VICTIM", "LONG RUNNER"}
  {
    if role == "BLOCKER" then Some(Destructive)
    else if role == "VICTIM" then Some(Secondary)
    else if role == "LONG RUNNER" then Some(Default)
    else None
  }

  predicate ContendedWait(waitClass: string) {
    waitClass == "Application" || waitClass == "Concurrency"
  }

  /** The wait-class badge: destructive for Application and Concurrency waits. */
  function WaitClassBadge(waitClass: string): (v: Variant)
    ensures v == Destructive <==> ContendedWait(waitClass)
    ensures v != Destructive ==> v == Outline
  {
    if ContendedWait(waitClass) then Destructive else Outline
  }

  datatype TextColor = Gray | Orange | Red

  /** The elapsed-time text: red past 30 minutes, orange past 5 minutes. */
  function ElapsedColor(seconds: int): (c: TextColor)
    ensures c == Red <==> seconds > LongRunSeconds
    ensures c == Orange <==> SlowSeconds < seconds <= LongRunSeconds
    ensures c == Gray <==> seconds <= SlowSeconds
  {
    if seconds > LongRunSeconds then Red else if seconds > SlowSeconds then Orange else Gray
  }

  function ColorLevel(c: TextColor): nat {
    match c
    case Gray => 0
    case Orange => 1
    case Red => 2
  }

  lemma ElapsedColorMonotone(a: int, b: int)
    requires a <= b
    ensures ColorLevel(ElapsedColor(a)) <= ColorLevel(ElapsedColor(b))
  {
  }

  // ---------------------------------------------------------------- highlight

  /** `getRowHighlight`'s four outcomes. */
  datatype Highlight = BlockerRed | ContentionOrange | LongRunRed | NoHighlight

  predicate HeavyBlocker(i: Incident) {
    i.role == "BLOCKER" && i.impactedSessions > ImpactThreshold
  }

  /**
   * The first rule that applies wins: a blocker holding up more than two
   * sessions, then an Application or Concurrency wait, then a run longer
   * than 30 minutes.
   */
  function RowHighlight(i: Incident): (h: Highlight)
    ensures h == BlockerRed <==> HeavyBlocker(i)
    ensures h == ContentionOrange <==> !HeavyBlocker(i) && ContendedWait(i.waitClass)
    ensures h == LongRunRed <==> !HeavyBlocker(i) && !ContendedWait(i.waitClass) && i.elapsedTime > LongRunSeconds
    ensures h == NoHighlight <==> !HeavyBlocker(i) && !ContendedWait(i.waitClass) && i.elapsedTime <= LongRunSeconds
  {
    if HeavyBlocker(i) then BlockerRed
    else if ContendedWait(i.waitClass) then ContentionOrange
    else if i.elapsedTime > LongRunSeconds then LongRunRed
    else NoHighlight
  }

  /**
   * The row colours agree with the cells: an unhighlighted row shows neither a
   * destructive wait badge nor a red elapsed time, and a row highlighted for
   * its run time shows the time in red.
   */
  lemma HighlightAgreesWithCells(i: Incident)
    ensures RowHighlight(i) == NoHighlight ==>
      WaitClassBadge(i.waitClass) == Outline && ElapsedColor(i.elapsedTime) != Red
    ensures RowHighlight(i) == LongRunRed ==> ElapsedColor(i.elapsedTime) == Red
    ensures WaitClassBadge(i.waitClass) == Destructive ==> RowHighlight(i) in {BlockerRed, ContentionOrange}
  {
  }

  /** `incident.blockingSid ? … : '—'`: a SID of 0 is falsy and shows as a dash too. */
  function BlockingSidCell(blockingSid: Option<int>): (shown: Option<int>)
    ensures shown.Some? <==> blockingSid.Some? && blockingSid.value != 0
    ensures shown.Some? ==> shown.value == blockingSid.value
  {
    if blockingSid.Some? && blockingSid.value != 0 then blockingSid else None
  }

  /** The impact cell shows the count only when some session is impacted. */
  function ImpactCell(impactedSessions: int): (shown: Option<int>)
    ensures shown.Some? <==> impactedSessions > 0
    ensures shown.Some? ==> shown.value == impactedSessions
  {
    if impactedSessions > 0 then Some(impactedSessions) else None
  }

  // ---------------------------------------------------------------- rows

  /** `incidents.flatMap(...)`: keyed by incident id, in feed order. */
  function IncidentRows(incidents: seq<Incident>, expanded: set<int>): (rows: seq<Expansion.Row<Incident>>)
    ensures incidents == [] <==> rows == []
    ensures Expansion.Mains(rows) == Expansion.Ranked(incidents, 0)
  {
    Expansion.FlatRowsMains(incidents, IdOf, expanded, 0);
    Expansion.FlatRows(incidents, IdOf, expanded, 0)
  }

  /**
   * Every detail row follows the main row of its own incident, whose id is
   * expanded; and a main row is followed by its detail row exactly when its
   * id is expanded (the chevron points down).
   */
  lemma IncidentRowsInterleave(incidents: seq<Incident>, expanded: set<int>, k: nat)
    requires k < |IncidentRows(incidents, expanded)|
    ensures var rows := IncidentRows(incidents, expanded);
      && (rows[k].Detail? ==> 0 < k && rows[k - 1].Main? && rows[k - 1].item == rows[k].item
                                    && rows[k].item.id in expanded)
      && (rows[k].Main? ==> (rows[k].item.id in expanded <==> k + 1 < |rows| && rows[k + 1] == Expansion.Detail(rows[k].item)))
  {
    var rows := IncidentRows(incidents, expanded);
    if rows[k].Detail? {
      Expansion.DetailFollowsMain(incidents, IdOf, expanded, 0, k);
    } else {
      Expansion.MainExpandedIff(incidents, IdOf, expanded, 0, k);
    }
  }

  /** With nothing expanded the table holds exactly one row per incident. */
  lemma CollapsedTableIsOneRowEach(incidents: seq<Incident>)
    ensures IncidentRows(incidents, {}) == Expansion.Ranked(incidents, 0)
  {
    CollapsedRows(incidents, 0);
  }

  lemma {:induction false} CollapsedRows(incidents: seq<Incident>, start: nat)
    ensures Expansion.FlatRows(incidents, IdOf, {}, start) == Expansion.Ranked(incidents, start)
  {
    if incidents != [] {
      CollapsedRows(incidents[1..], start + 1);
    }
  }
}
