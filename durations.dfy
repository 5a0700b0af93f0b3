/**
 * The duration formatter that CPUBySession (`formatCPUTime`) and IncidentTable
 * (`formatElapsedTime`) share: under a minute as "<s>s", under an hour as
 * "<m>m <s>s", otherwise "<h>h <m>m". Seconds are whole numbers here.
 */
module Durations {
  import opened Wrappers

  /** How a number of seconds is broken down before it is printed. */
  datatype Clock =
    | Seconds(raw: int)
    | MinutesSeconds(minutes: nat, seconds: nat)
    | HoursMinutes(hours: nat, minutes: nat)

  /**
   * `seconds < 60` keeps the raw value; otherwise `Math.floor(seconds / 60)`
   * minutes, and when those reach 60, `Math.floor(minutes / 60)` hours. For
   * the non-negative operands met here, floor division is Dafny's `/`.
   */
  function Breakdown(seconds: int): (c: Clock)
    ensures c.Seconds? <==> seconds < 60
    ensures c.MinutesSeconds? <==> 60 <= seconds < 3600
    ensures c.HoursMinutes? <==> 3600 <= seconds
    ensures c.Seconds? ==> c.raw == seconds
    ensures c.MinutesSeconds? ==>
      1 <= c.minutes < 60 && c.seconds < 60 && c.minutes * 60 + c.seconds == seconds
    ensures c.HoursMinutes? ==>
      1 <= c.hours && c.minutes < 60 &&
      c.hours * 3600 + c.minutes * 60 <= seconds < c.hours * 3600 + c.minutes * 60 + 60
  {
    if seconds < 60 then Seconds(seconds)
    else
      var minutes := seconds / 60;
      if minutes < 60 then MinutesSeconds(minutes, seconds % 60)
      else HoursMinutes(minutes / 60, minutes % 60)
  }

  function DigitChar(d: nat): (c: char)
    requires d < 10
    ensures '0' <= c <= '9'
  {
    ['0', '1', '2', '3', '4', '5', '6', '7', '8', '9'][d]
  }

  function DigitValue(c: char): nat
    requires '0' <= c <= '9'
  {
    (c as int - '0' as int) as nat
  }

  /** Decimal digits of `n` without leading zeros, as a JavaScript template prints it. */
  function NatToString(n: nat): (s: string)
    ensures |s| >= 1
    ensures forall i :: 0 <= i < |s| ==> '0' <= s[i] <= '9'
    ensures |s| > 1 ==> s[0] != '0'
  {
    if n < 10 then [DigitChar(n)] else NatToString(n / 10) + [DigitChar(n % 10)]
  }

  /** Reads a string of decimal digits back as a number. */
  function ParseDigits(s: string): nat
    requires forall i :: 0 <= i < |s| ==> '0' <= s[i] <= '9'
  {
    if s == [] then 0 else ParseDigits(s[..|s| - 1]) * 10 + DigitValue(s[|s| - 1])
  }

  lemma DigitRoundTrip(d: nat)
    requires d < 10
    ensures DigitValue(DigitChar(d)) == d
  {
  }

  /** Printing a number and reading it back gives the number. */
  lemma {:induction false} NatToStringRoundTrip(n: nat)
    ensures ParseDigits(NatToString(n)) == n
  {
    var s := NatToString(n);
    if n < 10 {
      DigitRoundTrip(n);
      assert s[..0] == [];
    } else {
      var init := NatToString(n / 10);
      assert s == init + [DigitChar(n % 10)];
      assert s[..|s| - 1] == init;
      NatToStringRoundTrip(n / 10);
      DigitRoundTrip(n % 10);
      assert ParseDigits(s) == ParseDigits(init) * 10 + DigitValue(DigitChar(n % 10));
    }
  }

  /** A signed integer as a template prints it: a minus sign for negatives, then the digits. */
  function IntToString(i: int): (s: string)
    ensures |s| >= 1 && (s[0] == '-' <==> i < 0)
    ensures i >= 0 ==> AllDigits(s) && ParseDigits(s) == i
    ensures i < 0 ==> AllDigits(s[1..]) && ParseDigits(s[1..]) == -i
  {
    if i < 0 then
      NatToStringRoundTrip(-i);
      assert ("-" + NatToString(-i))[1..] == NatToString(-i);
      "-" + NatToString(-i)
    else
      NatToStringRoundTrip(i);
      NatToString(i)
  }

  function Render(c: Clock): string {
    match c
    case Seconds(s) => IntToString(s) + "s"
    case MinutesSeconds(m, s) => NatToString(m) + "m " + NatToString(s) + "s"
    case HoursMinutes(h, m) => NatToString(h) + "h " + NatToString(m) + "m"
  }

  /**
   * The formatted duration. What it prints determines the breakdown: reading
   * the text back recovers the minutes and seconds, or hours and minutes.
   */
  function Format(seconds: int): (r: string)
    ensures ParseClock(r) == Some(Breakdown(seconds))
    ensures forall s :: ParseClock(s) == Some(Breakdown(seconds)) ==> s == r
  {
    RenderRoundTrip(Breakdown(seconds));
    ReadingDeterminesText(Breakdown(seconds));
    Render(Breakdown(seconds))
  }

  /** Two durations print the same text only when they break down the same way. */
  lemma FormatDistinguishes(a: int, b: int)
    requires Format(a) == Format(b)
    ensures Breakdown(a) == Breakdown(b)
  {
  }

  /** Below a minute the printed text determines the value. */
  lemma FormatInjectiveBelowMinute(a: int, b: int)
    requires a < 60 && b < 60 && Format(a) == Format(b)
    ensures a == b
  {
    FormatDistinguishes(a, b);
  }

  // ---------------------------------------------------------------- reading back

  predicate AllDigits(s: string) {
    forall i :: 0 <= i < |s| ==> '0' <= s[i] <= '9'
  }

  /** The position of the first space, if any. */
  function FirstSpace(s: string): (r: Option<nat>)
    ensures r.Some? ==> r.value < |s| && s[r.value] == ' ' && forall i :: 0 <= i < r.value ==> s[i] != ' '
    ensures r.None? ==> forall i :: 0 <= i < |s| ==> s[i] != ' '
  {
    if s == [] then None
    else if s[0] == ' ' then Some(0)
    else match FirstSpace(s[1..])
      case None => None
      case Some(k) => Some(k + 1)
  }

  /** A number without leading zeros followed by the one-letter unit `unit`. */
  function ParseUnit(s: string, unit: char): Option<nat> {
    if |s| >= 2 && s[|s| - 1] == unit && AllDigits(s[..|s| - 1]) && (|s| == 2 || s[0] != '0') then
      Some(ParseDigits(s[..|s| - 1]))
    else None
  }

  /** Reads a rendered duration back into its breakdown. */
  function ParseClock(s: string): Option<Clock> {
    match FirstSpace(s)
    case None =>
      if s != [] && s[0] == '-' then
        (match ParseUnit(s[1..], 's') case Some(n) => if n > 0 then Some(Seconds(-(n as int))) else None case None => None)
      else
        (match ParseUnit(s, 's') case Some(n) => Some(Seconds(n)) case None => None)
    case Some(k) =>
      var head, tail := s[..k], s[k + 1..];
      if ParseUnit(head, 'm').Some? && ParseUnit(tail, 's').Some? then
        Some(MinutesSeconds(ParseUnit(head, 'm').value, ParseUnit(tail, 's').value))
      else if ParseUnit(head, 'h').Some? && ParseUnit(tail, 'm').Some? then
        Some(HoursMinutes(ParseUnit(head, 'h').value, ParseUnit(tail, 'm').value))
      else None
  }

  lemma ParseUnitOf(n: nat, unit: char)
    requires !('0' <= unit <= '9')
    ensures ParseUnit(NatToString(n) + [unit], unit) == Some(n)
  {
    var s := NatToString(n) + [unit];
    assert s[..|s| - 1] == NatToString(n);
    NatToStringRoundTrip(n);
  }

  /** `a + " " + b` where `a` holds no space splits at the end of `a`. */
  lemma SplitAtSpace(a: string, b: string)
    requires forall i :: 0 <= i < |a| ==> a[i] != ' '
    ensures var s := a + " " + b;
      FirstSpace(s) == Some(|a|) && s[..|a|] == a && s[|a| + 1..] == b
  {
    var s := a + " " + b;
    assert s[|a|] == ' ';
    assert forall i :: 0 <= i < |a| ==> s[i] == a[i];
    assert s[..|a|] == a;
    assert s[|a| + 1..] == b;
  }

  predicate NoSpace(s: string) {
    forall i :: 0 <= i < |s| ==> s[i] != ' '
  }

  lemma NoSpaceConcat(a: string, b: string)
    requires NoSpace(a) && NoSpace(b)
    ensures NoSpace(a + b)
  {
    forall i | 0 <= i < |a + b| ensures (a + b)[i] != ' ' {
      if i >= |a| { assert (a + b)[i] == b[i - |a|]; }
    }
  }

  /** A number followed by a unit letter holds no space. */
  lemma NoSpaceInNumber(n: nat, unit: char)
    requires unit != ' '
    ensures NoSpace(NatToString(n) + [unit])
  {
    NoSpaceConcat(NatToString(n), [unit]);
  }

  lemma NegativeSecondsRoundTrip(v: int)
    requires v < 0
    ensures ParseClock(Render(Seconds(v))) == Some(Seconds(v))
  {
    var n: nat := -v;
    var body := NatToString(n) + "s";
    var s := Render(Seconds(v));
    assert s == "-" + body;
    NoSpaceInNumber(n, 's');
    NoSpaceConcat("-", body);
    assert FirstSpace(s) == None;
    ParseUnitOf(n, 's');
    assert s[1..] == body;
  }

  lemma PlainSecondsRoundTrip(v: int)
    requires v >= 0
    ensures ParseClock(Render(Seconds(v))) == Some(Seconds(v))
  {
    var s := Render(Seconds(v));
    assert s == NatToString(v) + "s";
    NoSpaceInNumber(v, 's');
    assert FirstSpace(s) == None;
    assert s[0] == NatToString(v)[0];
    ParseUnitOf(v, 's');
  }

  lemma Regroup(x: string, y: string, u1: char, u2: char)
    ensures x + [u1, ' '] + y + [u2] == (x + [u1]) + " " + (y + [u2])
  {
  }

  /** "<big><u1> <small><u2>" splits at its space into the two numbers and units. */
  lemma SplitPair(big: nat, small: nat, u1: char, u2: char)
    requires u1 != ' ' && !('0' <= u1 <= '9') && !('0' <= u2 <= '9')
    ensures var a, b := NatToString(big) + [u1], NatToString(small) + [u2];
      var s := NatToString(big) + [u1, ' '] + NatToString(small) + [u2];
      && FirstSpace(s) == Some(|a|) && s[..|a|] == a && s[|a| + 1..] == b
      && ParseUnit(a, u1) == Some(big) && ParseUnit(b, u2) == Some(small)
  {
    var a, b := NatToString(big) + [u1], NatToString(small) + [u2];
    Regroup(NatToString(big), NatToString(small), u1, u2);
    NoSpaceInNumber(big, u1);
    SplitAtSpace(a, b);
    ParseUnitOf(big, u1);
    ParseUnitOf(small, u2);
  }

  lemma MinutesSecondsRoundTrip(m: nat, v: nat)
    ensures ParseClock(Render(MinutesSeconds(m, v))) == Some(MinutesSeconds(m, v))
  {
    SplitPair(m, v, 'm', 's');
  }

  lemma OtherUnit(digits: string, u: char, other: char)
    requires u != other
    ensures ParseUnit(digits + [u], other).None?
  {
    assert (digits + [u])[|digits|] == u;
  }

  lemma HoursMinutesRoundTrip(h: nat, m: nat)
    ensures ParseClock(Render(HoursMinutes(h, m))) == Some(HoursMinutes(h, m))
  {
    SplitPair(h, m, 'h', 'm');
    OtherUnit(NatToString(h), 'h', 'm');
  }

  /** Rendering then reading back gives the breakdown. */
  lemma RenderRoundTrip(c: Clock)
    ensures ParseClock(Render(c)) == Some(c)
  {
    match c
    case Seconds(v) =>
      if v < 0 {
        NegativeSecondsRoundTrip(v);
      } else {
        PlainSecondsRoundTrip(v);
      }
    case MinutesSeconds(m, v) => MinutesSecondsRoundTrip(m, v);
    case HoursMinutes(h, m) => HoursMinutesRoundTrip(h, m);
  }

  // ---------------------------------------------------------------- the text is determined

  lemma DigitCharOfValue(c: char)
    requires '0' <= c <= '9'
    ensures DigitValue(c) < 10 && DigitChar(DigitValue(c)) == c
  {
  }

  lemma {:induction false} LeadingDigitPositive(d: string)
    requires |d| >= 1 && AllDigits(d) && d[0] != '0'
    ensures ParseDigits(d) >= 1
  {
    if |d| > 1 {
      var init := d[..|d| - 1];
      assert init[0] == d[0];
      LeadingDigitPositive(init);
    }
  }

  lemma LastDigit(p: nat, v: nat)
    requires v < 10
    ensures (p * 10 + v) / 10 == p && (p * 10 + v) % 10 == v
  {
  }

  /** Digits without a leading zero are exactly how their value prints. */
  lemma {:induction false} DigitsArePrinted(d: string)
    requires |d| >= 1 && AllDigits(d) && (|d| == 1 || d[0] != '0')
    ensures NatToString(ParseDigits(d)) == d
  {
    var init, last := d[..|d| - 1], d[|d| - 1];
    DigitCharOfValue(last);
    if |d| == 1 {
      assert init == [];
      assert d == [last];
    } else {
      assert init[0] == d[0];
      LeadingDigitPositive(init);
      DigitsArePrinted(init);
      var n := ParseDigits(d);
      assert n == ParseDigits(init) * 10 + DigitValue(last);
      LastDigit(ParseDigits(init), DigitValue(last));
      assert NatToString(n) == NatToString(ParseDigits(init)) + [DigitChar(DigitValue(last))];
      assert d == init + [last];
    }
  }

  /** A number with its unit reads back only from the text that prints it. */
  lemma ParseUnitPrinted(s: string, unit: char, n: nat)
    requires ParseUnit(s, unit) == Some(n)
    ensures s == NatToString(n) + [unit]
  {
    var d := s[..|s| - 1];
    assert d[0] == s[0];
    DigitsArePrinted(d);
    assert s == d + [unit];
  }

  lemma RenderNegative(n: nat)
    requires n > 0
    ensures Render(Seconds(-(n as int))) == "-" + (NatToString(n) + "s")
  {
  }

  lemma SignedSecondsExact(s: string)
    requires |s| >= 1 && s[0] == '-' && ParseUnit(s[1..], 's').Some?
    ensures s == "-" + (NatToString(ParseUnit(s[1..], 's').value) + "s")
  {
    var t := s[1..];
    ParseUnitPrinted(t, 's', ParseUnit(t, 's').value);
    assert s == [s[0]] + t;
  }

  /** A text "<a><u1> <b><u2>" whose halves read as numbers is their printing. */
  lemma PairExact(head: string, tail: string, u1: char, u2: char)
    requires ParseUnit(head, u1).Some? && ParseUnit(tail, u2).Some?
    ensures head + " " + tail == NatToString(ParseUnit(head, u1).value) + [u1, ' ']
                               + NatToString(ParseUnit(tail, u2).value) + [u2]
  {
    ParseUnitPrinted(head, u1, ParseUnit(head, u1).value);
    ParseUnitPrinted(tail, u2, ParseUnit(tail, u2).value);
  }

  /** A text that reads as a breakdown is exactly that breakdown's rendering. */
  lemma ParseClockExact(s: string, c: Clock)
    requires ParseClock(s) == Some(c)
    ensures s == Render(c)
  {
    match FirstSpace(s)
    case None =>
      if s != [] && s[0] == '-' {
        SignedSecondsExact(s);
        RenderNegative(ParseUnit(s[1..], 's').value);
      } else {
        ParseUnitPrinted(s, 's', ParseUnit(s, 's').value);
      }
    case Some(k) =>
      assert s == s[..k] + " " + s[k + 1..];
      if ParseUnit(s[..k], 'm').Some? && ParseUnit(s[k + 1..], 's').Some? {
        PairExact(s[..k], s[k + 1..], 'm', 's');
      } else {
        PairExact(s[..k], s[k + 1..], 'h', 'm');
      }
  }

  /** Only the rendering of a breakdown reads back as that breakdown. */
  lemma ReadingDeterminesText(c: Clock)
    ensures forall s :: ParseClock(s) == Some(c) ==> s == Render(c)
  {
    forall s | ParseClock(s) == Some(c) ensures s == Render(c) {
      ParseClockExact(s, c);
    }
  }
}
