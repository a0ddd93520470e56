/** Local wall-clock time as the rescheduler sees it: instants in whole
    minutes, calendar days numbered from a Sunday, and the two textual layouts
    the source formats instants with. */
module Clock {

  /** Minutes since 00:00 local time on day 0. */
  type Instant = nat

  /** What Go's Time.Hour() returns. */
  type Hour = h: nat | h < 24

  const MinutesPerDay: nat := 1440

  /** The calendar day an instant falls on. */
  function Day(t: Instant): nat { t / MinutesPerDay }

  /** The hour of the day an instant falls in. */
  function HourOf(t: Instant): Hour { (t % MinutesPerDay) / 60 }

  /** time.Date(year, month, day, hour, 0, 0, 0, time.Local) for day number `day`. */
  function At(day: nat, hour: Hour): (t: Instant)
    ensures Day(t) == day && HourOf(t) == hour && t % 60 == 0
  {
    day * MinutesPerDay + hour * 60
  }

  /** time.Weekday numbering: Sunday is 0 and Saturday is 6; day 0 is a Sunday. */
  function Weekday(day: nat): (w: nat)
    ensures w < 7
  {
    day % 7
  }

  predicate IsWeekend(day: nat)
  {
    Weekday(day) == 0 || Weekday(day) == 6
  }

  // ---------------------------------------------------------------------
  // Decimal digits (fmt's %d, and the stand-in for the token timestamp).

  function DigitChar(d: nat): (c: char)
    requires d < 10
    ensures '0' <= c <= '9'
  {
    ('0' as int + d) as char
  }

  predicate AllDigits(s: string)
  {
    forall k :: 0 <= k < |s| ==> '0' <= s[k] <= '9'
  }

  /** fmt.Sprintf("%d", n) for a non-negative n. */
  function Digits(n: nat): (s: string)
    ensures |s| >= 1 && AllDigits(s)
  {
    if n < 10 then [DigitChar(n)] else Digits(n / 10) + [DigitChar(n % 10)]
  }

  /** The number a string of decimal digits denotes. */
  function DigitsValue(s: string): nat
    requires AllDigits(s)
  {
    if s == [] then 0
    else DigitsValue(s[..|s| - 1]) * 10 + (s[|s| - 1] as int - '0' as int)
  }

  lemma {:induction false} DigitsRoundTrip(n: nat)
    ensures DigitsValue(Digits(n)) == n
  {
    if n >= 10 {
      var s := Digits(n);
      assert s[..|s| - 1] == Digits(n / 10);
      DigitsRoundTrip(n / 10);
    }
  }

  // ---------------------------------------------------------------------
  // Layout "2006-01-02T15:04:05-07:00": the value written into selection
  // tokens and read back by time.Parse. Modelled as the instant's decimal
  // minute count, which keeps the two properties the rescheduler depends on:
  // the text holds no comma, and parsing it gives the instant back.

  function Stamp(t: Instant): (s: string)
    ensures s != [] && AllDigits(s)
  {
    Digits(t)
  }

  /** time.Parse with its error discarded: a malformed text yields the zero
      time, which is instant 0 here. */
  function ParseStamp(s: string): (t: Instant)
    ensures !(s != [] && AllDigits(s)) ==> t == 0
    ensures Canonical(s) ==> Stamp(t) == s
  {
    if s != [] && AllDigits(s) then
      if Canonical(s) then DigitsOfValue(s); DigitsValue(s) else DigitsValue(s)
    else 0
  }

  /** A digit run without leading zeros: the form `Stamp` writes. */
  predicate Canonical(s: string)
  {
    s != [] && AllDigits(s) && (s[0] != '0' || |s| == 1)
  }

  /** A digit run that does not start with 0 reads as a positive number. */
  lemma {:induction false} DigitsValuePositive(s: string)
    requires s != [] && AllDigits(s) && s[0] != '0'
    ensures DigitsValue(s) >= 1
  {
    if |s| > 1 {
      DigitsValuePositive(s[..|s| - 1]);
    }
  }

  /** Writing out the value of a canonical digit run gives the run back. */
  lemma {:induction false} DigitsOfValue(s: string)
    requires Canonical(s)
    ensures Digits(DigitsValue(s)) == s
  {
    if |s| > 1 {
      var init := s[..|s| - 1];
      DigitsValuePositive(init);
      DigitsOfValue(init);
      var n := DigitsValue(s);
      assert n / 10 == DigitsValue(init) && n % 10 == s[|s| - 1] as int - '0' as int;
      assert s == init + [s[|s| - 1]];
    }
  }

  lemma StampRoundTrip(t: Instant)
    ensures ParseStamp(Stamp(t)) == t
    ensures ',' !in Stamp(t)
  {
    DigitsRoundTrip(t);
  }

  // ---------------------------------------------------------------------
  // Layout "2006-01-02 15:04": the human-readable form shown in menus.

  function TwoDigits(n: nat): (s: string)
    requires n < 100
    ensures |s| == 2 && AllDigits(s)
  {
    [DigitChar(n / 10), DigitChar(n % 10)]
  }

  /** The day number, a space, and the zero-padded hour and minute. */
  function Readable(t: Instant): (s: string)
    ensures '\n' !in s && ',' !in s
  {
    var d, hm := Digits(Day(t)), TwoDigits(HourOf(t)) + ":" + TwoDigits(t % 60);
    assert forall k :: 0 <= k < |d| ==> d[k] != '\n';
    d + " " + hm
  }
}
