/**
 * The `%Y%m%d%H%M%S` rendering of a clock reading that names snapshots and log files
 * (`TIMESTAMP` in common.py, the per-task timestamp of the older creator).
 */
module Timestamp {
  import opened Wrappers

  datatype DateTime = DateTime(year: nat, month: nat, day: nat, hour: nat, minute: nat, second: nat)

  function DaysInMonth(year: nat, month: nat): nat
    requires 1 <= month <= 12
  {
    if month == 2 then (if (year % 4 == 0 && year % 100 != 0) || year % 400 == 0 then 29 else 28)
    else if month == 4 || month == 6 || month == 9 || month == 11 then 30
    else 31
  }

  /** A reading `datetime.now()` can return; years before 1000 are outside the model. */
  predicate Valid(d: DateTime) {
    && 1000 <= d.year <= 9999
    && 1 <= d.month <= 12
    && 1 <= d.day <= DaysInMonth(d.year, d.month)
    && d.hour < 24 && d.minute < 60 && d.second < 60
  }

  type Moment = d: DateTime | Valid(d) witness DateTime(2024, 8, 11, 0, 0, 0)

  predicate IsDigit(c: char) {
    '0' <= c <= '9'
  }

  predicate AllDigits(s: string) {
    forall i :: 0 <= i < |s| ==> IsDigit(s[i])
  }

  function Pow10(w: nat): nat {
    if w == 0 then 1 else 10 * Pow10(w - 1)
  }

  /** `n` in decimal, zero-padded to exactly `width` digits. */
  function Pad(n: nat, width: nat): (s: string)
    requires n < Pow10(width)
    ensures |s| == width && AllDigits(s)
  {
    if width == 0 then ""
    else Pad(n / 10, width - 1) + [('0' as int + n % 10) as char]
  }

  /** The number a string of decimal digits denotes. */
  function DigitsValue(s: string): nat
    requires AllDigits(s)
  {
    if |s| == 0 then 0 else 10 * DigitsValue(s[..|s| - 1]) + (s[|s| - 1] as int - '0' as int)
  }

  lemma {:induction false} PadValue(n: nat, width: nat)
    requires n < Pow10(width)
    ensures DigitsValue(Pad(n, width)) == n
  {
    if width > 0 {
      PadValue(n / 10, width - 1);
      var s := Pad(n, width);
      assert s[..|s| - 1] == Pad(n / 10, width - 1);
    }
  }

  /** `strftime("%Y%m%d%H%M%S")`: fourteen digits, so never a `_` or a `/`. */
  function Format(d: Moment): (ts: string)
    ensures |ts| == 14 && AllDigits(ts)
    ensures '_' !in ts && '/' !in ts
  {
    var ts := Pad(d.year, 4) + Pad(d.month, 2) + Pad(d.day, 2) + Pad(d.hour, 2) + Pad(d.minute, 2) + Pad(d.second, 2);
    assert forall i :: 0 <= i < |ts| ==> IsDigit(ts[i]);
    ts
  }

  /** Reads a fourteen-digit stamp back into its fields. */
  function Parse(ts: string): Option<DateTime> {
    if |ts| == 14 && AllDigits(ts) then
      Some(DateTime(DigitsValue(ts[0..4]), DigitsValue(ts[4..6]), DigitsValue(ts[6..8]),
                    DigitsValue(ts[8..10]), DigitsValue(ts[10..12]), DigitsValue(ts[12..14])))
    else None
  }

  /** The rendering loses nothing: the clock reading can be read back from the stamp. */
  lemma ParseFormat(d: Moment)
    ensures Parse(Format(d)) == Some(d)
  {
    var ts := Format(d);
    var y, mo, dd, h, mi, s := Pad(d.year, 4), Pad(d.month, 2), Pad(d.day, 2), Pad(d.hour, 2), Pad(d.minute, 2), Pad(d.second, 2);
    assert ts == y + mo + dd + h + mi + s;
    assert |y| == 4 && |mo| == 2 && |dd| == 2 && |h| == 2 && |mi| == 2 && |s| == 2;
    assert ts[0..4] == y;
    assert ts[4..6] == mo;
    assert ts[6..8] == dd;
    assert ts[8..10] == h;
    assert ts[10..12] == mi;
    assert ts[12..14] == s;
    PadValue(d.year, 4);
    PadValue(d.month, 2);
    PadValue(d.day, 2);
    PadValue(d.hour, 2);
    PadValue(d.minute, 2);
    PadValue(d.second, 2);
  }

  /** Distinct clock readings give distinct stamps. */
  lemma FormatInjective(d: Moment, e: Moment)
    requires Format(d) == Format(e)
    ensures d == e
  {
    ParseFormat(d);
    ParseFormat(e);
  }
}
