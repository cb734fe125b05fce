/** Conversion between timeframe strings such as "15m" and durations in milliseconds
    (tests/real-time/lib/timeframeUtils.js). Both directions fail soft: bad input
    becomes five minutes. */
module Timeframe {
  import opened JsText

  const Second: nat := 1000
  const Minute: nat := 60 * Second
  const Hour: nat := 60 * Minute
  const Day: nat := 24 * Hour
  const Week: nat := 7 * Day
  /** A calendar-naive month of 30 days. */
  const Month: nat := 30 * Day

  /** The duration returned for input that cannot be read. */
  const DefaultMs: int := 5 * Minute

  /** The unit letters and what each multiplies by. */
  function Multiplier(u: char): Option<nat>
  {
    match u
    case 's' => Some(Second)
    case 'm' => Some(Minute)
    case 'h' => Some(Hour)
    case 'd' => Some(Day)
    case 'w' => Some(Week)
    case 'M' => Some(Month)
    case _ => None
  }

  predicate IsUnit(u: char) { Multiplier(u).Some? }

  /** The argument of `tfToMs`: a number is used as it is, anything else is read as text. */
  datatype TfArg = TfNumber(ms: int) | TfText(s: string)

  /** `tfToMs`: the leading integer of the text times the multiplier of its last character. */
  function TfToMs(tf: TfArg): (r: int)
    ensures tf.TfNumber? ==> r == tf.ms
    ensures tf.TfText? && ParseInt(tf.s) == None ==> r == DefaultMs
    ensures tf.TfText? && tf.s != [] && !IsUnit(tf.s[|tf.s| - 1]) ==> r == DefaultMs
  {
    match tf
    case TfNumber(ms) => ms
    case TfText(s) =>
      var num := ParseInt(s);
      var unit := if s == [] then None else Multiplier(s[|s| - 1]);
      if num.None? || unit.None? then DefaultMs else num.value * unit.value
  }

  /** The text `^[0-9]+[smhdwM]$` that `msToTf` passes through unchanged. */
  predicate IsTfText(s: string) {
    |s| >= 2 && IsUnit(s[|s| - 1]) && forall i :: 0 <= i < |s| - 1 ==> IsDecimalDigit(s[i])
  }

  /** The argument of `msToTf`: a number, the number NaN, a string or another kind of value. */
  datatype MsArg = MsNumber(n: int) | MsNaN | MsText(s: string) | MsOther

  /** The durations that have a fixed name. */
  function Canonical(ms: int): Option<string>
  {
    match ms
    case 60000 => Some("1m")
    case 180000 => Some("3m")
    case 300000 => Some("5m")
    case 540000 => Some("9m")
    case 900000 => Some("15m")
    case 1620000 => Some("27m")
    case 1800000 => Some("30m")
    case 3600000 => Some("1h")
    case 7200000 => Some("2h")
    case 10800000 => Some("3h")
    case 14400000 => Some("4h")
    case 21600000 => Some("6h")
    case 28800000 => Some("8h")
    case 43200000 => Some("12h")
    case 86400000 => Some("1d")
    case 259200000 => Some("3d")
    case 604800000 => Some("1w")
    case 2592000000 => Some("1M")
    case _ => None
  }

  /** The unit a non-canonical duration is written in: the largest one whose
      threshold it reaches, with its letter. */
  function UnitFor(ms: int): (r: (nat, char))
    ensures r.0 > 0 && Multiplier(r.1) == Some(r.0)
  {
    if ms < Hour then (Minute, 'm')
    else if ms < Day then (Hour, 'h')
    else if ms < Week then (Day, 'd')
    else if ms < Month then (Week, 'w')
    else (Month, 'M')
  }

  /** `Math.round(ms / u)`: the integer nearest to ms/u, halves rounded up. */
  function RoundDiv(ms: int, u: nat): (k: int)
    requires u > 0
    ensures -(u as int) <= 2 * (ms - k * u) < u
  {
    var k := (2 * ms + u) / (2 * u);
    var rem := (2 * ms + u) % (2 * u);
    assert 2 * ms + u == 2 * u * k + rem;
    k
  }

  /** The text for an integral duration: its canonical name, or the rounded count of its unit. */
  function FromMs(ms: int): string
  {
    match Canonical(ms)
    case Some(t) => t
    case None =>
      var (u, c) := UnitFor(ms);
      IntToString(RoundDiv(ms, u)) + [c]
  }

  /** `msToTf` */
  function MsToTf(a: MsArg): (r: string)
    ensures a.MsText? && IsTfText(a.s) ==> r == a.s
    ensures a.MsNaN? || a.MsOther? ==> r == "5m"
  {
    match a
    case MsText(s) =>
      if IsTfText(s) then s
      else (match ParseInt(s) case None => "5m" case Some(n) => FromMs(n))
    case MsNumber(n) => FromMs(n)
    case _ => "5m"
  }

  // ---------------------------------------------------------------------------
  // Properties

  /** A text of the form `<k><unit>`, the integer written in decimal, is `k` times the
      unit; anything between the integer and the final character is ignored, and a
      final character that is not a unit gives the five-minute default. */
  lemma TfToMsOfIntegerAndUnit(k: int, mid: string, u: char)
    requires EndsNumber(k, mid + [u])
    ensures TfToMs(TfText(IntToString(k) + mid + [u])) ==
            if IsUnit(u) then k * Multiplier(u).value else DefaultMs
  {
    var s := IntToString(k) + mid + [u];
    assert s == IntToString(k) + (mid + [u]);
    ParseIntOfIntToString(k, mid + [u]);
    assert ParseInt(s) == Some(k);
    assert s != [] && s[|s| - 1] == u;
  }

  /** The digits of a timeframe text, read in decimal. */
  lemma {:induction false} DigitsOfTfText(s: string)
    requires IsTfText(s)
    ensures ParseInt(s) == Some(DigitsValue(s[..DigitRun(s, 10)], 10))
    ensures DigitRun(s, 10) == |s| - 1
  {
    var d := s[..|s| - 1];
    assert s == d + [s[|s| - 1]];
    assert !IsDecimalDigit(s[|s| - 1]);
    DigitRunStops(d, [s[|s| - 1]], 10);
    assert IsDecimalDigit(s[0]) && s[1] != 'x' && s[1] != 'X';
    assert ParseUnsigned(s) == Some(DigitsValue(s[..DigitRun(s, 10)], 10));
    ParseIntUnsigned(s, DigitsValue(s[..DigitRun(s, 10)], 10));
  }

  /** A text accepted by `msToTf` is read by `tfToMs` as its digits times its unit. */
  lemma TfTextValue(s: string)
    requires IsTfText(s)
    ensures TfToMs(TfText(s)) == DigitsValue(s[..|s| - 1], 10) * Multiplier(s[|s| - 1]).value
  {
    DigitsOfTfText(s);
  }

  /** Each canonical name is a timeframe text whose digits times its unit give the duration. */
  lemma CanonicalNameValue(ms: int)
    requires Canonical(ms).Some?
    ensures var t := Canonical(ms).value;
      IsTfText(t) && DigitsValue(t[..|t| - 1], 10) * Multiplier(t[|t| - 1]).value == ms
  {
    match ms
    case 60000 => assert "1m"[..1] == "1";
    case 180000 => assert "3m"[..1] == "3";
    case 300000 => assert "5m"[..1] == "5";
    case 540000 => assert "9m"[..1] == "9";
    case 900000 => assert "15m"[..2] == "15";
    case 1620000 => assert "27m"[..2] == "27";
    case 1800000 => assert "30m"[..2] == "30";
    case 3600000 => assert "1h"[..1] == "1";
    case 7200000 => assert "2h"[..1] == "2";
    case 10800000 => assert "3h"[..1] == "3";
    case 14400000 => assert "4h"[..1] == "4";
    case 21600000 => assert "6h"[..1] == "6";
    case 28800000 => assert "8h"[..1] == "8";
    case 43200000 => assert "12h"[..2] == "12";
    case 86400000 => assert "1d"[..1] == "1";
    case 259200000 => assert "3d"[..1] == "3";
    case 604800000 => assert "1w"[..1] == "1";
    case 2592000000 => assert "1M"[..1] == "1";
  }

  /** Every canonical duration survives `msToTf` followed by `tfToMs`. */
  lemma CanonicalRoundTrip(ms: int)
    requires Canonical(ms).Some?
    ensures TfToMs(TfText(MsToTf(MsNumber(ms)))) == ms
  {
    var t := Canonical(ms).value;
    assert MsToTf(MsNumber(ms)) == FromMs(ms) == t;
    CanonicalNameValue(ms);
    TfTextValue(t);
  }

  /** Every canonical name survives `tfToMs` followed by `msToTf`. */
  lemma CanonicalNameRoundTrip(ms: int)
    requires Canonical(ms).Some?
    ensures MsToTf(MsNumber(TfToMs(TfText(Canonical(ms).value)))) == Canonical(ms).value
  {
    CanonicalRoundTrip(ms);
    assert MsToTf(MsNumber(ms)) == FromMs(ms);
  }

  /** A non-canonical duration is written in the unit chosen by the thresholds
      (under an hour: minutes, under a day: hours, under a week: days, under 30 days:
      weeks, otherwise months), with the nearest whole count of that unit. */
  lemma NonCanonicalUnit(ms: int)
    requires Canonical(ms).None?
    ensures var (u, c) := UnitFor(ms);
      exists k :: MsToTf(MsNumber(ms)) == IntToString(k) + [c] && -(u as int) <= 2 * (ms - k * u) < u
    ensures ms < Hour ==> UnitFor(ms).1 == 'm'
    ensures Hour <= ms < Day ==> UnitFor(ms).1 == 'h'
    ensures Day <= ms < Week ==> UnitFor(ms).1 == 'd'
    ensures Week <= ms < Month ==> UnitFor(ms).1 == 'w'
    ensures Month <= ms ==> UnitFor(ms).1 == 'M'
  {
    var (u, c) := UnitFor(ms);
    var k := RoundDiv(ms, u);
    assert MsToTf(MsNumber(ms)) == IntToString(k) + [c];
  }

  /** The text of a non-canonical duration reads back as a whole number of its unit. */
  lemma NonCanonicalReadBack(ms: int)
    requires Canonical(ms).None?
    ensures TfToMs(TfText(FromMs(ms))) == RoundDiv(ms, UnitFor(ms).0) * UnitFor(ms).0
  {
    var (u, c) := UnitFor(ms);
    var k := RoundDiv(ms, u);
    assert FromMs(ms) == IntToString(k) + [c];
    TfToMsOfIntegerAndUnit(k, [], c);
    assert IntToString(k) + [] + [c] == IntToString(k) + [c];
  }

  /** For every integral duration, reading back its text gives the duration itself when it
      is canonical, and otherwise a whole number of its unit at most half a unit away. */
  lemma MsToTfRoundTripWithinHalfUnit(ms: int)
    ensures var back := TfToMs(TfText(MsToTf(MsNumber(ms))));
      Canonical(ms).Some? ==> back == ms
    ensures var back := TfToMs(TfText(MsToTf(MsNumber(ms))));
      -(UnitFor(ms).0 as int) <= 2 * (ms - back) < UnitFor(ms).0
  {
    assert MsToTf(MsNumber(ms)) == FromMs(ms);
    if Canonical(ms).Some? {
      CanonicalRoundTrip(ms);
    } else {
      NonCanonicalReadBack(ms);
    }
  }

  /** A digit-only text is a number of milliseconds. */
  lemma DigitTextIsMilliseconds(n: nat)
    ensures MsToTf(MsText(NatToString(n))) == MsToTf(MsNumber(n))
  {
    var s := NatToString(n);
    assert IsDecimalDigit(s[|s| - 1]);
    assert !IsTfText(s);
    ParseIntOfIntToString(n, []);
    assert IntToString(n) + [] == s;
    assert ParseInt(s) == Some(n);
  }
}
