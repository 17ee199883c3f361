/** The relative-time bucketing of `formatDistanceToNow`: a millisecond
    difference `now - date` is floored into minutes, hours and days, and the
    first bucket that fits is rendered. */
module DateUtils {

  const MsPerMinute: int := 1000 * 60
  const MsPerHour: int := MsPerMinute * 60
  const MsPerDay: int := MsPerHour * 24

  /** What the formatter returns: a literal text, or the date rendered by the
      host's locale (`toLocaleDateString`), which is not modelled. */
  datatype Relative = Text(s: string) | LocaleDate

  function DigitChar(d: nat): (c: char)
    requires d < 10
    ensures '0' <= c <= '9' && c as int - '0' as int == d
  {
    "0123456789"[d]
  }

  predicate IsDecimal(s: string) {
    forall i :: 0 <= i < |s| ==> '0' <= s[i] <= '9'
  }

  /** Decimal rendering of a natural number, as a template literal prints an
      integer-valued number: no sign, no leading zero. */
  function NatToString(n: nat): (s: string)
    ensures |s| >= 1 && IsDecimal(s)
    ensures |s| > 1 ==> s[0] != '0'
    decreases n
  {
    if n < 10 then [DigitChar(n)] else NatToString(n / 10) + [DigitChar(n % 10)]
  }

  /** Reads a decimal string back; the partner of NatToString. */
  function StringToNat(s: string): nat
    requires IsDecimal(s)
    decreases |s|
  {
    if |s| == 0 then 0
    else StringToNat(s[..|s| - 1]) * 10 + (s[|s| - 1] as int - '0' as int)
  }

  lemma {:induction false} NatStringRoundTrip(n: nat)
    ensures StringToNat(NatToString(n)) == n
    decreases n
  {
    if n >= 10 {
      var s := NatToString(n);
      assert s[..|s| - 1] == NatToString(n / 10);
      NatStringRoundTrip(n / 10);
    }
  }

  /** `formatDistanceToNow` on the difference `now - date` in milliseconds. */
  function FormatDistanceToNow(diffInMilliseconds: int): (r: Relative)
    ensures r == Text("just now") <==> diffInMilliseconds < MsPerMinute
    ensures r == LocaleDate <==> 7 * MsPerDay <= diffInMilliseconds
  {
    var diffInMinutes := diffInMilliseconds / MsPerMinute;
    var diffInHours := diffInMinutes / 60;
    var diffInDays := diffInHours / 24;
    if diffInMinutes < 1 then Text("just now")
    else if diffInMinutes < 60 then
      var s := NatToString(diffInMinutes) + "m";
      assert s[|s| - 1] != "just now"[7];
      Text(s)
    else if diffInHours < 24 then
      var s := NatToString(diffInHours) + "h";
      assert s[|s| - 1] != "just now"[7];
      Text(s)
    else if diffInDays < 7 then
      var s := NatToString(diffInDays) + "d";
      assert s[|s| - 1] != "just now"[7];
      Text(s)
    else LocaleDate
  }

  /** The nested floors of the formatter collapse to single divisions: with
      positive divisors, integer division is floor division, so a floor by
      60 000 then by 60 is one floor by 3 600 000, and so on. */
  lemma NestedFloorsCollapse(diff: int)
    ensures diff / MsPerMinute / 60 == diff / MsPerHour
    ensures diff / MsPerMinute / 60 / 24 == diff / MsPerDay
  {
  }

  lemma FormatDistanceJustNow(diff: int)
    requires diff < MsPerMinute
    ensures FormatDistanceToNow(diff) == Text("just now")
  {
  }

  lemma FormatDistanceMinutes(diff: int)
    requires MsPerMinute <= diff < MsPerHour
    ensures 1 <= diff / MsPerMinute <= 59
    ensures FormatDistanceToNow(diff) == Text(NatToString(diff / MsPerMinute) + "m")
  {
  }

  lemma FormatDistanceHours(diff: int)
    requires MsPerHour <= diff < MsPerDay
    ensures 1 <= diff / MsPerHour <= 23
    ensures FormatDistanceToNow(diff) == Text(NatToString(diff / MsPerHour) + "h")
  {
    NestedFloorsCollapse(diff);
    MinutesBounds(diff);
  }

  lemma FormatDistanceDays(diff: int)
    requires MsPerDay <= diff < 7 * MsPerDay
    ensures 1 <= diff / MsPerDay <= 6
    ensures FormatDistanceToNow(diff) == Text(NatToString(diff / MsPerDay) + "d")
  {
    NestedFloorsCollapse(diff);
    MinutesBounds(diff);
  }

  lemma FormatDistanceOlder(diff: int)
    requires 7 * MsPerDay <= diff
    ensures FormatDistanceToNow(diff) == LocaleDate
  {
  }

  /** The minute count against the millisecond ranges of each bucket. */
  lemma MinutesBounds(diff: int)
    ensures diff < MsPerMinute <==> diff / MsPerMinute < 1
    ensures diff < MsPerHour <==> diff / MsPerMinute < 60
  {
  }

  /** Exactly one branch applies: the rendered unit letter (or "just now",
      or the locale date) determines the millisecond range, and back. */
  lemma FormatDistanceExactlyOneBucket(diff: int)
    ensures FormatDistanceToNow(diff) == Text("just now") <==> diff < MsPerMinute
    ensures EndsWith(FormatDistanceToNow(diff), 'm') <==> MsPerMinute <= diff < MsPerHour
    ensures EndsWith(FormatDistanceToNow(diff), 'h') <==> MsPerHour <= diff < MsPerDay
    ensures EndsWith(FormatDistanceToNow(diff), 'd') <==> MsPerDay <= diff < 7 * MsPerDay
    ensures FormatDistanceToNow(diff) == LocaleDate <==> 7 * MsPerDay <= diff
  {
    if diff < MsPerMinute {
      FormatDistanceJustNow(diff);
    } else if diff < MsPerHour {
      FormatDistanceMinutes(diff);
    } else if diff < MsPerDay {
      FormatDistanceHours(diff);
    } else if diff < 7 * MsPerDay {
      FormatDistanceDays(diff);
    } else {
      FormatDistanceOlder(diff);
    }
  }

  predicate EndsWith(r: Relative, unit: char) {
    r.Text? && |r.s| > 0 && r.s[|r.s| - 1] == unit
  }
}
