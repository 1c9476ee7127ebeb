/**
 * Activity bucket keys. An event is counted under the key `YYYY-MM-DD-HH` of the
 * local calendar hour in which it happened; the cleanup pass reads the four
 * fields back with `split("-")` and `Number`.
 */
module ActivityKey {
  import opened Wrappers
  import opened Text
  import opened Js

  /**
   * A local calendar hour as the clock reports it: `getFullYear()`,
   * `getMonth() + 1`, `getDate()` and `getHours()`.
   */
  datatype CalendarHour = CalendarHour(year: nat, month: nat, day: nat, hour: nat)

  /** The ranges a real clock reading stays within. */
  predicate Valid(c: CalendarHour) {
    1 <= c.month <= 12 && 1 <= c.day <= 31 && c.hour <= 23
  }

  /** The four rendered fields: the year unpadded, the others padded to two digits. */
  function Fields(c: CalendarHour): seq<string> {
    [Decimal(c.year), Pad2(c.month), Pad2(c.day), Pad2(c.hour)]
  }

  /** The bucket key of an hour, as the template literal builds it. */
  function FormatKey(c: CalendarHour): string {
    Decimal(c.year) + "-" + Pad2(c.month) + "-" + Pad2(c.day) + "-" + Pad2(c.hour)
  }

  /**
   * `const [y, m, d, h] = key.split("-").map(Number)`: the hour named by a key,
   * or `None` when one of the first four fields is NaN or missing (`undefined`).
   * Fields after the fourth are ignored, as destructuring ignores them.
   */
  function ParseKey(key: string): Option<CalendarHour> {
    var parts := Split(key, '-');
    if |parts| < 4 then None
    else
      match (NumberOf(parts[0]), NumberOf(parts[1]), NumberOf(parts[2]), NumberOf(parts[3]))
      case (Some(y), Some(m), Some(d), Some(h)) => Some(CalendarHour(y, m, d, h))
      case _ => None
  }

  /** The key is the four fields joined by dashes, and none of the fields holds a dash. */
  lemma FormatKeyIsJoin(c: CalendarHour)
    ensures FormatKey(c) == Join(Fields(c), '-')
    ensures forall i :: 0 <= i < 4 ==> AllDigits(Fields(c)[i]) && '-' !in Fields(c)[i]
  {
    var f := Fields(c);
    Pad2Facts(c.month);
    Pad2Facts(c.day);
    Pad2Facts(c.hour);
    assert f[3..] == [f[3]];
    assert Join(f[2..], '-') == f[2] + "-" + f[3] by {
      assert f[2..][1..] == f[3..];
    }
    assert Join(f[1..], '-') == f[1] + "-" + f[2] + "-" + f[3] by {
      assert f[1..][1..] == f[2..];
    }
  }

  /**
   * For a real clock reading the key has the fixed shape `YYYY-MM-DD-HH`: the
   * year's digits, then three dash-separated two-digit fields.
   */
  lemma FormatKeyShape(c: CalendarHour)
    requires Valid(c)
    ensures |Pad2(c.month)| == 2 && |Pad2(c.day)| == 2 && |Pad2(c.hour)| == 2
    ensures |FormatKey(c)| == |Decimal(c.year)| + 9
    ensures FormatKey(c)[..|Decimal(c.year)|] == Decimal(c.year)
    ensures var y := |Decimal(c.year)|;
      FormatKey(c)[y] == '-' && FormatKey(c)[y + 3] == '-' && FormatKey(c)[y + 6] == '-'
  {
    Pad2Facts(c.month);
    Pad2Facts(c.day);
    Pad2Facts(c.hour);
  }

  /** Reading a key back gives the hour it was built from. */
  lemma ParseFormatRoundTrip(c: CalendarHour)
    ensures ParseKey(FormatKey(c)) == Some(c)
  {
    FormatKeyIsJoin(c);
    SplitJoin(Fields(c), '-');
    DecimalRoundTrip(c.year);
    Pad2Facts(c.month);
    Pad2Facts(c.day);
    Pad2Facts(c.hour);
  }

  /** Distinct hours never share a bucket. */
  lemma FormatKeyInjective(a: CalendarHour, b: CalendarHour)
    requires FormatKey(a) == FormatKey(b)
    ensures a == b
  {
    ParseFormatRoundTrip(a);
    ParseFormatRoundTrip(b);
  }
}
