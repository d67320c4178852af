/**
 * Wall-clock readings and the `strftime`/`isoformat` renderings the evaluation code
 * prints them with. The clock itself (`datetime.now()`) is never read here: every
 * operation that needs the time takes a `DateTime` parameter.
 */
module Clock {
  import opened Text

  datatype DateTime = DateTime(year: nat, month: nat, day: nat,
                               hour: nat, minute: nat, second: nat, microsecond: nat)

  /** The ranges Python's `datetime` enforces (four-digit years only). */
  predicate Valid(t: DateTime)
  {
    && 1000 <= t.year <= 9999 && 1 <= t.month <= 12 && 1 <= t.day <= 31
    && t.hour < 24 && t.minute < 60 && t.second < 60 && t.microsecond < 1000000
  }

  /** `t.strftime("%Y%m%d_%H%M%S")`, the dataset-name timestamp. */
  function Compact(t: DateTime): string
  {
    Pad(t.year, 4) + Pad(t.month, 2) + Pad(t.day, 2) + "_"
      + Pad(t.hour, 2) + Pad(t.minute, 2) + Pad(t.second, 2)
  }

  /** `t.strftime("%Y-%m-%d")`. */
  function Date(t: DateTime): string
  {
    Pad(t.year, 4) + "-" + Pad(t.month, 2) + "-" + Pad(t.day, 2)
  }

  /** `t.strftime("%Y-%m-%d %H:%M:%S")`, as the time tool prints it. */
  function Display(t: DateTime): string
  {
    Date(t) + " " + Pad(t.hour, 2) + ":" + Pad(t.minute, 2) + ":" + Pad(t.second, 2)
  }

  /** `t.isoformat()`: the microseconds are printed only when they are not zero. */
  function IsoFormat(t: DateTime): string
  {
    Date(t) + "T" + Pad(t.hour, 2) + ":" + Pad(t.minute, 2) + ":" + Pad(t.second, 2)
      + (if t.microsecond == 0 then "" else "." + Pad(t.microsecond, 6))
  }

  lemma {:induction false} NatToBaseLength(n: nat, w: nat)
    requires w >= 1 && n < Pow10(w)
    ensures |NatToBase(n, 10)| <= w
    decreases n
  {
    if n >= 10 {
      assert w >= 2;
      assert n / 10 < Pow10(w - 1);
      NatToBaseLength(n / 10, w - 1);
    }
  }

  /** A field below `10^w` is printed in exactly `w` characters. */
  lemma PadLength(n: nat, w: nat)
    requires w >= 1 && n < Pow10(w)
    ensures |Pad(n, w)| == w
  {
    NatToBaseLength(n, w);
  }

  lemma {:induction false} FieldLengths(t: DateTime)
    requires Valid(t)
    ensures |Pad(t.year, 4)| == 4 && |Pad(t.month, 2)| == 2 && |Pad(t.day, 2)| == 2
    ensures |Pad(t.hour, 2)| == 2 && |Pad(t.minute, 2)| == 2 && |Pad(t.second, 2)| == 2
  {
    assert Pow10(2) == 100 && Pow10(4) == 10000;
    PadLength(t.year, 4);
    PadLength(t.month, 2);
    PadLength(t.day, 2);
    PadLength(t.hour, 2);
    PadLength(t.minute, 2);
    PadLength(t.second, 2);
  }

  /** The compact stamp always has 15 characters, with `_` between date and time. */
  lemma CompactShape(t: DateTime)
    requires Valid(t)
    ensures |Compact(t)| == 15 && Compact(t)[8] == '_'
  {
    FieldLengths(t);
  }

  /** The display form always has 19 characters, `YYYY-MM-DD HH:MM:SS`. */
  lemma DisplayShape(t: DateTime)
    requires Valid(t)
    ensures |Display(t)| == 19
    ensures Display(t)[4] == '-' && Display(t)[7] == '-' && Display(t)[10] == ' '
    ensures Display(t)[13] == ':' && Display(t)[16] == ':'
  {
    FieldLengths(t);
  }

  /** Two readings with the same compact stamp agree to the second. */
  lemma CompactInjective(a: DateTime, b: DateTime)
    requires Valid(a) && Valid(b) && Compact(a) == Compact(b)
    ensures a.year == b.year && a.month == b.month && a.day == b.day
    ensures a.hour == b.hour && a.minute == b.minute && a.second == b.second
  {
    FieldLengths(a);
    FieldLengths(b);
    var s := Compact(a);
    assert s[0..4] == Pad(a.year, 4) && Compact(b)[0..4] == Pad(b.year, 4);
    assert s[4..6] == Pad(a.month, 2) && Compact(b)[4..6] == Pad(b.month, 2);
    assert s[6..8] == Pad(a.day, 2) && Compact(b)[6..8] == Pad(b.day, 2);
    assert s[9..11] == Pad(a.hour, 2) && Compact(b)[9..11] == Pad(b.hour, 2);
    assert s[11..13] == Pad(a.minute, 2) && Compact(b)[11..13] == Pad(b.minute, 2);
    assert s[13..15] == Pad(a.second, 2) && Compact(b)[13..15] == Pad(b.second, 2);
    PadValue(a.year, 4); PadValue(b.year, 4);
    PadValue(a.month, 2); PadValue(b.month, 2);
    PadValue(a.day, 2); PadValue(b.day, 2);
    PadValue(a.hour, 2); PadValue(b.hour, 2);
    PadValue(a.minute, 2); PadValue(b.minute, 2);
    PadValue(a.second, 2); PadValue(b.second, 2);
  }
}
