/**
 * Character classes, substring search, case folding and the number <-> text
 * conversions that the Python code relies on (`in` on strings, `str.lower`,
 * `hex`, `str(int)`, `int(str)`, `float(str)`, `strftime` padding, `\s`, `\b`).
 */
module Text {
  import opened Wrappers

  // ---------------------------------------------------------------------------
  // Character classes
  // ---------------------------------------------------------------------------

  /** The characters Python's `str.isspace` (and so the regex class `\s`) accepts. */
  predicate IsSpace(c: char)
  {
    || c == ' ' || ('\t' <= c <= '\r') || ('\U{1C}' <= c <= '\U{1F}')
    || c == '\U{85}' || c == '\U{A0}' || c == '\U{1680}' || ('\U{2000}' <= c <= '\U{200A}')
    || c == '\U{2028}' || c == '\U{2029}' || c == '\U{202F}' || c == '\U{205F}' || c == '\U{3000}'
  }

  predicate IsDigit(c: char)
  {
    '0' <= c <= '9'
  }

  predicate IsAsciiLetter(c: char)
  {
    ('a' <= c <= 'z') || ('A' <= c <= 'Z')
  }

  /** Word characters for the regex anchor `\b` (ASCII letters, digits and `_`). */
  predicate IsWordChar(c: char)
  {
    IsAsciiLetter(c) || IsDigit(c) || c == '_'
  }

  predicate AllDigits(s: string)
  {
    forall i :: 0 <= i < |s| ==> IsDigit(s[i])
  }

  // ---------------------------------------------------------------------------
  // Substring search: Python's `needle in hay`
  // ---------------------------------------------------------------------------

  /** `needle` occurs in `hay` starting at index `i`. */
  predicate OccursAt(hay: string, needle: string, i: nat)
  {
    i + |needle| <= |hay| && hay[i..i + |needle|] == needle
  }

  /** Python's `needle in hay`: the empty string occurs everywhere. */
  function Contains(hay: string, needle: string): (r: bool)
    ensures r <==> exists i: nat :: OccursAt(hay, needle, i)
    decreases |hay|
  {
    if |needle| > |hay| then
      assert forall i: nat :: !OccursAt(hay, needle, i);
      false
    else if hay[..|needle|] == needle then
      assert OccursAt(hay, needle, 0);
      true
    else
      var rest := Contains(hay[1..], needle);
      assert rest ==> exists i: nat :: OccursAt(hay, needle, i) by {
        if rest {
          var j: nat :| OccursAt(hay[1..], needle, j);
          assert hay[1..][j..j + |needle|] == hay[j + 1..j + 1 + |needle|];
          assert OccursAt(hay, needle, j + 1);
        }
      }
      assert (exists i: nat :: OccursAt(hay, needle, i)) ==> rest by {
        if exists i: nat :: OccursAt(hay, needle, i) {
          var i: nat :| OccursAt(hay, needle, i);
          assert i != 0;
          assert hay[1..][i - 1..i - 1 + |needle|] == hay[i..i + |needle|];
          assert OccursAt(hay[1..], needle, i - 1);
        }
      }
      rest
  }

  /** A string contains each of its own substrings. */
  lemma ContainsSlice(hay: string, i: nat, j: nat)
    requires i <= j <= |hay|
    ensures Contains(hay, hay[i..j])
  {
    assert OccursAt(hay, hay[i..j], i);
  }

  // ---------------------------------------------------------------------------
  // Case folding (ASCII)
  // ---------------------------------------------------------------------------

  function LowerChar(c: char): char
  {
    if 'A' <= c <= 'Z' then (c as int - 'A' as int + 'a' as int) as char else c
  }

  /** `str.lower` on ASCII letters; every other character is kept. */
  function Lower(s: string): (r: string)
    ensures |r| == |s|
    ensures forall i :: 0 <= i < |s| ==> r[i] == LowerChar(s[i])
  {
    seq(|s|, i requires 0 <= i < |s| => LowerChar(s[i]))
  }

  /** Lower-casing both sides keeps an occurrence: the keyword check is case-insensitive. */
  lemma ContainsLower(hay: string, needle: string)
    requires Contains(hay, needle)
    ensures Contains(Lower(hay), Lower(needle))
  {
    var i: nat :| OccursAt(hay, needle, i);
    assert Lower(hay)[i..i + |needle|] == Lower(needle) by {
      forall k | 0 <= k < |needle|
        ensures Lower(hay)[i..i + |needle|][k] == Lower(needle)[k]
      {
        assert hay[i + k] == needle[k];
      }
    }
    assert OccursAt(Lower(hay), Lower(needle), i);
  }

  /** Lower-casing twice is lower-casing once. */
  lemma LowerIdempotent(s: string)
    ensures Lower(Lower(s)) == Lower(s)
  {
    assert forall i :: 0 <= i < |s| ==> LowerChar(LowerChar(s[i])) == LowerChar(s[i]);
  }

  // ---------------------------------------------------------------------------
  // Trimming
  // ---------------------------------------------------------------------------

  /** `s.strip()` as `int()` and `float()` apply it. */
  function Trim(s: string): (r: string)
    ensures |r| <= |s|
    ensures r != [] ==> !IsSpace(r[0]) && !IsSpace(r[|r| - 1])
    decreases |s|
  {
    if s == [] then s
    else if IsSpace(s[0]) then Trim(s[1..])
    else if IsSpace(s[|s| - 1]) then Trim(s[..|s| - 1])
    else s
  }

  lemma TrimUnchanged(s: string)
    requires s != [] ==> !IsSpace(s[0]) && !IsSpace(s[|s| - 1])
    ensures Trim(s) == s
  {
  }

  // ---------------------------------------------------------------------------
  // Digits in base 10 and 16
  // ---------------------------------------------------------------------------

  function DigitChar(d: nat): (c: char)
    requires d < 16
  {
    "0123456789abcdef"[d]
  }

  /** The value of a digit character in `base`, if it is one. */
  function DigitValue(c: char, base: nat): (r: Option<nat>)
    ensures r.Some? ==> r.value < base
  {
    var v: int :=
      if '0' <= c <= '9' then c as int - '0' as int
      else if 'a' <= c <= 'f' then c as int - 'a' as int + 10
      else if 'A' <= c <= 'F' then c as int - 'A' as int + 10
      else 16;
    if v < base then Some(v) else None
  }

  lemma DigitCharValue(d: nat, base: nat)
    requires 2 <= base <= 16 && d < base
    ensures DigitValue(DigitChar(d), base) == Some(d)
  {
    var digits := "0123456789abcdef";
    assert digits[d] == DigitChar(d);
  }

  /** The digits of `n` in `base`, most significant first, without leading zeros. */
  function NatToBase(n: nat, base: nat): (r: string)
    requires 2 <= base <= 16
    ensures |r| >= 1
    decreases n
  {
    if n < base then [DigitChar(n)] else NatToBase(n / base, base) + [DigitChar(n % base)]
  }

  /** The value of a string of `base` digits (the empty string has value 0). */
  function DigitsValue(s: string, base: nat): (r: Option<nat>)
    decreases |s|
  {
    if s == [] then Some(0)
    else
      match (DigitsValue(s[..|s| - 1], base), DigitValue(s[|s| - 1], base))
      case (Some(hi), Some(lo)) => Some(hi * base + lo)
      case _ => None
  }

  /** Appending one digit multiplies the value by the base and adds the digit. */
  lemma DigitsValueSnoc(hi: string, d: nat, base: nat)
    requires 2 <= base <= 16 && d < base
    ensures DigitsValue(hi + [DigitChar(d)], base) ==
      match DigitsValue(hi, base) case Some(h) => Some(h * base + d) case None => None
  {
    var s := hi + [DigitChar(d)];
    assert s[..|s| - 1] == hi;
    DigitCharValue(d, base);
  }

  lemma DivMod(n: nat, base: nat)
    requires base > 0
    ensures (n / base) * base + n % base == n
  {
  }

  /** Reading the digits of `n` back gives `n`. */
  lemma {:induction false} DigitsValueOfNatToBase(n: nat, base: nat)
    requires 2 <= base <= 16
    ensures DigitsValue(NatToBase(n, base), base) == Some(n)
    decreases n
  {
    if n < base {
      DigitsValueSnoc([], n, base);
      assert [] + [DigitChar(n)] == NatToBase(n, base);
    } else {
      DigitsValueOfNatToBase(n / base, base);
      DigitsValueStep(n, base, n / base, n % base);
    }
  }

  lemma DigitsValueStep(n: nat, base: nat, q: nat, lo: nat)
    requires 2 <= base <= 16 && n >= base && q == n / base && lo == n % base
    requires DigitsValue(NatToBase(q, base), base) == Some(q)
    ensures DigitsValue(NatToBase(n, base), base) == Some(n)
  {
    assert NatToBase(n, base) == NatToBase(q, base) + [DigitChar(lo)];
    DigitsValueSnoc(NatToBase(q, base), lo, base);
    DivMod(n, base);
  }

  lemma NatToBaseDigits(n: nat)
    ensures AllDigits(NatToBase(n, 10))
    decreases n
  {
    if n >= 10 {
      NatToBaseDigits(n / 10);
    }
  }

  /** How many zeros `Pad` puts in front of the digits of `n`. */
  function PadCount(n: nat, width: nat): nat
  {
    if |NatToBase(n, 10)| < width then width - |NatToBase(n, 10)| else 0
  }

  /** Zero-padded decimal of at least `width` digits, as `%02d` or strftime's `%m` print it. */
  function Pad(n: nat, width: nat): (r: string)
  {
    var d := NatToBase(n, 10);
    seq(PadCount(n, width), _ => '0') + d
  }

  /** Leading zeros do not change the value of a digit string. */
  lemma {:induction false} DigitsValueLeadingZeros(k: nat, s: string)
    ensures DigitsValue(seq(k, _ => '0') + s, 10) == DigitsValue(s, 10)
    decreases |s|
  {
    var z := seq(k, _ => '0');
    if s == [] {
      assert z + s == z;
      ZerosValue(k);
    } else {
      var init := s[..|s| - 1];
      assert (z + s)[..|z + s| - 1] == z + init;
      DigitsValueLeadingZeros(k, init);
    }
  }

  lemma {:induction false} ZerosValue(k: nat)
    ensures DigitsValue(seq(k, _ => '0'), 10) == Some(0)
  {
    if k > 0 {
      var z := seq(k, _ => '0');
      assert z[..k - 1] == seq(k - 1, _ => '0');
      ZerosValue(k - 1);
    }
  }

  /** A padded number reads back as itself. */
  lemma PadValue(n: nat, width: nat)
    ensures DigitsValue(Pad(n, width), 10) == Some(n)
  {
    DigitsValueLeadingZeros(PadCount(n, width), NatToBase(n, 10));
    DigitsValueOfNatToBase(n, 10);
  }

  // ---------------------------------------------------------------------------
  // str(int), hex(int), int(str), float(str)
  // ---------------------------------------------------------------------------

  /** Python's `str(i)` for an integer. */
  function IntToString(i: int): (r: string)
    ensures r != [] && r[0] != '+' && !IsSpace(r[0]) && !IsSpace(r[|r| - 1])
  {
    NatToBaseDigits(if i < 0 then -i else i);
    if i < 0 then "-" + NatToBase(-i, 10) else NatToBase(i, 10)
  }

  /** Python's `hex(n)` for a non-negative integer: `0x` and lower-case digits. */
  function Hex(n: nat): (r: string)
    ensures |r| >= 3 && r[..2] == "0x"
  {
    "0x" + NatToBase(n, 16)
  }

  /** The digits after `0x` read back, in base 16, as the number. */
  lemma HexValue(n: nat)
    ensures DigitsValue(Hex(n)[2..], 16) == Some(n)
  {
    DigitsValueOfNatToBase(n, 16);
    assert Hex(n)[2..] == NatToBase(n, 16);
  }

  /** Splits an optional leading sign; `neg` tells whether it was `-`. */
  function SplitSign(s: string): (r: (bool, string))
    ensures |r.1| <= |s|
  {
    if s != [] && (s[0] == '-' || s[0] == '+') then (s[0] == '-', s[1..]) else (false, s)
  }

  /**
   * Python's `int(s)` for a string: surrounding whitespace, an optional sign, then
   * one or more decimal digits. `None` stands for the `ValueError` it raises.
   */
  function ParseInt(s: string): (r: Option<int>)
  {
    var (neg, body) := SplitSign(Trim(s));
    if body == [] || !AllDigits(body) then None
    else
      match DigitsValue(body, 10)
      case Some(v) => var i: int := if neg then -(v as int) else v; Some(i)
      case None => None
  }

  lemma AllDigitsValue(s: string)
    requires AllDigits(s)
    ensures DigitsValue(s, 10).Some?
    decreases |s|
  {
    if s != [] {
      AllDigitsValue(s[..|s| - 1]);
    }
  }

  /** `int(str(i)) == i`. */
  lemma ParseIntOfIntToString(i: int)
    ensures ParseInt(IntToString(i)) == Some(i)
  {
    var t := IntToString(i);
    TrimUnchanged(t);
    var n: nat := if i < 0 then -i else i;
    NatToBaseDigits(n);
    DigitsValueOfNatToBase(n, 10);
    if i < 0 {
      assert ("-" + NatToBase(n, 10))[1..] == NatToBase(n, 10);
    } else {
      assert NatToBase(n, 10)[0] != '-' && NatToBase(n, 10)[0] != '+';
    }
  }

  function Pow10(n: nat): (r: nat)
    ensures r >= 1
  {
    if n == 0 then 1 else 10 * Pow10(n - 1)
  }

  /** `m * 10^e`, one factor of ten at a time. */
  function ScaleUp(m: real, e: nat): real
  {
    if e == 0 then m else 10.0 * ScaleUp(m, e - 1)
  }

  /** `m / 10^e`, one factor of ten at a time. */
  function ScaleDown(m: real, e: nat): real
  {
    if e == 0 then m else ScaleDown(m, e - 1) / 10.0
  }

  /** The index of the first `e` or `E`, if any. */
  function ExponentMark(s: string): (r: Option<nat>)
    ensures r.Some? ==> r.value < |s| && (s[r.value] == 'e' || s[r.value] == 'E')
    ensures r.Some? ==> forall j :: 0 <= j < r.value ==> s[j] != 'e' && s[j] != 'E'
    ensures r.None? ==> forall j :: 0 <= j < |s| ==> s[j] != 'e' && s[j] != 'E'
    decreases |s|
  {
    if s == [] then None
    else if s[0] == 'e' || s[0] == 'E' then Some(0)
    else match ExponentMark(s[1..])
      case Some(k) => Some(k + 1)
      case None => None
  }

  /** The index of the first `.`, if any. */
  function DotMark(s: string): (r: Option<nat>)
    ensures r.Some? ==> r.value < |s| && s[r.value] == '.'
    ensures r.None? ==> forall j :: 0 <= j < |s| ==> s[j] != '.'
    decreases |s|
  {
    if s == [] then None
    else if s[0] == '.' then Some(0)
    else match DotMark(s[1..])
      case Some(k) => Some(k + 1)
      case None => None
  }

  /** A decimal mantissa: digits with at most one `.`, and at least one digit. */
  function ParseMantissa(m: string): (r: Option<real>)
  {
    match DotMark(m)
    case None =>
      if m != [] && AllDigits(m) then
        match DigitsValue(m, 10)
        case Some(v) => Some(v as real)
        case None => None
      else None
    case Some(k) =>
      var whole, frac := m[..k], m[k + 1..];
      if (whole == [] && frac == []) || !AllDigits(whole) || !AllDigits(frac) then None
      else
        match (DigitsValue(whole, 10), DigitsValue(frac, 10))
        case (Some(w), Some(f)) => Some(w as real + ScaleDown(f as real, |frac|))
        case _ => None
  }

  /**
   * Python's `float(s)` for a string in decimal notation: surrounding whitespace, an
   * optional sign, a mantissa and an optional exponent `e`/`E` with an optional sign.
   * `None` stands for the `ValueError` it raises.
   */
  function ParseFloat(s: string): (r: Option<real>)
  {
    var (neg, body) := SplitSign(Trim(s));
    var (mant, exp) :=
      match ExponentMark(body)
      case None => (body, None)
      case Some(k) => (body[..k], Some(body[k + 1..]));
    match ParseMantissa(mant)
    case None => None
    case Some(m) =>
      var scaled: Option<real> :=
        match exp
        case None => Some(m)
        case Some(e) =>
          var (eneg, edigits) := SplitSign(e);
          if edigits == [] || !AllDigits(edigits) then None
          else
            match DigitsValue(edigits, 10)
            case Some(x) => Some(if eneg then ScaleDown(m, x) else ScaleUp(m, x))
            case None => None;
      match scaled
      case None => None
      case Some(v) => Some(if neg then -v else v)
  }

  lemma NoMarksInDigits(s: string)
    requires AllDigits(s)
    ensures ExponentMark(s).None? && DotMark(s).None?
    decreases |s|
  {
    if s != [] {
      NoMarksInDigits(s[1..]);
    }
  }

  /** `float(str(i)) == i` for every integer. */
  lemma ParseFloatOfIntToString(i: int)
    ensures ParseFloat(IntToString(i)) == Some(i as real)
  {
    var t := IntToString(i);
    TrimUnchanged(t);
    var n: nat := if i < 0 then -i else i;
    var d := NatToBase(n, 10);
    NatToBaseDigits(n);
    DigitsValueOfNatToBase(n, 10);
    NoMarksInDigits(d);
    if i < 0 {
      assert ("-" + d)[1..] == d;
    } else {
      assert d[0] != '-' && d[0] != '+';
    }
  }

  /** Python's `int(x)` of a float: truncation toward zero. */
  function Trunc(x: real): (r: int)
    ensures x >= 0.0 ==> r as real <= x < r as real + 1.0
    ensures x < 0.0 ==> r as real - 1.0 < x <= r as real
  {
    if x >= 0.0 then x.Floor else -((-x).Floor)
  }
}
