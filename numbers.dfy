/**
 * JavaScript's `Number(string)` and `String(number)` on exact decimals.
 *
 * A finite number is a `Decimal`, the value mantissa / 10^scale; NaN and the
 * infinities, which every caller here treats alike, are `NonFinite`. IEEE-754
 * rounding is not modelled: a decimal is kept exactly, and `FormatNumber`
 * prints its shortest exact decimal form.
 */
module Numbers {
  import opened Wrappers

  datatype Decimal = Decimal(mantissa: int, scale: nat)

  /** A number as `Number(...)` produces it. */
  datatype Num = Finite(d: Decimal) | NonFinite

  function Pow10(k: nat): (r: nat)
    ensures r >= 1
  {
    if k == 0 then 1 else 10 * Pow10(k - 1)
  }

  /** The real number a decimal denotes. */
  function Value(d: Decimal): real {
    d.mantissa as real / Pow10(d.scale) as real
  }

  /** The shortest representation: no trailing zero after the decimal point. */
  predicate Canonical(d: Decimal) {
    d.scale == 0 || d.mantissa % 10 != 0
  }

  /** Strips trailing fractional zeros. */
  function Normalize(d: Decimal): (r: Decimal)
    ensures Canonical(r)
    ensures Canonical(d) ==> r == d
    decreases d.scale
  {
    if d.scale > 0 && d.mantissa % 10 == 0 then Normalize(Decimal(d.mantissa / 10, d.scale - 1)) else d
  }

  lemma CancelTen(a: real, b: real)
    requires b > 0.0
    ensures (10.0 * a) / (10.0 * b) == a / b
  {
  }

  /** Stripping trailing zeros does not change the value. */
  lemma {:induction false} NormalizeValue(d: Decimal)
    ensures Value(Normalize(d)) == Value(d)
    decreases d.scale
  {
    if d.scale > 0 && d.mantissa % 10 == 0 {
      var q := d.mantissa / 10;
      assert d.mantissa as real == 10.0 * q as real;
      CancelTen(q as real, Pow10(d.scale - 1) as real);
      NormalizeValue(Decimal(q, d.scale - 1));
    }
  }

  // ---------------------------------------------------------------------------
  // Decimal digit strings

  predicate IsDigit(c: char) {
    '0' <= c <= '9'
  }

  predicate AllDigits(s: string) {
    forall i :: 0 <= i < |s| ==> IsDigit(s[i])
  }

  function DigitChar(n: nat): (c: char)
    requires n < 10
    ensures IsDigit(c)
  {
    (48 + n) as char
  }

  function DigitValue(c: char): (n: nat)
    requires IsDigit(c)
    ensures n < 10
  {
    c as int - 48
  }

  /** The natural number a string of decimal digits denotes (leading zeros allowed). */
  function DigitsToNat(s: string): nat
    requires AllDigits(s)
  {
    if s == [] then 0 else DigitsToNat(s[..|s| - 1]) * 10 + DigitValue(s[|s| - 1])
  }

  /** The digits of `n` without leading zeros ("0" for zero). */
  function NatToDigits(n: nat): (s: string)
    ensures AllDigits(s) && |s| > 0
    decreases n
  {
    if n < 10 then [DigitChar(n)] else NatToDigits(n / 10) + [DigitChar(n % 10)]
  }

  /** The last `k` digits of `n`, padded with leading zeros to exactly `k` places. */
  function FixedDigits(n: nat, k: nat): (s: string)
    ensures AllDigits(s) && |s| == k
  {
    if k == 0 then [] else FixedDigits(n / 10, k - 1) + [DigitChar(n % 10)]
  }

  lemma {:induction false} NatToDigitsRoundTrip(n: nat)
    ensures DigitsToNat(NatToDigits(n)) == n
    decreases n
  {
    if n >= 10 {
      var s := NatToDigits(n / 10) + [DigitChar(n % 10)];
      assert s[..|s| - 1] == NatToDigits(n / 10);
      NatToDigitsRoundTrip(n / 10);
    }
  }

  lemma ShiftDigit(x: nat, p: nat, y: nat, d: nat)
    ensures (x * p + y) * 10 + d == x * (10 * p) + (y * 10 + d)
  {
  }

  lemma {:induction false} DigitsToNatAppend(a: string, b: string)
    requires AllDigits(a) && AllDigits(b)
    ensures AllDigits(a + b)
    ensures DigitsToNat(a + b) == DigitsToNat(a) * Pow10(|b|) + DigitsToNat(b)
    decreases |b|
  {
    var s := a + b;
    if b == [] {
      assert s == a;
    } else {
      var b', d := b[..|b| - 1], DigitValue(b[|b| - 1]);
      assert s[..|s| - 1] == a + b';
      DigitsToNatAppend(a, b');
      assert b[..|b| - 1] == b';
      ShiftDigit(DigitsToNat(a), Pow10(|b'|), DigitsToNat(b'), d);
    }
  }

  // ---------------------------------------------------------------------------
  // String(number)

  function Magnitude(i: int): nat {
    if i < 0 then -i else i
  }

  /** The digits of `m` before its last `k`, as a number (m / 10^k). */
  function DropDigits(m: nat, k: nat): nat {
    if k == 0 then m else DropDigits(m / 10, k - 1)
  }

  /** The digits of `m` split before its last `k`: m == DropDigits(m, k) * 10^k + the last `k` digits. */
  lemma {:induction false} DropDigitsSplit(m: nat, k: nat)
    ensures m == DropDigits(m, k) * Pow10(k) + DigitsToNat(FixedDigits(m, k))
  {
    if k > 0 {
      var t := FixedDigits(m / 10, k - 1);
      var s := t + [DigitChar(m % 10)];
      assert s[..|s| - 1] == t;
      DropDigitsSplit(m / 10, k - 1);
      ShiftDigit(DropDigits(m, k), Pow10(k - 1), DigitsToNat(t), m % 10);
    }
  }

  /** The decimal text of m / 10^k: the digits of m with a `.` before the last `k` when k > 0. */
  function UnsignedText(m: nat, k: nat): (s: string)
    ensures |s| > 0 && IsDigit(s[0])
  {
    var whole := NatToDigits(DropDigits(m, k));
    if k == 0 then whole else whole + "." + FixedDigits(m, k)
  }

  /** `String(x)`: the shortest decimal text of `x`, a `-` before a negative value. */
  function FormatNumber(x: Decimal): (s: string)
    ensures |s| > 0
  {
    var c := Normalize(x);
    (if c.mantissa < 0 then "-" else "") + UnsignedText(Magnitude(c.mantissa), c.scale)
  }

  // ---------------------------------------------------------------------------
  // Number(string)

  /** The index of the first `.` in `s`, if any. */
  function FirstDot(s: string): (r: Option<nat>)
    ensures r.Some? ==> r.value < |s| && s[r.value] == '.' && '.' !in s[..r.value]
    ensures r.None? ==> '.' !in s
  {
    if s == [] then None
    else if s[0] == '.' then Some(0)
    else match FirstDot(s[1..])
      case None => None
      case Some(i) => assert s[..i + 1] == [s[0]] + s[1..][..i]; Some(i + 1)
  }

  /** An unsigned decimal literal: digits, optionally a `.` and more digits, at least one digit in all. */
  function ParseUnsigned(s: string): (r: Option<Decimal>)
    ensures r.Some? ==> r.value.mantissa >= 0
  {
    match FirstDot(s)
    case None =>
      if s != [] && AllDigits(s) then Some(Decimal(DigitsToNat(s), 0)) else None
    case Some(i) =>
      var whole, frac := s[..i], s[i + 1..];
      if AllDigits(whole) && AllDigits(frac) && |whole| + |frac| > 0 then
        DigitsToNatAppend(whole, frac);
        Some(Decimal(DigitsToNat(whole + frac), |frac|))
      else None
  }

  /**
   * `Number(s)` for a string: `""` is 0, the three spellings of Infinity are
   * not finite, a signed or unsigned decimal literal is its (canonical) value,
   * and anything else is NaN.
   */
  function ParseNumber(s: string): (r: Num)
    ensures r.Finite? ==> Canonical(r.d)
  {
    if s == "" then Finite(Decimal(0, 0))
    else if s == "Infinity" || s == "+Infinity" || s == "-Infinity" then NonFinite
    else
      var negative := s[0] == '-';
      var body := if s[0] == '-' || s[0] == '+' then s[1..] else s;
      match ParseUnsigned(body)
      case None => NonFinite
      case Some(u) => Finite(Normalize(if negative then Decimal(-u.mantissa, u.scale) else u))
  }

  // ---------------------------------------------------------------------------
  // Round trip

  lemma {:induction false} ParseUnsignedFormatted(m: nat, scale: nat)
    requires scale > 0
    ensures ParseUnsigned(UnsignedText(m, scale)) == Some(Decimal(m, scale))
  {
    var whole := NatToDigits(DropDigits(m, scale));
    var frac := FixedDigits(m, scale);
    var s := whole + "." + frac;
    assert UnsignedText(m, scale) == s;
    FirstDotAfterDigits(whole, frac);
    assert s[..|whole|] == whole;
    assert s[|whole| + 1..] == frac;
    DigitsToNatAppend(whole, frac);
    NatToDigitsRoundTrip(DropDigits(m, scale));
    DropDigitsSplit(m, scale);
  }

  lemma {:induction false} FirstDotAfterDigits(whole: string, rest: string)
    requires AllDigits(whole)
    ensures FirstDot(whole + "." + rest) == Some(|whole|)
  {
    var s := whole + "." + rest;
    if whole != [] {
      assert s[0] == whole[0];
      assert s[1..] == whole[1..] + "." + rest;
      FirstDotAfterDigits(whole[1..], rest);
    }
  }

  lemma NoDotInDigits(s: string)
    requires AllDigits(s)
    ensures '.' !in s
  {
    assert forall i :: 0 <= i < |s| ==> s[i] != '.';
  }

  lemma {:induction false} ParseUnsignedInteger(m: nat)
    ensures ParseUnsigned(NatToDigits(m)) == Some(Decimal(m, 0))
  {
    NoDotInDigits(NatToDigits(m));
    NatToDigitsRoundTrip(m);
  }

  lemma ParseUnsignedText(m: nat, k: nat)
    ensures ParseUnsigned(UnsignedText(m, k)) == Some(Decimal(m, k))
  {
    if k == 0 {
      ParseUnsignedInteger(m);
    } else {
      ParseUnsignedFormatted(m, k);
    }
  }

  lemma ParseUnsignedNumber(body: string, u: Decimal)
    requires |body| > 0 && IsDigit(body[0])
    requires ParseUnsigned(body) == Some(u)
    ensures ParseNumber(body) == Finite(Normalize(u))
  {
    assert body != "Infinity" && body != "+Infinity" && body != "-Infinity" by {
      assert "Infinity"[0] == 'I';
    }
  }

  lemma ParseNegativeNumber(body: string, u: Decimal)
    requires |body| > 0 && IsDigit(body[0])
    requires ParseUnsigned(body) == Some(u)
    ensures ParseNumber("-" + body) == Finite(Normalize(Decimal(-u.mantissa, u.scale)))
  {
    var s := "-" + body;
    assert s[0] == '-' && s[1..] == body;
    assert s != "Infinity" && s != "+Infinity" && s != "-Infinity" by {
      assert s[1] == body[0];
      assert "-Infinity"[1] == 'I';
    }
  }

  /** `Number(String(x))` gives back `x` in its canonical form. */
  lemma {:induction false} ParseFormatRoundTrip(x: Decimal)
    ensures ParseNumber(FormatNumber(x)) == Finite(Normalize(x))
  {
    var c := Normalize(x);
    var m := Magnitude(c.mantissa);
    var body := UnsignedText(m, c.scale);
    ParseUnsignedText(m, c.scale);
    if c.mantissa < 0 {
      ParseNegativeNumber(body, Decimal(m, c.scale));
      assert FormatNumber(x) == "-" + body;
      assert Decimal(-(m as int), c.scale) == c;
    } else {
      ParseUnsignedNumber(body, Decimal(m, c.scale));
      assert FormatNumber(x) == "" + body == body;
      assert Decimal(m, c.scale) == c;
    }
  }
}
