/**
 * Decimal text as Python's `str.format` writes it into the wrapper's commands,
 * `'{:d}'` for integers and `'{:.2f}'` / `'{:.3f}'` for reals, and the parsers that
 * read it back: `int()` of a reply, and a fixed-point reader used to state what
 * value a rendered command carries.
 */
module Decimal {
  import opened Results
  import opened PyText

  predicate IsDigit(c: char) { '0' <= c <= '9' }

  predicate AllDigits(s: string) { forall i :: 0 <= i < |s| ==> IsDigit(s[i]) }

  function DigitChar(d: nat): (c: char)
    requires d < 10
    ensures IsDigit(c) && c as int - '0' as int == d
  {
    ('0' as int + d) as char
  }

  function DigitValue(c: char): (d: nat)
    requires IsDigit(c)
    ensures d < 10 && DigitChar(d) == c
  {
    c as int - '0' as int
  }

  function Pow10(k: nat): (r: nat)
    ensures r >= 1
  {
    if k == 0 then 1 else 10 * Pow10(k - 1)
  }

  /** The decimal digits of `n`, most significant first, with no leading zero: Python's `'{:d}'` of a non-negative int. */
  function NatDigits(n: nat): (s: string)
    ensures |s| >= 1 && AllDigits(s)
    ensures s[0] == '0' ==> n == 0
    decreases n
  {
    if n < 10 then [DigitChar(n)] else NatDigits(n / 10) + [DigitChar(n % 10)]
  }

  /** The number a string of decimal digits denotes; leading zeros add nothing. */
  function DigitsValue(s: string): (v: nat)
    requires AllDigits(s)
    ensures v < Pow10(|s|)
  {
    if s == [] then 0 else DigitsValue(s[..|s| - 1]) * 10 + DigitValue(s[|s| - 1])
  }

  /** `k` zero digits. */
  function Zeros(k: nat): (z: string)
    ensures |z| == k && AllDigits(z)
  {
    if k == 0 then [] else Zeros(k - 1) + ['0']
  }

  /** `s` padded on the left with zeros to at least `width` characters. */
  function PadLeft(s: string, width: nat): (r: string)
    requires AllDigits(s)
    ensures AllDigits(r)
    ensures |r| == if |s| >= width then |s| else width
  {
    if |s| >= width then s else Zeros(width - |s|) + s
  }

  lemma {:induction false} NatDigitsValue(n: nat)
    ensures DigitsValue(NatDigits(n)) == n
    decreases n
  {
    if n >= 10 {
      var s := NatDigits(n);
      assert s[..|s| - 1] == NatDigits(n / 10);
      NatDigitsValue(n / 10);
    }
  }

  /** Two runs of digits side by side are a run of digits. */
  lemma DigitsConcat(a: string, b: string)
    requires AllDigits(a) && AllDigits(b)
    ensures AllDigits(a + b)
  {
    forall i | 0 <= i < |a + b| ensures IsDigit((a + b)[i]) {
      if i >= |a| { assert (a + b)[i] == b[i - |a|]; }
    }
  }

  /** The value of `a + b` with a non-empty `b` is that of `a` followed by all but the last digit of `b`, shifted, plus that last digit. */
  lemma ConcatLast(a: string, b: string)
    requires AllDigits(a) && AllDigits(b) && |b| >= 1
    ensures AllDigits(a + b[..|b| - 1])
    ensures AllDigits(a + b) && DigitsValue(a + b) == DigitsValue(a + b[..|b| - 1]) * 10 + DigitValue(b[|b| - 1])
  {
    var b', c := b[..|b| - 1], b[|b| - 1];
    DigitsConcat(a, b');
    AppendLast(a, b);
    ValueSnoc(a + b', c);
  }

  /** `a + b` is `a` plus all of `b` but its last character, then that character. */
  lemma AppendLast(a: string, b: string)
    requires |b| >= 1
    ensures a + b == (a + b[..|b| - 1]) + [b[|b| - 1]]
  {
    var l, r := a + b, (a + b[..|b| - 1]) + [b[|b| - 1]];
    assert |l| == |r|;
    forall i | 0 <= i < |l| ensures l[i] == r[i] {
      if i < |a| {
      } else if i < |l| - 1 {
        assert l[i] == b[i - |a|] == b[..|b| - 1][i - |a|];
      }
    }
  }

  /** Appending a digit multiplies the value by ten and adds the digit. */
  lemma ValueSnoc(t: string, c: char)
    requires AllDigits(t) && IsDigit(c)
    ensures AllDigits(t + [c]) && DigitsValue(t + [c]) == DigitsValue(t) * 10 + DigitValue(c)
  {
    var s := t + [c];
    assert s[..|s| - 1] == t;
  }

  /** Appending digits shifts the value of the prefix by a power of ten. */
  lemma {:induction false} DigitsValueConcat(a: string, b: string)
    requires AllDigits(a) && AllDigits(b)
    ensures AllDigits(a + b)
    ensures DigitsValue(a + b) == DigitsValue(a) * Pow10(|b|) + DigitsValue(b)
    decreases |b|
  {
    DigitsConcat(a, b);
    if b == [] {
      assert a + b == a;
    } else {
      var b' := b[..|b| - 1];
      var d := DigitValue(b[|b| - 1]);
      ConcatLast(a, b);
      DigitsValueConcat(a, b');
      var va, vb', p' := DigitsValue(a), DigitsValue(b'), Pow10(|b'|);
      assert DigitsValue(b) == vb' * 10 + d;
      assert Pow10(|b|) == p' * 10;
      Shift(va, p', vb', d);
    }
  }

  /** The regrouping of one decimal shift, kept apart so that its nonlinear terms stay out of the induction. */
  lemma Shift(va: int, p: int, vb: int, d: int)
    ensures (va * p + vb) * 10 + d == va * (p * 10) + (vb * 10 + d)
  {
  }

  lemma {:induction false} ZerosValue(k: nat)
    ensures DigitsValue(Zeros(k)) == 0
  {
    if k > 0 {
      assert Zeros(k)[..k - 1] == Zeros(k - 1);
      ZerosValue(k - 1);
    }
  }

  /** Padding with zeros keeps the value. */
  lemma PadLeftValue(s: string, width: nat)
    requires AllDigits(s)
    ensures DigitsValue(PadLeft(s, width)) == DigitsValue(s)
  {
    if |s| < width {
      var z := Zeros(width - |s|);
      ZerosValue(width - |s|);
      DigitsValueConcat(z, s);
      assert DigitsValue(z + s) == 0 * Pow10(|s|) + DigitsValue(s);
    }
  }

  // ---------------------------------------------------------------------------
  // Integers: '{:d}'.format(i) and int(reply)

  /** Python's `'{:d}'.format(i)`: a minus sign for negative values, then the digits of `|i|`. */
  function IntDecimal(i: int): (s: string)
    ensures |s| >= 1 && IsDigit(s[|s| - 1])
    ensures s[0] == '-' <==> i < 0
    ensures i >= 0 ==> AllDigits(s)
    ensures forall k :: 0 < k < |s| ==> IsDigit(s[k])
  {
    if i < 0 then "-" + NatDigits(-i) else NatDigits(i)
  }

  /** A canonical integer literal: an optional sign and at least one digit. */
  function DecimalInt(s: string): Option<int>
  {
    if |s| >= 2 && s[0] == '-' && AllDigits(s[1..]) then Some(-(DigitsValue(s[1..]) as int))
    else if |s| >= 2 && s[0] == '+' && AllDigits(s[1..]) then Some(DigitsValue(s[1..]))
    else if |s| >= 1 && AllDigits(s) then Some(DigitsValue(s))
    else None
  }

  /** The ASCII characters Python's `str.strip()` removes. */
  const Whitespace: set<char> := {' ', '\t', '\n', '\r', '\U{B}', '\U{C}', '\U{1C}', '\U{1D}', '\U{1E}', '\U{1F}'}

  /** Python's `int(reply)`: surrounding whitespace is ignored; `None` where `int` raises ValueError. */
  function ParseInt(s: string): Option<int>
  {
    DecimalInt(Strip(s, Whitespace))
  }

  /** Reading back what `'{:d}'` wrote gives the integer. */
  lemma IntDecimalValue(i: int)
    ensures DecimalInt(IntDecimal(i)) == Some(i)
  {
    var s := IntDecimal(i);
    if i < 0 {
      var t := NatDigits(-i);
      assert s == "-" + t;
      assert s[1..] == t;
      NatDigitsValue(-i);
      assert DecimalInt(s) == Some(-(DigitsValue(t) as int));
    } else {
      NatDigitsValue(i);
      assert s[0] != '-' && s[0] != '+';
    }
  }

  /** `int('{:d}'.format(i)) == i`, also with a space in front (as after a `", "` separator). */
  lemma IntDecimalRoundTrip(i: int)
    ensures ParseInt(IntDecimal(i)) == Some(i)
    ensures ParseInt(" " + IntDecimal(i)) == Some(i)
  {
    var s := IntDecimal(i);
    assert s[0] !in Whitespace && s[|s| - 1] !in Whitespace;
    StripUnchanged(s, Whitespace);
    StripLeading(' ', s, Whitespace);
    assert " " + s == [' '] + s;
    IntDecimalValue(i);
  }

  /** `int()` ignores whitespace around the digits, such as the line end the instrument puts after a reply. */
  lemma ParseIntPadded(i: int, pre: string, post: string)
    requires forall k :: 0 <= k < |pre| ==> pre[k] in Whitespace
    requires forall k :: 0 <= k < |post| ==> post[k] in Whitespace
    ensures ParseInt(pre + IntDecimal(i) + post) == Some(i)
  {
    var s := IntDecimal(i);
    assert s[0] !in Whitespace && s[|s| - 1] !in Whitespace;
    StripAround(pre, s, post, Whitespace);
    IntDecimalValue(i);
  }

  // ---------------------------------------------------------------------------
  // Reals: '{:.Nf}'.format(x)

  /**
   * The integer nearest to `q`, ties to the even neighbour: the digits Python's
   * `'{:.Nf}'` formatting keeps for the exact value it is given.
   */
  function RoundHalfEven(q: real): (n: int)
    ensures q - 0.5 <= n as real <= q + 0.5
    ensures (n as real == q - 0.5 || n as real == q + 0.5) ==> n % 2 == 0
  {
    var f := q.Floor;
    var d := q - f as real;
    if d < 0.5 then f else if d > 0.5 then f + 1 else if f % 2 == 0 then f else f + 1
  }

  /** The number `units` × 10^-`places`, as a fixed-point literal spells it. */
  datatype FixedPoint = FixedPoint(units: int, places: nat)

  /** `x` rounded to `places` decimal places, ties to even. */
  /** A whole number is its own rounding. */
  lemma RoundWhole(n: int)
    ensures RoundHalfEven(n as real) == n
  {
  }


  function Rounded(x: real, places: nat): (r: FixedPoint)
    ensures r.places == places
    ensures x * Pow10(places) as real - 0.5 <= r.units as real <= x * Pow10(places) as real + 0.5
  {
    FixedPoint(RoundHalfEven(x * Pow10(places) as real), places)
  }

  /** The digits of `m` with a decimal point in front of the last `places` of them (at least one digit before it). */
  function PointDigits(m: nat, places: nat): string
  {
    var d := PadLeft(NatDigits(m), places + 1);
    if places == 0 then d else d[..|d| - places] + "." + d[|d| - places..]
  }

  /** Python's `'{:.Nf}'.format(x)` with N = `places`: a sign for negative `x`, then `x` rounded to `places` places. */
  function Fixed(x: real, places: nat): (s: string)
    ensures |s| >= 1 && (s[0] == '-' <==> x < 0.0)
  {
    var n := Rounded(x, places).units;
    var m := if n < 0 then -n else n;
    PointDigitsValue(m, places);
    (if x < 0.0 then "-" else "") + PointDigits(m, places)
  }

  /** `'{:.Nf}'` writes only digits and a point, after a minus sign for negative values. */
  lemma FixedChars(x: real, places: nat)
    ensures var s := Fixed(x, places);
      |s| >= 1 && forall k :: 0 <= k < |s| ==> IsDigit(s[k]) || s[k] == '.' || (k == 0 && s[k] == '-')
  {
  }

  /** Reads an unsigned fixed-point literal: digits, optionally a point and more digits. */
  function UnsignedFixedValue(s: string): Option<FixedPoint>
  {
    var k := IndexOf(s, '.');
    if k == |s| then
      if |s| >= 1 && AllDigits(s) then Some(FixedPoint(DigitsValue(s), 0)) else None
    else if 1 <= k && k + 1 < |s| && AllDigits(s[..k] + s[k + 1..]) then
      Some(FixedPoint(DigitsValue(s[..k] + s[k + 1..]), |s| - k - 1))
    else None
  }

  /** Reads a fixed-point literal with an optional leading minus sign. */
  function FixedValue(s: string): Option<FixedPoint>
  {
    if |s| >= 1 && s[0] == '-' then
      match UnsignedFixedValue(s[1..])
      case Some(v) => Some(FixedPoint(-v.units, v.places))
      case None => None
    else UnsignedFixedValue(s)
  }

  /** A literal with a point reads as the digits on both sides, scaled by the number after the point. */
  lemma UnsignedFixedWithPoint(a: string, b: string)
    requires |a| >= 1 && |b| >= 1 && AllDigits(a) && AllDigits(b)
    ensures AllDigits(a + b)
    ensures UnsignedFixedValue(a + "." + b) == Some(FixedPoint(DigitsValue(a + b), |b|))
  {
    var s := a + "." + b;
    assert forall j :: 0 <= j < |a| ==> s[j] == a[j] && IsDigit(a[j]);
    IndexOfFirst(s, '.', |a|);
    assert s[..|a|] == a && s[|a| + 1..] == b;
    DigitsValueConcat(a, b);
  }

  /** A literal without a point reads as its digits. */
  lemma UnsignedFixedWithoutPoint(d: string)
    requires |d| >= 1 && AllDigits(d)
    ensures UnsignedFixedValue(d) == Some(FixedPoint(DigitsValue(d), 0))
  {
    var k := IndexOf(d, '.');
    assert k < |d| ==> IsDigit(d[k]);
  }

  /** A run of at least `places + 1` digits with a point before its last `places` reads as its value at that scale. */
  lemma PointAt(d: string, places: nat)
    requires places >= 1 && |d| >= places + 1 && AllDigits(d)
    ensures UnsignedFixedValue(d[..|d| - places] + "." + d[|d| - places..]) == Some(FixedPoint(DigitsValue(d), places))
  {
    DigitSlices(d, |d| - places);
    assert d[..|d| - places] + d[|d| - places..] == d;
    PointSplit(d, d[..|d| - places], d[|d| - places..], places);
  }

  /** A run of digits cut in two non-empty pieces, with a point at the cut, reads as its value scaled by the second piece's length. */
  lemma PointSplit(d: string, a: string, b: string, places: nat)
    requires d == a + b && |a| >= 1 && |b| == places >= 1 && AllDigits(a) && AllDigits(b)
    ensures UnsignedFixedValue(a + "." + b) == Some(FixedPoint(DigitsValue(d), places))
  {
    UnsignedFixedWithPoint(a, b);
  }

  /** Both sides of a cut through a run of digits are runs of digits. */
  lemma DigitSlices(d: string, k: nat)
    requires k <= |d| && AllDigits(d)
    ensures AllDigits(d[..k]) && AllDigits(d[k..])
  {
    assert forall i :: 0 <= i < |d| - k ==> d[k..][i] == d[k + i];
  }

  lemma PointDigitsValue(m: nat, places: nat)
    ensures |PointDigits(m, places)| >= 1 && IsDigit(PointDigits(m, places)[0])
    ensures UnsignedFixedValue(PointDigits(m, places)) == Some(FixedPoint(m, places))
  {
    var d := PadLeft(NatDigits(m), places + 1);
    assert DigitsValue(d) == m by {
      NatDigitsValue(m);
      PadLeftValue(NatDigits(m), places + 1);
    }
    if places == 0 {
      UnsignedFixedWithoutPoint(d);
    } else {
      PointAt(d, places);
    }
  }

  /** Rounding keeps the sign: a negative value never rounds to a positive integer, nor the reverse. */
  lemma RoundedSign(x: real, places: nat)
    ensures x < 0.0 ==> Rounded(x, places).units <= 0
    ensures x >= 0.0 ==> Rounded(x, places).units >= 0
  {
    var p := Pow10(places) as real;
    assert p >= 1.0;
    if x < 0.0 {
      assert x * p <= x;
    } else {
      assert x * p >= 0.0;
    }
  }

  /** The text `'{:.Nf}'` writes reads back as `x` rounded to N places. */
  lemma FixedRoundTrip(x: real, places: nat)
    ensures FixedValue(Fixed(x, places)) == Some(Rounded(x, places))
  {
    RoundedSign(x, places);
    var n := Rounded(x, places).units;
    var m := if n < 0 then -n else n;
    PointDigitsValue(m, places);
    if x < 0.0 {
      NegativeFixedValue(x, places, m);
    } else {
      assert Fixed(x, places) == PointDigits(m, places);
    }
  }

  /** For a negative `x`, `'{:.Nf}'` writes a minus sign and then the digits of the magnitude of the rounding. */
  lemma NegativeFixedSpelling(x: real, places: nat, m: nat)
    requires x < 0.0 && Rounded(x, places).units == -(m as int)
    ensures Fixed(x, places) == "-" + PointDigits(m, places)
  {
    var n := Rounded(x, places).units;
    assert (if n < 0 then -n else n) == m by {
      if n < 0 {
        assert -n == m;
      } else {
        assert n == 0 && m == 0;
      }
    }
  }

  /** A minus sign in front of an unsigned literal negates what it reads as. */
  lemma NegatedValue(u: string, m: nat, places: nat)
    requires UnsignedFixedValue(u) == Some(FixedPoint(m, places))
    ensures FixedValue("-" + u) == Some(FixedPoint(-(m as int), places))
  {
    assert ("-" + u)[1..] == u;
  }

  lemma NegativeFixedValue(x: real, places: nat, m: nat)
    requires x < 0.0 && Rounded(x, places).units == -(m as int)
    requires UnsignedFixedValue(PointDigits(m, places)) == Some(FixedPoint(m, places))
    ensures FixedValue(Fixed(x, places)) == Some(Rounded(x, places))
  {
    NegativeFixedSpelling(x, places, m);
    NegatedValue(PointDigits(m, places), m, places);
  }
}
