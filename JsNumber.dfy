/** `parseInt(string)` with no radix argument, and `Number.isInteger` applied
    to its result, as the search validator combines them.

    The result is `Some(v)` for a finite integer `v` and `None` for `NaN`. A
    negative zero (`parseInt("-0")`) is the integer 0 here; `Number.isInteger`
    holds of both zeros. */
module JsNumber {
  import opened Wrappers
  import opened JsString

  predicate IsDecimalDigit(c: char)
  {
    '0' <= c <= '9'
  }

  predicate IsHexDigit(c: char)
  {
    IsDecimalDigit(c) || 'a' <= c <= 'f' || 'A' <= c <= 'F'
  }

  /** Whether `c` is a digit of `radix` (10 or 16). */
  predicate IsDigitOf(c: char, radix: nat)
  {
    if radix == 16 then IsHexDigit(c) else IsDecimalDigit(c)
  }

  function DigitValue(c: char): (d: nat)
    requires IsHexDigit(c)
    ensures d < 16
    ensures IsDecimalDigit(c) <==> d < 10
  {
    if IsDecimalDigit(c) then c as int - '0' as int
    else if 'a' <= c <= 'f' then c as int - 'a' as int + 10
    else c as int - 'A' as int + 10
  }

  predicate AllDigitsOf(z: string, radix: nat)
  {
    forall k :: 0 <= k < |z| ==> IsDigitOf(z[k], radix)
  }

  /** The longest prefix of `s` made of digits of `radix`: where `parseInt`
      stops reading. */
  function DigitRun(s: string, radix: nat): (z: string)
    ensures |z| <= |s| && z == s[..|z|]
    ensures AllDigitsOf(z, radix)
    ensures |z| < |s| ==> !IsDigitOf(s[|z|], radix)
  {
    if s != [] && IsDigitOf(s[0], radix) then
      var z := DigitRun(s[1..], radix);
      assert forall k :: 1 <= k < |z| + 1 ==> ([s[0]] + z)[k] == z[k - 1];
      [s[0]] + z
    else
      []
  }

  /** The value of a numeral in `radix`, most significant digit first. */
  function NumeralValue(z: string, radix: nat): (v: nat)
    requires radix == 10 || radix == 16
    requires AllDigitsOf(z, radix)
  {
    if z == [] then 0
    else NumeralValue(z[..|z| - 1], radix) * radix + DigitValue(z[|z| - 1])
  }

  /** `parseInt(s)`: skip leading whitespace, read an optional sign, then an
      unsigned integer; no digit at all gives `NaN`. Trailing text is
      ignored. */
  function ParseInt(s: string): (r: Option<int>)
    ensures r.Some? <==> StartsWithInteger(s[LeadingWhitespace(s)..])
  {
    ParseSigned(s[LeadingWhitespace(s)..])
  }

  /** An optional `+` or `-` (only `-` negates), then the unsigned part. */
  function ParseSigned(t: string): (r: Option<int>)
    ensures r.Some? <==> StartsWithInteger(t)
  {
    var sign := if t != [] && t[0] == '-' then -1 else 1;
    match ParseUnsigned(Unsigned(t))
    case None => None
    case Some(v) => Some(sign * v)
  }

  /** The text after its sign, if it has one. */
  function Unsigned(t: string): string
  {
    if t != [] && (t[0] == '+' || t[0] == '-') then t[1..] else t
  }

  /** The unsigned part: a `0x`/`0X` prefix switches to base 16, otherwise
      base 10; then the longest run of digits of that base. */
  function ParseUnsigned(u: string): (r: Option<nat>)
    ensures r.Some? <==> StartsWithUnsigned(u)
  {
    var hex := HasHexPrefix(u);
    var radix := if hex then 16 else 10;
    var z := DigitRun(if hex then u[2..] else u, radix);
    if z == [] then None else Some(NumeralValue(z, radix))
  }

  predicate HasHexPrefix(u: string)
  {
    |u| >= 2 && u[0] == '0' && (u[1] == 'x' || u[1] == 'X')
  }

  /** The text begins with an unsigned integer: `0x` or `0X` followed by a
      hexadecimal digit, or else a decimal digit. A `0x` with no hexadecimal
      digit after it is not an integer, although `0` is. */
  predicate StartsWithUnsigned(u: string)
  {
    if HasHexPrefix(u) then |u| >= 3 && IsHexDigit(u[2])
    else u != [] && IsDecimalDigit(u[0])
  }

  /** The text begins with an integer: an optional sign, then an unsigned
      integer. */
  predicate StartsWithInteger(t: string)
  {
    StartsWithUnsigned(Unsigned(t))
  }

  /** `StartsWithUnsigned` never looks past a whitespace character. */
  lemma StartsWithUnsignedPadded(u: string, w: string)
    requires AllWhitespace(w)
    ensures StartsWithUnsigned(u + w) == StartsWithUnsigned(u)
  {
    var p := u + w;
    if |u| >= 3 {
      assert p[0] == u[0] && p[1] == u[1] && p[2] == u[2];
    } else if |u| == 2 {
      assert p[0] == u[0] && p[1] == u[1];
      assert |p| >= 3 ==> IsWhitespace(p[2]);
    } else if |u| == 1 {
      assert p[0] == u[0];
      assert |p| >= 2 ==> IsWhitespace(p[1]);
    } else {
      assert p == w;
      assert p != [] ==> IsWhitespace(p[0]);
    }
  }

  /** Nor does `StartsWithInteger`, so the whitespace that `trim` removes at
      the end does not change its answer. */
  lemma StartsWithIntegerPadded(r: string, w: string)
    requires AllWhitespace(w)
    ensures StartsWithInteger(r + w) == StartsWithInteger(r)
  {
    if r == [] {
      assert r + w == w;
      assert Unsigned(w) == w by {
        assert w != [] ==> IsWhitespace(w[0]);
      }
      StartsWithUnsignedPadded([], w);
    } else {
      assert (r + w)[0] == r[0];
      assert Unsigned(r + w) == Unsigned(r) + w;
      StartsWithUnsignedPadded(Unsigned(r), w);
    }
  }

  lemma TrimKeepsStart(s: string)
    ensures StartsWithInteger(Trim(s)) == StartsWithInteger(s[LeadingWhitespace(s)..])
  {
    var t := s[LeadingWhitespace(s)..];
    var r := Trim(s);
    assert t == r + t[|r|..];
    StartsWithIntegerPadded(r, t[|r|..]);
  }

  /** `Number.isInteger(parseInt(s))`, leaving out the overflow to `Infinity`
      of numerals beyond the range of a double. */
  predicate IsIntegerParse(s: string)
  {
    ParseInt(s).Some?
  }

  // Decimal numerals, to state what `parseInt` reads back.

  function DigitChar(d: nat): (c: char)
    requires d < 10
    ensures IsDecimalDigit(c) && DigitValue(c) == d
  {
    ('0' as int + d) as char
  }

  /** The decimal numeral of `n`, without leading zeros. */
  function Numeral(n: nat): (z: string)
    ensures z != [] && AllDigitsOf(z, 10)
    ensures |z| > 1 ==> z[0] != '0'
  {
    if n < 10 then [DigitChar(n)] else Numeral(n / 10) + [DigitChar(n % 10)]
  }

  /** `String(n)` for an integer `n`. */
  function Decimal(n: int): string
  {
    if n < 0 then "-" + Numeral(-n) else Numeral(n)
  }

  lemma {:induction false} NumeralValueOfNumeral(n: nat)
    ensures NumeralValue(Numeral(n), 10) == n
  {
    if n >= 10 {
      var z := Numeral(n);
      assert z[..|z| - 1] == Numeral(n / 10);
      NumeralValueOfNumeral(n / 10);
    }
  }

  /** A run of digits followed by something that is not a digit is read up to
      that point. */
  lemma {:induction false} DigitRunStopsAt(z: string, rest: string, radix: nat)
    requires AllDigitsOf(z, radix)
    requires rest == [] || !IsDigitOf(rest[0], radix)
    ensures DigitRun(z + rest, radix) == z
  {
    if z != [] {
      assert (z + rest)[1..] == z[1..] + rest;
      DigitRunStopsAt(z[1..], rest, radix);
    }
  }

  /** The unsigned reader gives back `m` from its numeral, followed by text
      that does not continue it. */
  lemma {:induction false} ParseUnsignedOfNumeral(m: nat, rest: string)
    requires rest == [] || !IsDecimalDigit(rest[0])
    requires m == 0 && rest != [] ==> rest[0] != 'x' && rest[0] != 'X'
    ensures ParseUnsigned(Numeral(m) + rest) == Some(m)
  {
    var z := Numeral(m);
    var u := z + rest;
    // Only the numeral "0" starts with a zero, and `rest` does not supply an
    // `x` after it.
    assert !HasHexPrefix(u);
    DigitRunStopsAt(z, rest, 10);
    NumeralValueOfNumeral(m);
  }

  /** A leading `-` negates what the unsigned part reads. */
  lemma ParseSignedNegative(u: string)
    ensures ParseSigned("-" + u) == if ParseUnsigned(u).Some? then Some(-(ParseUnsigned(u).value as int)) else None
  {
    assert ("-" + u)[0] == '-' && ("-" + u)[1..] == u;
  }

  /** Text that starts with a digit has no sign to read. */
  lemma ParseSignedUnsigned(u: string)
    requires u != [] && IsDecimalDigit(u[0])
    ensures ParseSigned(u) == if ParseUnsigned(u).Some? then Some(ParseUnsigned(u).value as int) else None
  {
  }

  /** With its sign, the numeral of every integer `n` reads back as `n`. */
  lemma {:induction false} ParseSignedOfDecimal(n: int, rest: string)
    requires rest == [] || !IsDecimalDigit(rest[0])
    requires n == 0 && rest != [] ==> rest[0] != 'x' && rest[0] != 'X'
    ensures ParseSigned(Decimal(n) + rest) == Some(n)
  {
    var m := if n < 0 then -n else n;
    var u := Numeral(m) + rest;
    ParseUnsignedOfNumeral(m, rest);
    if n < 0 {
      assert Decimal(n) + rest == "-" + u;
      ParseSignedNegative(u);
    } else {
      assert Decimal(n) + rest == u;
      ParseSignedUnsigned(u);
    }
  }

  /** `parseInt` reads back the decimal numeral of every integer, whatever text
      follows it, as long as that text does not continue the numeral: it must
      not start with a digit, nor, after a lone `0`, with `x` or `X`. */
  lemma {:induction false} ParseIntOfDecimal(n: int, rest: string)
    requires rest == [] || !IsDecimalDigit(rest[0])
    requires n == 0 && rest != [] ==> rest[0] != 'x' && rest[0] != 'X'
    ensures ParseInt(Decimal(n) + rest) == Some(n)
  {
    var s := Decimal(n) + rest;
    assert LeadingWhitespace(s) == 0 by {
      assert s[0] == Decimal(n)[0];
    }
    assert s[0..] == s;
    ParseSignedOfDecimal(n, rest);
  }
}
