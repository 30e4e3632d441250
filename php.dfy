/**
 * The few PHP built-ins whose behaviour the plugin's decisions depend on:
 * the truthiness of a posted string, the `(int)` cast and WordPress's
 * `absint` of a posted string, and the string order `asort(..., SORT_STRING)`
 * sorts by. A 64-bit PHP build is assumed.
 */
module Php {

  /** PHP_INT_MAX and PHP_INT_MIN on a 64-bit build. */
  const MaxInt: int := 0x7FFF_FFFF_FFFF_FFFF
  const MinInt: int := -0x8000_0000_0000_0000

  /** A string is falsy in PHP exactly when it is "" or "0". */
  predicate IsTruthy(s: string)
  {
    s != "" && s != "0"
  }

  /** The whitespace a numeric string may start with. */
  predicate IsSpace(c: char)
  {
    c == ' ' || c == '\t' || c == '\n' || c == '\r' || c == '\U{000B}' || c == '\U{000C}'
  }

  predicate IsDigit(c: char)
  {
    '0' <= c <= '9'
  }

  predicate AllDigits(d: string)
  {
    forall i :: 0 <= i < |d| ==> IsDigit(d[i])
  }

  /** The string with its leading whitespace removed. */
  function SkipSpace(s: string): string
  {
    if s != [] && IsSpace(s[0]) then SkipSpace(s[1..]) else s
  }

  /** Length of the longest run of decimal digits that `s` starts with. */
  function DigitRun(s: string): (n: nat)
    ensures n <= |s| && AllDigits(s[..n])
    ensures n < |s| ==> !IsDigit(s[n])
  {
    if s == [] || !IsDigit(s[0]) then 0 else 1 + DigitRun(s[1..])
  }

  /** The number a string of decimal digits denotes, most significant digit first. */
  function DigitsValue(d: string): nat
    requires AllDigits(d)
  {
    if d == [] then 0 else 10 * DigitsValue(d[..|d| - 1]) + (d[|d| - 1] as int - '0' as int)
  }

  /** The leading signed decimal number of `t` (0 when there is none), before it is capped. */
  function LeadingNumber(t: string): int
  {
    if t != [] && (t[0] == '-' || t[0] == '+') then
      var d := t[1..][..DigitRun(t[1..])];
      var v: int := DigitsValue(d);
      if t[0] == '-' then -v else v
    else
      DigitsValue(t[..DigitRun(t)])
  }

  /**
   * 2^1024 - 2^970: the least magnitude an integer string can have for
   * `zend_strtod` to round it to an infinite double.
   */
  const DoubleOverflow: int := 0xFFFFFFFFFFFFFC00000000000000000000000000000000000000000000000000000000000000000000000000000000000000000000000000000000000000000000000000000000000000000000000000000000000000000000000000000000000000000000000000000000000000000000000000000000000000000000000000

  /**
   * A number that does not fit a PHP integer is read as a double and capped:
   * an infinite double becomes 0, any other out-of-range one the nearer bound.
   */
  function Cap(n: int): int
  {
    if n >= DoubleOverflow || n <= -DoubleOverflow then 0
    else if n > MaxInt then MaxInt
    else if n < MinInt then MinInt
    else n
  }

  /**
   * PHP's `(int) $s` for a string: leading whitespace is skipped, an optional
   * sign and the longest run of digits that follows are read, anything after
   * them is ignored, and a value beyond the 64-bit range is capped as Cap says.
   */
  function IntCast(s: string): (n: int)
    ensures MinInt <= n <= MaxInt
  {
    Cap(LeadingNumber(SkipSpace(s)))
  }

  /** WordPress's `absint( $s )`, that is `abs( (int) $s )`. */
  function AbsInt(s: string): (n: nat)
    ensures n <= -MinInt
    ensures n == 0 <==> IntCast(s) == 0
  {
    var i := IntCast(s);
    if i < 0 then -i else i
  }

  /** The character of a decimal digit. */
  function Digit(k: nat): (c: char)
    requires k < 10
    ensures IsDigit(c)
  {
    ('0' as int + k) as char
  }

  /** The decimal spelling of a natural number, as a form posts it. */
  function Decimal(n: nat): (d: string)
    ensures d != [] && AllDigits(d)
  {
    if n < 10 then [Digit(n)] else Decimal(n / 10) + [Digit(n % 10)]
  }

  lemma {:induction false} DecimalValue(n: nat)
    ensures DigitsValue(Decimal(n)) == n
  {
    if n >= 10 {
      var d := Decimal(n);
      assert d[..|d| - 1] == Decimal(n / 10);
      DecimalValue(n / 10);
    }
  }

  lemma {:induction false} DigitRunOfDigits(d: string, rest: string)
    requires AllDigits(d)
    requires rest == [] || !IsDigit(rest[0])
    ensures DigitRun(d + rest) == |d|
  {
    if d != [] {
      assert (d + rest)[1..] == d[1..] + rest;
      DigitRunOfDigits(d[1..], rest);
    }
  }

  /** The leading number of a run of digits is the number they spell. */
  lemma LeadingNumberOfDigits(d: string, rest: string)
    requires d != [] && AllDigits(d)
    requires rest == [] || !IsDigit(rest[0])
    ensures LeadingNumber(d + rest) == DigitsValue(d)
  {
    var t := d + rest;
    DigitRunOfDigits(d, rest);
    assert t[..|d|] == d;
    assert t[0] == d[0];
  }

  /** A sign in front of a run of digits gives that number its sign. */
  lemma LeadingNumberOfSigned(sign: char, d: string, rest: string)
    requires sign == '+' || sign == '-'
    requires d != [] && AllDigits(d)
    requires rest == [] || !IsDigit(rest[0])
    ensures LeadingNumber([sign] + d + rest) == if sign == '-' then -(DigitsValue(d) as int) else DigitsValue(d)
  {
    var t := [sign] + d + rest;
    DigitRunOfDigits(d, rest);
    assert t[1..] == d + rest;
    assert t[1..][..|d|] == d;
  }

  /** Casting a run of digits spelling `n`, followed by a non-digit or nothing. */
  lemma IntCastOfDigits(d: string, n: nat, rest: string)
    requires d != [] && AllDigits(d) && DigitsValue(d) == n
    requires rest == [] || !IsDigit(rest[0])
    ensures IntCast(d + rest) == Cap(n)
  {
    assert (d + rest)[0] == d[0];
    LeadingNumberOfDigits(d, rest);
  }

  /** The same with a sign in front. */
  lemma IntCastOfSignedDigits(sign: char, d: string, n: nat, rest: string)
    requires sign == '+' || sign == '-'
    requires d != [] && AllDigits(d) && DigitsValue(d) == n
    requires rest == [] || !IsDigit(rest[0])
    ensures IntCast([sign] + d + rest) == Cap(if sign == '-' then -(n as int) else n)
  {
    var t := [sign] + d + rest;
    assert SkipSpace(t) == t;
    LeadingNumberOfSigned(sign, d, rest);
  }

  /**
   * Casting a posted decimal number, with or without a sign and followed by
   * anything that is not a digit, gives that number when it fits; beyond
   * the 64-bit range it gives the nearer bound, and 0 once the number is too
   * large even for a double.
   */
  lemma IntCastOfDecimal(n: nat, rest: string)
    requires rest == [] || !IsDigit(rest[0])
    ensures IntCast(Decimal(n) + rest) == if n <= MaxInt then n else if n < DoubleOverflow then MaxInt else 0
    ensures IntCast("+" + Decimal(n) + rest) == IntCast(Decimal(n) + rest)
    ensures IntCast("-" + Decimal(n) + rest) == if n <= -MinInt then -(n as int) else if n < DoubleOverflow then MinInt else 0
  {
    DecimalValue(n);
    IntCastOfDigits(Decimal(n), n, rest);
    IntCastOfSignedDigits('+', Decimal(n), n, rest);
    IntCastOfSignedDigits('-', Decimal(n), n, rest);
  }

  lemma {:induction false} SkipSpaceOfSpace(w: string, s: string)
    requires forall i :: 0 <= i < |w| ==> IsSpace(w[i])
    ensures SkipSpace(w + s) == SkipSpace(s)
  {
    if w == [] {
      assert w + s == s;
    } else {
      assert (w + s)[0] == w[0];
      assert (w + s)[1..] == w[1..] + s;
      SkipSpaceOfSpace(w[1..], s);
    }
  }

  /** Leading whitespace never changes what a string casts to. */
  lemma IntCastSkipsLeadingSpace(w: string, s: string)
    requires forall i :: 0 <= i < |w| ==> IsSpace(w[i])
    ensures IntCast(w + s) == IntCast(s)
    ensures AbsInt(w + s) == AbsInt(s)
  {
    SkipSpaceOfSpace(w, s);
  }

  /**
   * `strcmp(a, b) <= 0`: byte-wise comparison of PHP strings. On Unicode
   * scalar values this order coincides with the byte order of their UTF-8
   * encodings.
   */
  predicate StrLe(a: string, b: string)
  {
    a == [] || (b != [] && (a[0] < b[0] || (a[0] == b[0] && StrLe(a[1..], b[1..]))))
  }

  /** `a` and `b` first differ at an index where `a` is smaller. */
  ghost predicate DiffersBelow(a: string, b: string)
  {
    exists k :: 0 <= k < |a| && k < |b| && a[..k] == b[..k] && a[k] < b[k]
  }

  /** StrLe is the lexicographic order: a prefix, or smaller at the first difference. */
  lemma {:induction false} StrLeIsLexicographic(a: string, b: string)
    ensures StrLe(a, b) <==> a <= b || DiffersBelow(a, b)
  {
    if a == [] || b == [] {
    } else if a[0] < b[0] {
      assert a[..0] == b[..0];
    } else if a[0] > b[0] {
      forall k | 0 < k <= |a| && k <= |b|
        ensures a[..k] != b[..k]
      {
        assert a[..k][0] != b[..k][0];
      }
    } else {
      StrLeIsLexicographic(a[1..], b[1..]);
      assert a <= b <==> a[1..] <= b[1..];
      if DiffersBelow(a[1..], b[1..]) {
        var k :| 0 <= k < |a[1..]| && k < |b[1..]| && a[1..][..k] == b[1..][..k] && a[1..][k] < b[1..][k];
        assert a[..k + 1] == [a[0]] + a[1..][..k];
        assert b[..k + 1] == [b[0]] + b[1..][..k];
        assert a[k + 1] < b[k + 1];
      }
      if DiffersBelow(a, b) {
        var k :| 0 <= k < |a| && k < |b| && a[..k] == b[..k] && a[k] < b[k];
        assert k > 0;
        assert a[1..][..k - 1] == a[..k][1..];
        assert b[1..][..k - 1] == b[..k][1..];
        assert a[1..][k - 1] < b[1..][k - 1];
      }
    }
  }

  lemma {:induction false} StrLeTotal(a: string, b: string)
    ensures StrLe(a, b) || StrLe(b, a)
  {
    if a != [] && b != [] && a[0] == b[0] {
      StrLeTotal(a[1..], b[1..]);
    }
  }

  lemma {:induction false} StrLeTransitive(a: string, b: string, c: string)
    requires StrLe(a, b) && StrLe(b, c)
    ensures StrLe(a, c)
  {
    if a != [] && a[0] == b[0] && b[0] == c[0] {
      StrLeTransitive(a[1..], b[1..], c[1..]);
    }
  }

  lemma {:induction false} StrLeAntisymmetric(a: string, b: string)
    requires StrLe(a, b) && StrLe(b, a)
    ensures a == b
  {
    if a != [] && b != [] {
      StrLeAntisymmetric(a[1..], b[1..]);
      assert a == [a[0]] + a[1..] && b == [b[0]] + b[1..];
    }
  }
}
