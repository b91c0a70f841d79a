/**
 * The small part of the Java platform that the monitor's text assembly relies on:
 * exceptions as values, `long` arithmetic with truncating division, decimal
 * rendering of integers (`String.valueOf`, `%s` of a `long`), `String.join`,
 * a `StringBuilder`, and `System.lineSeparator()`.
 */
module JavaLang {

  datatype Option<T> = None | Some(value: T)

  /** The two exception classes the core throws or catches. */
  datatype Exception =
    | IllegalArgumentException(message: string)
      /** `description` is what `e.toString()` yields for the I/O failure. */
    | IOException(description: string)

  /** A Java call either returns a value or throws. */
  datatype Result<T> = Ok(value: T) | Threw(exception: Exception)

  const MinLong: int := -0x8000_0000_0000_0000
  const MaxLong: int := 0x7FFF_FFFF_FFFF_FFFF

  predicate IsLong(x: int) {
    MinLong <= x <= MaxLong
  }

  type NonEmptyString = s: string | |s| > 0 witness "\n"

  /**
   * `System.lineSeparator()`: fixed for the run of the program and never empty;
   * its actual characters are platform-defined and left open.
   */
  const LineSeparator: NonEmptyString

  predicate StartsWith(s: string, prefix: string) {
    |prefix| <= |s| && s[..|prefix|] == prefix
  }

  predicate EndsWith(s: string, suffix: string) {
    |suffix| <= |s| && s[|s| - |suffix|..] == suffix
  }

  // ---------------------------------------------------------------------------
  // Integer division as Java defines it (truncation toward zero)
  // ---------------------------------------------------------------------------

  /**
   * Java's `a / b` for a positive divisor: the quotient truncated toward zero, that is the
   * multiple of `b` next to `a` on the side of zero.
   */
  function JavaDiv(a: int, b: int): (q: int)
    requires b > 0
    ensures a >= 0 ==> 0 <= q && q * b <= a < q * b + b
    ensures a < 0 ==> q <= 0 && q * b - b < a <= q * b
  {
    var n := if a >= 0 then a else -a;
    assert n == (n / b) * b + n % b && 0 <= n % b < b;
    if a >= 0 then n / b else -(n / b)
  }

  /** Java's `a % b` for a positive divisor: the remainder takes the sign of `a`. */
  function JavaRem(a: int, b: int): (r: int)
    requires b > 0
    ensures JavaDiv(a, b) * b + r == a
    ensures a >= 0 ==> 0 <= r < b && r == a % b
    ensures a < 0 ==> -b < r <= 0
  {
    a - JavaDiv(a, b) * b
  }

  // ---------------------------------------------------------------------------
  // Decimal rendering of integers
  // ---------------------------------------------------------------------------

  predicate IsDigit(c: char) {
    '0' <= c <= '9'
  }

  function DigitChar(d: int): (c: char)
    requires 0 <= d < 10
    ensures IsDigit(c) && c as int - '0' as int == d
  {
    ('0' as int + d) as char
  }

  /** The decimal digits of `n`, most significant first, without leading zeros. */
  function NatToString(n: nat): (s: string)
    ensures |s| >= 1
    ensures forall i :: 0 <= i < |s| ==> IsDigit(s[i])
    ensures |s| > 1 ==> s[0] != '0'
  {
    if n < 10 then [DigitChar(n)] else NatToString(n / 10) + [DigitChar(n % 10)]
  }

  /** The number a string of decimal digits denotes. */
  function DigitsValue(s: string): (v: nat)
    requires forall i :: 0 <= i < |s| ==> IsDigit(s[i])
  {
    if s == [] then 0
    else
      assert IsDigit(s[|s| - 1]);
      DigitsValue(s[..|s| - 1]) * 10 + (s[|s| - 1] as int - '0' as int)
  }

  /** Reading back the digits written by NatToString gives the number again. */
  lemma {:induction false} NatToStringRoundTrip(n: nat)
    ensures DigitsValue(NatToString(n)) == n
  {
    var s := NatToString(n);
    if n >= 10 {
      NatToStringRoundTrip(n / 10);
      assert s[..|s| - 1] == NatToString(n / 10);
    }
  }

  /** A non-empty run of decimal digits with no superfluous leading zero. */
  predicate CanonicalDigits(d: string) {
    |d| >= 1 && (forall i :: 0 <= i < |d| ==> IsDigit(d[i])) && (|d| > 1 ==> d[0] != '0')
  }

  /** The characters after an optional leading minus sign. */
  function Magnitude(s: string): string {
    if |s| > 0 && s[0] == '-' then s[1..] else s
  }

  /** `Long.toString` / `%s` of an integral value: a minus sign exactly when the value is negative. */
  function LongToString(n: int): (s: string)
    ensures |s| >= 1
    ensures s[0] == '-' <==> n < 0
  {
    if n < 0 then "-" + NatToString(-n) else NatToString(n)
  }

  /**
   * After the optional minus sign, `Long.toString` writes a canonical run of decimal digits
   * that denotes the absolute value of the number.
   */
  lemma LongToStringDenotes(n: int)
    ensures CanonicalDigits(Magnitude(LongToString(n)))
    ensures DigitsValue(Magnitude(LongToString(n))) == if n < 0 then -n else n
  {
    if n < 0 {
      var digits := NatToString(-n);
      assert ("-" + digits)[1..] == digits;
      NatToStringRoundTrip(-n);
    } else {
      NatToStringRoundTrip(n);
    }
  }

  /** Two different integers never render to the same text. */
  lemma LongToStringInjective(a: int, b: int)
    requires LongToString(a) == LongToString(b)
    ensures a == b
  {
    LongToStringDenotes(a);
    LongToStringDenotes(b);
    var s := LongToString(a);
    assert a < 0 <==> b < 0 by {
      assert s[0] == '-' <==> a < 0;
      assert s[0] == '-' <==> b < 0;
    }
  }

  // ---------------------------------------------------------------------------
  // String.join
  // ---------------------------------------------------------------------------

  /** `String.join(sep, parts)`: the parts in order with `sep` between neighbours. */
  function Join(parts: seq<string>, sep: string): (r: string)
    ensures parts == [] ==> r == ""
    ensures |parts| == 1 ==> r == parts[0]
  {
    if |parts| <= 1 then (if parts == [] then "" else parts[0])
    else Join(parts[..|parts| - 1], sep) + sep + parts[|parts| - 1]
  }

  function TotalLength(parts: seq<string>): nat {
    if parts == [] then 0 else TotalLength(parts[..|parts| - 1]) + |parts[|parts| - 1]|
  }

  /** n parts are held together by exactly n - 1 separators and nothing else. */
  lemma {:induction false} JoinLength(parts: seq<string>, sep: string)
    requires |parts| >= 1
    ensures |Join(parts, sep)| == TotalLength(parts) + (|parts| - 1) * |sep|
  {
    var n := |parts|;
    if n > 1 {
      var init := parts[..n - 1];
      JoinLength(init, sep);
      assert |Join(parts, sep)| == |Join(init, sep)| + |sep| + |parts[n - 1]|;
      assert TotalLength(parts) == TotalLength(init) + |parts[n - 1]|;
      assert (n - 1) * |sep| == (n - 2) * |sep| + |sep|;
    } else {
      assert parts[..0] == [];
      assert TotalLength(parts) == |parts[0]|;
    }
  }

  /** Joining two non-empty lists is joining each and separating the results once. */
  lemma {:induction false} JoinConcat(a: seq<string>, b: seq<string>, sep: string)
    requires a != [] && b != []
    ensures Join(a + b, sep) == Join(a, sep) + sep + Join(b, sep)
    decreases |b|
  {
    var ab := a + b;
    if |b| == 1 {
      assert ab[..|ab| - 1] == a;
    } else {
      var b' := b[..|b| - 1];
      assert ab[..|ab| - 1] == a + b';
      JoinConcat(a, b', sep);
    }
  }

  // ---------------------------------------------------------------------------
  // StringBuilder
  // ---------------------------------------------------------------------------

  /** `java.lang.StringBuilder`: a character sequence that grows by appends. */
  class StrBuilder {
    var contents: string

    constructor ()
      ensures contents == ""
    {
      contents := "";
    }

    method Append(s: string)
      modifies this
      ensures contents == old(contents) + s
    {
      contents := contents + s;
    }

    function ToString(): string
      reads this
    {
      contents
    }
  }
}
