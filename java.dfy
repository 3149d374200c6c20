/**
 * The few pieces of Java semantics the core depends on, written out because
 * Dafny's integers are unbounded and its `/` is Euclidean.
 */
module Java {
  import opened Wrappers

  const TwoTo32: int := 0x1_0000_0000
  const IntMin: int := -0x8000_0000
  const IntMax: int := 0x7fff_ffff

  /** A value of Java's 32-bit `int` (and of a non-null `Integer`). */
  predicate IsInt(x: int) {
    IntMin <= x <= IntMax
  }

  /**
   * Narrowing to `int`, as `JsonNumber.intValue()` does for an integral number:
   * only the low-order 32 bits are kept, read as two's complement.
   */
  function WrapInt(x: int): (r: int)
    ensures IsInt(r)
    ensures (r - x) % TwoTo32 == 0
    ensures IsInt(x) ==> r == x
  {
    var low := x % TwoTo32;
    if low <= IntMax then low else low - TwoTo32
  }

  /** Values that agree modulo 2^32 narrow to the same `int`: 32-bit arithmetic may wrap at any step. */
  lemma WrapIntCongruent(x: int, y: int)
    requires (x - y) % TwoTo32 == 0
    ensures WrapInt(x) == WrapInt(y)
  {
    var k := (x - y) / TwoTo32;
    assert x - y == TwoTo32 * k;
    assert x % TwoTo32 == y % TwoTo32;
  }

  /** One step of a 31-polynomial hash keeps two values congruent modulo 2^32. */
  lemma CongruentTimes31(a: int, b: int, c: int)
    requires (a - b) % TwoTo32 == 0
    ensures ((31 * a + c) - (31 * b + c)) % TwoTo32 == 0
  {
    var k := (a - b) / TwoTo32;
    assert a - b == TwoTo32 * k;
    assert (31 * a + c) - (31 * b + c) == TwoTo32 * (31 * k);
  }

  /** Java's integer `/`, which truncates toward zero (divisor positive). */
  function TruncDiv(a: int, b: int): (q: int)
    requires b > 0
    ensures a >= 0 ==> q * b <= a < q * b + b
    ensures a < 0 ==> q * b - b < a <= q * b
  {
    if a >= 0 then a / b else -((-a) / b)
  }

  /** Java `status / 100 == 2` holds for exactly the 2xx statuses. */
  lemma TruncDivByHundredIsTwo(status: int)
    ensures TruncDiv(status, 100) == 2 <==> 200 <= status <= 299
  {
    var q := TruncDiv(status, 100);
    if status < 0 {
      assert q * 100 - 100 < status < 0;
      assert q < 1;
    } else if 200 <= status <= 299 {
      assert q * 100 <= status < q * 100 + 100;
      assert 1 < q < 3;
    }
  }

  // ---------------------------------------------------------------------------
  // Characters and strings

  predicate IsAsciiLower(c: char) {
    'a' <= c <= 'z'
  }

  /** `Character.toUpperCase` restricted to the ASCII letters. */
  function UpperChar(c: char): (u: char)
    ensures !IsAsciiLower(u)
    ensures IsAsciiLower(c) ==> u as int == c as int - 32
    ensures !IsAsciiLower(c) ==> u == c
  {
    if IsAsciiLower(c) then (c as int - 32) as char else c
  }

  /** `String.toUpperCase()` on ASCII letters; every other character is kept. */
  function ToUpperCase(s: string): (r: string)
    ensures |r| == |s|
    ensures forall i :: 0 <= i < |r| ==> !IsAsciiLower(r[i])
    ensures forall i :: 0 <= i < |s| && !IsAsciiLower(s[i]) ==> r[i] == s[i]
    ensures forall i :: 0 <= i < |s| && IsAsciiLower(s[i]) ==> r[i] as int == s[i] as int - 32
  {
    seq(|s|, i requires 0 <= i < |s| => UpperChar(s[i]))
  }

  // ---------------------------------------------------------------------------
  // Decimal text of integers (what `JsonNumber.toString()` gives for an integral number)

  predicate IsDigit(c: char) {
    '0' <= c <= '9'
  }

  predicate AllDigits(s: string) {
    forall i :: 0 <= i < |s| ==> IsDigit(s[i])
  }

  function DigitChar(d: nat): (c: char)
    requires d < 10
    ensures IsDigit(c)
  {
    ('0' as int + d) as char
  }

  function DigitValue(c: char): (d: nat)
    requires IsDigit(c)
    ensures d < 10
  {
    c as int - '0' as int
  }

  /** The decimal digits of `n`, most significant first, without leading zeros. */
  function NatToDecimal(n: nat): (s: string)
    ensures |s| > 0 && AllDigits(s)
    // canonical: a leading '0' only for zero itself
    ensures s[0] == '0' <==> n == 0
    ensures n == 0 ==> s == "0"
  {
    if n < 10 then [DigitChar(n)] else NatToDecimal(n / 10) + [DigitChar(n % 10)]
  }

  /** Reads a string of decimal digits back as a number. */
  function DecimalToNat(s: string): nat
    requires AllDigits(s)
  {
    if |s| == 0 then 0 else DecimalToNat(s[..|s| - 1]) * 10 + DigitValue(s[|s| - 1])
  }

  lemma {:induction false} DecimalRoundTrip(n: nat)
    ensures DecimalToNat(NatToDecimal(n)) == n
  {
    var s := NatToDecimal(n);
    if n >= 10 {
      DecimalRoundTrip(n / 10);
      assert s[..|s| - 1] == NatToDecimal(n / 10);
      assert DigitValue(s[|s| - 1]) == n % 10;
    }
  }

  /** The decimal text of an integer: an optional '-' and then digits. */
  function IntToString(i: int): (s: string)
    ensures |s| > 0
    ensures forall k :: 0 <= k < |s| ==> s[k] != ':'
    // the canonical text: a sign only for negatives, and no leading zeros
    ensures s[0] == '-' <==> i < 0
    ensures |s| > 1 ==> s[0] != '0'
    ensures s[0] == '-' ==> |s| > 1 && s[1] != '0'
  {
    if i < 0 then "-" + NatToDecimal(-i) else NatToDecimal(i)
  }

  /** Parses what `IntToString` prints; anything else is `None`. */
  function ParseInt(s: string): (r: Option<int>)
  {
    if |s| > 0 && AllDigits(s) then Some(DecimalToNat(s) as int)
    else if |s| > 1 && s[0] == '-' && AllDigits(s[1..]) then Some(0 - DecimalToNat(s[1..]))
    else None
  }

  lemma IntToStringParses(i: int)
    ensures ParseInt(IntToString(i)) == Some(i)
  {
    var s := IntToString(i);
    if i < 0 {
      assert !IsDigit(s[0]);
      assert s[1..] == NatToDecimal(-i);
      DecimalRoundTrip(-i);
    } else {
      DecimalRoundTrip(i);
    }
  }

  /** Distinct integers print as distinct text. */
  lemma IntToStringInjective(a: int, b: int)
    ensures IntToString(a) == IntToString(b) <==> a == b
  {
    IntToStringParses(a);
    IntToStringParses(b);
  }
}
