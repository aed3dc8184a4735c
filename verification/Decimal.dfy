/** Decimal printing and parsing: the rate limiter's `itoa`, the Discord
    provider's `strconvAtoi`, and the library's `strconv.Itoa`/`strconv.Atoi`
    that the stored attempt counters go through. */
module Decimal {

  const MIN_INT64: int := -0x8000_0000_0000_0000
  const MAX_INT64: int := 0x7FFF_FFFF_FFFF_FFFF

  predicate IsInt64(n: int)
  {
    MIN_INT64 <= n <= MAX_INT64
  }

  /** The value a Go `int` holds after an arithmetic result of `n`. */
  function Wrap64(n: int): int
  {
    (n - MIN_INT64) % 0x1_0000_0000_0000_0000 + MIN_INT64
  }

  predicate IsDigit(c: char)
  {
    '0' <= c <= '9'
  }

  predicate AllDigits(s: string)
  {
    forall i :: 0 <= i < |s| ==> IsDigit(s[i])
  }

  function DigitChar(d: int): (c: char)
    requires 0 <= d <= 9
    ensures IsDigit(c) && c as int - '0' as int == d
  {
    (d + '0' as int) as char
  }

  /** Canonical decimal of a natural number: no leading zero except "0" itself. */
  function Digits(n: nat): (s: string)
    ensures |s| >= 1 && AllDigits(s)
    ensures s[0] == '0' <==> n == 0
  {
    if n < 10 then [DigitChar(n)] else Digits(n / 10) + [DigitChar(n % 10)]
  }

  /** `strconv.Itoa`: canonical decimal of an integer. */
  function Itoa(n: int): string
  {
    if n < 0 then "-" + Digits(-n) else Digits(n)
  }

  /** The number that a string of digits denotes, read left to right. */
  function ValueOf(s: string): nat
    requires AllDigits(s)
  {
    if s == "" then 0
    else ValueOf(s[..|s| - 1]) * 10 + (s[|s| - 1] as int - '0' as int)
  }

  datatype Parsed = Number(value: int) | Malformed

  /** `strconv.Atoi`: an optional sign, at least one digit, and an int64 value. */
  function Atoi(s: string): Parsed
  {
    var body := if s != "" && (s[0] == '-' || s[0] == '+') then s[1..] else s;
    if body == "" || !AllDigits(body) then Malformed
    else
      var n: int := if s[0] == '-' then 0 - ValueOf(body) else ValueOf(body);
      if IsInt64(n) then Number(n) else Malformed
  }

  lemma {:induction false} ValueOfDigits(n: nat)
    ensures ValueOf(Digits(n)) == n
  {
    if n >= 10 {
      ValueOfDigits(n / 10);
      var s := Digits(n);
      assert s[..|s| - 1] == Digits(n / 10);
    }
  }

  /** `strconv.Atoi` inverts `strconv.Itoa` on the whole int64 range. */
  lemma AtoiItoa(n: int)
    requires IsInt64(n)
    ensures Atoi(Itoa(n)) == Number(n)
  {
    var m := if n < 0 then -n else n;
    ValueOfDigits(m);
    if n < 0 {
      assert Itoa(n)[1..] == Digits(m);
    }
  }

  lemma {:induction false} DigitCount(n: nat, k: nat)
    requires n < Pow10(k) && k >= 1
    ensures |Digits(n)| <= k
  {
    if n >= 10 {
      DigitCount(n / 10, k - 1);
    }
  }

  function Pow10(k: nat): (p: nat)
    ensures p >= 1
  {
    if k == 0 then 1 else 10 * Pow10(k - 1)
  }

  lemma Int64DigitCount(n: nat)
    requires n <= MAX_INT64
    ensures |Digits(n)| <= 19
  {
    assert Pow10(5) == 100_000;
    assert Pow10(10) == 10 * 10 * 10 * 10 * 10 * Pow10(5);
    assert Pow10(15) == 10 * 10 * 10 * 10 * 10 * Pow10(10);
    assert Pow10(19) == 10 * 10 * 10 * 10 * Pow10(15);
    DigitCount(n, 19);
  }

  /** A text that is the decimal of every number but the smallest int64, and a sign
      there, is the canonical decimal exactly of the others. */
  lemma SignIsNoNumber(n: int, s: string)
    requires IsInt64(n) && s == if n == MIN_INT64 then "-" else Itoa(n)
    ensures s == Itoa(n) <==> n != MIN_INT64
  {
    if n == MIN_INT64 {
      assert |Itoa(n)| == 1 + |Digits(-n)|;
    }
  }

  /** The text with its sign in front, if it has one. */
  function Signed(neg: bool, text: string): string
  {
    if neg then "-" + text else text
  }

  /** Negation of a Go `int`: the smallest value is its own negation. */
  function Negate64(n: int): (m: int)
    requires IsInt64(n)
    ensures m == Wrap64(-n)
  {
    if n == MIN_INT64 then n else -n
  }

  /** The digits that a loop dividing `m` by ten still has to write. */
  ghost function Pending(m: int): string
  {
    if m > 0 then Digits(m) else ""
  }

  lemma PendingStep(m: int, tail: string)
    requires m > 0
    ensures Pending(m) + tail == Pending(m / 10) + ([DigitChar(m % 10)] + tail)
  {
    assert Pending(m) == Pending(m / 10) + [DigitChar(m % 10)];
  }

  method WriteChar(b: array<char>, i: nat, c: char)
    requires i < b.Length
    modifies b
    ensures b[i..] == [c] + old(b[i + 1..])
  {
    b[i] := c;
    assert b[i + 1..] == old(b[i + 1..]);
  }

  /** The digit loop of `itoa`: written backwards from the end of the buffer, which
      has room left for a sign. */
  method WriteDigits(b: array<char>, start: int) returns (i: int)
    requires b.Length == 20 && start <= MAX_INT64
    modifies b
    ensures 1 <= i <= 20 && b[i..] == Pending(start)
  {
    ghost var text := Pending(start);
    if start > 0 {
      Int64DigitCount(start);
    }
    var m := start;
    i := 20;
    ghost var written: string := [];
    assert text + written == text;
    while m > 0
      invariant i == 20 - |written| && |written| <= |text| <= 19
      invariant b[i..] == written && text == Pending(m) + written
      decreases m
    {
      ghost var digit := DigitChar(m % 10);
      PendingStep(m, written);
      i := i - 1;
      WriteChar(b, i, DigitChar(m % 10));
      written := [digit] + written;
      m := m / 10;
    }
  }

  /** The hand-written `itoa` of the rate limiter: digits are written backwards
      into a 20-byte buffer. Negating the smallest int64 wraps to itself, the
      digit loop then never runs, and only the sign is printed; every other
      number is printed as its canonical decimal. */
  method PrintInt(n: int) returns (s: string)
    requires IsInt64(n)
    ensures s == Itoa(n) <==> n != MIN_INT64
    ensures n == MIN_INT64 ==> s == "-"
  {
    if n == 0 {
      return "0";
    }
    var neg := n < 0;
    var m := if neg then Negate64(n) else n;
    var b := new char[20];
    var i := WriteDigits(b, m);
    if neg {
      i := i - 1;
      b[i] := '-';
      assert b[i..] == "-" + b[i + 1..];
    }
    s := b[i..];
    assert s == Signed(neg, Pending(m));
    SignIsNoNumber(n, s);
  }

  /** The Discord provider's `strconvAtoi`: digits only, no sign, no range check. */
  method ParseDigits(input: string) returns (r: Parsed)
    ensures r == if AllDigits(input) then Number(Wrap64(ValueOf(input))) else Malformed
  {
    var value := 0;
    for i := 0 to |input|
      invariant AllDigits(input[..i])
      invariant value == Wrap64(ValueOf(input[..i]))
    {
      var c := input[i];
      if c < '0' || c > '9' {
        return Malformed;
      }
      assert input[..i + 1][..i] == input[..i];
      WrapStep(ValueOf(input[..i]), c as int - '0' as int);
      value := Wrap64(Wrap64(value * 10) + (c as int - '0' as int));
    }
    assert input[..|input|] == input;
    r := Number(value);
  }

  lemma WrapAgain(a: int, k: int)
    ensures Wrap64(a + k * 0x1_0000_0000_0000_0000) == Wrap64(a)
  {
  }

  lemma WrapStep(v: int, d: int)
    ensures Wrap64(Wrap64(Wrap64(v) * 10) + d) == Wrap64(v * 10 + d)
  {
    var m := 0x1_0000_0000_0000_0000;
    var q := (v - MIN_INT64) / m;
    assert Wrap64(v) == v - q * m;
    var w := Wrap64(v) * 10;
    var r := (w - MIN_INT64) / m;
    assert Wrap64(w) == w - r * m;
    assert Wrap64(w) + d == (v * 10 + d) + (-10 * q - r) * m;
    WrapAgain(v * 10 + d, -10 * q - r);
  }

  /** `strconvAtoi` inverts what `itoa` prints for every non-negative int64;
      for a negative one it always reports an error. */
  method PrintThenParse(n: int) returns (r: Parsed)
    requires IsInt64(n)
    ensures r == if n >= 0 then Number(n) else Malformed
  {
    var s := PrintInt(n);
    r := ParseDigits(s);
    if n >= 0 {
      ValueOfDigits(n);
    } else {
      assert s[0] == '-';
    }
  }

}
