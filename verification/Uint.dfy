/** The hand-written uint64 printer and parser of the provider agent
    (internal/provider/hardware.go). A Go `uint64` is an `int` here, and every
    wrap-around is written out. */
module Uint {

  const UINT64: int := 0x1_0000_0000_0000_0000

  predicate IsDigit(c: char) {
    '0' <= c <= '9'
  }

  predicate AllDigits(s: string) {
    forall i :: 0 <= i < |s| ==> IsDigit(s[i])
  }

  function DigitValue(c: char): (d: int)
    requires IsDigit(c)
    ensures 0 <= d <= 9
  {
    c as int - '0' as int
  }

  /** The number a digit string denotes, most significant digit first and without any wrap-around. */
  function Value(s: string): nat
    requires AllDigits(s)
  {
    if s == [] then 0 else 10 * Value(s[..|s| - 1]) + DigitValue(s[|s| - 1])
  }

  function Pow10(k: nat): (p: int)
    ensures p >= 1
  {
    if k == 0 then 1 else 10 * Pow10(k - 1)
  }

  /** What `parseUint` computes: false on the first non-digit, otherwise the value reduced modulo 2^64. */
  function ParseSpec(s: string): (int, bool) {
    if AllDigits(s) then (Value(s) % UINT64, true) else (0, false)
  }

  /** The canonical decimal numeral of a number. */
  function Numeral(n: nat): string {
    if n < 10 then [(n + '0' as int) as char] else Numeral(n / 10) + Numeral(n % 10)
  }

  predicate Canonical(s: string) {
    |s| > 0 && AllDigits(s) && (|s| > 1 ==> s[0] != '0')
  }

  lemma TimesTen(d: int, p: int, v: int, last: int)
    ensures 10 * (d * p + v) + last == d * (10 * p) + (10 * v + last)
  {
  }

  // A digit put in front of a numeral counts its power of ten.
  lemma {:induction false} ValueOfPrepend(c: char, s: string)
    requires IsDigit(c) && AllDigits(s)
    ensures Value([c] + s) == DigitValue(c) * Pow10(|s|) + Value(s)
  {
    if s == [] {
      assert ([c] + s)[..0] == [];
    } else {
      var front := s[..|s| - 1];
      ValueOfPrepend(c, front);
      assert ([c] + s)[..|s|] == [c] + front;
      TimesTen(DigitValue(c), Pow10(|front|), Value(front), DigitValue(s[|s| - 1]));
    }
  }

  lemma {:induction false} NumeralIsCanonical(n: nat)
    ensures Canonical(Numeral(n)) && Value(Numeral(n)) == n
    ensures n > 0 ==> Numeral(n)[0] != '0'
  {
    if n >= 10 {
      NumeralIsCanonical(n / 10);
      NumeralIsCanonical(n % 10);
      var front, last := Numeral(n / 10), Numeral(n % 10);
      assert (front + last)[..|front + last| - 1] == front;
    } else {
      assert Numeral(n)[..0] == [];
    }
  }

  // A canonical numeral is determined by its value.
  lemma {:induction false} CanonicalIsUnique(s: string)
    requires Canonical(s)
    ensures s == Numeral(Value(s))
  {
    var front := s[..|s| - 1];
    assert s == front + [s[|s| - 1]];
    if front == [] {
      assert Value(front) == 0;
    } else {
      CanonicalIsUnique(front);
      CanonicalPositive(front);
      assert Value(s) / 10 == Value(front) && Value(s) % 10 == DigitValue(s[|s| - 1]);
    }
  }

  lemma {:induction false} CanonicalPositive(s: string)
    requires |s| > 0 && AllDigits(s) && s[0] != '0'
    ensures Value(s) > 0
  {
    if |s| > 1 {
      CanonicalPositive(s[..|s| - 1]);
    }
  }

  /** Printing then parsing is the identity on uint64. */
  lemma ParseAfterFormat(n: nat)
    requires n < UINT64
    ensures ParseSpec(Numeral(n)) == (n, true)
  {
    NumeralIsCanonical(n);
  }

  lemma Reduced(v: nat)
    ensures 0 <= v % UINT64 < UINT64 && (v < UINT64 ==> v % UINT64 == v)
  {
  }

  lemma PrintedBack(s: string, n: nat)
    requires AllDigits(s) && n < UINT64 && (Value(s) < UINT64 ==> n == Value(s))
    ensures Numeral(n) == s <==> Canonical(s) && Value(s) < UINT64
  {
    NumeralIsCanonical(n);
    if Canonical(s) {
      CanonicalIsUnique(s);
    }
  }

  /** Parsing then printing is the identity on canonical numerals below 2^64, and
      on no other accepted string. */
  lemma FormatAfterParse(s: string)
    ensures ParseSpec(s).1 ==>
              (Numeral(ParseSpec(s).0) == s <==> Canonical(s) && Value(s) < UINT64)
  {
    if AllDigits(s) {
      Reduced(Value(s));
      PrintedBack(s, ParseSpec(s).0);
    }
  }

  lemma {:induction false} ValueOfPrefix(s: string, k: nat)
    requires AllDigits(s) && k <= |s|
    ensures Value(s[..k]) <= Value(s)
  {
    if k < |s| {
      ValueOfPrefix(s[..|s| - 1], k);
      assert s[..|s| - 1][..k] == s[..k];
    } else {
      assert s[..k] == s;
    }
  }

  /** While the numeral of a uint64 is parsed the accumulator never wraps. */
  lemma NoOverflowOnNumerals(n: nat, k: nat)
    requires n < UINT64 && k <= |Numeral(n)|
    ensures AllDigits(Numeral(n)[..k]) && Value(Numeral(n)[..k]) < UINT64
  {
    NumeralIsCanonical(n);
    ValueOfPrefix(Numeral(n), k);
  }

  lemma {:induction false} Pow10Monotone(i: nat, j: nat)
    requires i <= j
    ensures Pow10(i) <= Pow10(j)
  {
    if i < j {
      Pow10Monotone(i, j - 1);
    }
  }

  lemma TwentyDigits()
    ensures UINT64 < Pow10(20)
  {
    assert Pow10(5) == 100000;
    assert Pow10(10) == 100000 * Pow10(5);
    assert Pow10(15) == 100000 * Pow10(10);
    assert Pow10(20) == 100000 * Pow10(15);
  }

  /** What the digits already written, `tail`, and the number still to print, `n`, stand for together. */
  ghost function Pending(n: nat, tail: string): int
    requires AllDigits(tail)
  {
    n * Pow10(|tail|) + Value(tail)
  }

  function LastDigit(n: nat): (c: char)
    ensures IsDigit(c) && DigitValue(c) == n % 10
  {
    (n % 10 + '0' as int) as char
  }

  lemma PendingStep(n: nat, tail: string)
    requires AllDigits(tail)
    ensures AllDigits([LastDigit(n)] + tail)
    ensures Pending(n / 10, [LastDigit(n)] + tail) == Pending(n, tail)
  {
    var p := Pow10(|tail|);
    ValueOfPrepend(LastDigit(n), tail);
    assert Pow10(|[LastDigit(n)] + tail|) == 10 * p;
    calc {
      n * p;
      (10 * (n / 10) + n % 10) * p;
      10 * (n / 10) * p + (n % 10) * p;
      (n / 10) * (10 * p) + (n % 10) * p;
    }
  }

  lemma BufferSuffices(n: nat, tail: string)
    requires AllDigits(tail) && n > 0 && Pending(n, tail) < UINT64
    ensures |tail| < 20
  {
    ProductAtLeast(n, Pow10(|tail|));
    SmallPowers(|tail|);
  }

  lemma ProductAtLeast(n: int, p: int)
    requires n > 0 && p >= 0
    ensures n * p >= p
  {
  }

  // Only the powers of ten below 2^64 have an exponent below twenty.
  lemma SmallPowers(k: nat)
    requires Pow10(k) < UINT64
    ensures k < 20
  {
    if k >= 20 {
      TwentyDigits();
      Pow10Monotone(20, k);
    }
  }

  /** Fills a 20-byte buffer from its end, as the source does. The index never drops below zero. */
  method FormatUint(value: nat) returns (r: string)
    requires value < UINT64
    ensures r == Numeral(value)
    ensures 1 <= |r| <= 20
  {
    if value == 0 {
      return "0";
    }
    var n := value;
    var buf := new char[20];
    var i := buf.Length;
    ghost var tail := "";
    while n > 0
      invariant 0 <= i <= 20 == buf.Length && n >= 0
      invariant tail == buf[i..] && AllDigits(tail)
      invariant Pending(n, tail) == value
      invariant n == 0 ==> |tail| > 0 && tail[0] != '0'
      decreases n
    {
      BufferSuffices(n, tail);
      PendingStep(n, tail);
      i := i - 1;
      buf[i] := LastDigit(n);
      tail := [LastDigit(n)] + tail;
      n := n / 10;
    }
    r := buf[i..];
    CanonicalIsUnique(r);
  }

  /** Accumulates left to right in wrapping arithmetic and gives up at the first non-digit. */
  method ParseUint(s: string) returns (n: int, ok: bool)
    ensures (n, ok) == ParseSpec(s)
  {
    n := 0;
    for i := 0 to |s|
      invariant AllDigits(s[..i])
      invariant n == Value(s[..i]) % UINT64
    {
      if s[i] < '0' || s[i] > '9' {
        return 0, false;
      }
      assert s[..i + 1][..i] == s[..i];
      WrapStep(Value(s[..i]), DigitValue(s[i]));
      n := (n * 10 + (s[i] as int - '0' as int)) % UINT64;
    }
    assert s[..|s|] == s;
    return n, true;
  }

  lemma WrapStep(v: nat, d: int)
    ensures ((v % UINT64) * 10 + d) % UINT64 == (10 * v + d) % UINT64
  {
    var q := v / UINT64;
    assert 10 * v + d == (v % UINT64) * 10 + d + (10 * q) * UINT64;
    ModAddMultiple((v % UINT64) * 10 + d, 10 * q);
  }

  lemma {:induction false} ModAddMultiple(x: int, k: int)
    ensures (x + k * UINT64) % UINT64 == x % UINT64
    decreases if k < 0 then -k else k
  {
    if k > 0 {
      ModAddMultiple(x, k - 1);
      assert x + k * UINT64 == (x + (k - 1) * UINT64) + UINT64;
    } else if k < 0 {
      ModAddMultiple(x, k + 1);
      assert x + k * UINT64 == (x + (k + 1) * UINT64) - UINT64;
    }
  }
}
