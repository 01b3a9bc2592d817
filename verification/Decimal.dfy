/**
 Decimal numbers as Go prints them (`fmt` verb %d) and reads them (`strconv.Atoi` on a
 64-bit platform). Event ids travel as such strings.
 */
module Decimal {

  const MAX_INT: int := 0x7FFF_FFFF_FFFF_FFFF
  const MIN_INT: int := -0x8000_0000_0000_0000

  /** What Atoi returns: a value even when the error is non-nil, and whether the error is nil. */
  datatype Parsed = Parsed(value: int, ok: bool)

  predicate IsDigit(c: char) { '0' <= c <= '9' }

  function DigitValue(c: char): nat
    requires IsDigit(c)
  {
    c as int - '0' as int
  }

  function DigitChar(d: nat): (c: char)
    requires d < 10
    ensures IsDigit(c) && DigitValue(c) == d
  {
    (d + '0' as int) as char
  }

  function Digits(n: nat): (s: string)
    ensures |s| > 0 && forall i :: 0 <= i < |s| ==> IsDigit(s[i])
  {
    if n < 10 then [DigitChar(n)] else Digits(n / 10) + [DigitChar(n % 10)]
  }

  function Itoa(n: int): string {
    if n < 0 then "-" + Digits(-n) else Digits(n)
  }

  function DigitsValue(s: string): nat
    requires forall i :: 0 <= i < |s| ==> IsDigit(s[i])
  {
    if |s| == 0 then 0 else 10 * DigitsValue(s[..|s| - 1]) + DigitValue(s[|s| - 1])
  }

  /** What follows the sign. */
  function Unsigned(s: string): string { if |s| > 0 && (s[0] == '-' || s[0] == '+') then s[1..] else s }

  predicate AllDigits(s: string) { |s| > 0 && forall i :: 0 <= i < |s| ==> IsDigit(s[i]) }

  /** A syntax error yields 0; a value out of range yields the nearest representable one. */
  function Atoi(s: string): Parsed {
    var negative := |s| > 0 && s[0] == '-';
    if !AllDigits(Unsigned(s)) then
      Parsed(0, false)
    else
      var v: int := DigitsValue(Unsigned(s));
      var n := if negative then -v else v;
      if n > MAX_INT then Parsed(MAX_INT, false)
      else if n < MIN_INT then Parsed(MIN_INT, false)
      else Parsed(n, true)
  }

  lemma {:induction false} DigitsRoundTrip(n: nat)
    ensures DigitsValue(Digits(n)) == n
  {
    if n < 10 {
      assert Digits(n)[..0] == "";
    } else {
      DigitsRoundTrip(n / 10);
      assert Digits(n)[..|Digits(n)| - 1] == Digits(n / 10);
    }
  }

  /** Printing an id and reading it back gives the id, for every 64-bit integer. */
  lemma ItoaRoundTrip(n: int)
    requires MIN_INT <= n <= MAX_INT
    ensures Itoa(n) != "" && Atoi(Itoa(n)) == Parsed(n, true)
  {
    assert Zeros(0) + Digits(if n < 0 then -n else n) == Digits(if n < 0 then -n else n);
    assert Reads(Itoa(n), n);
    ReadsTaken(Itoa(n), n);
    hide Atoi;
  }

  function Zeros(k: nat): string { seq(k, i => '0') }

  lemma DigitsSnoc(v: nat, d: nat)
    requires v > 0 && d < 10
    ensures Digits(10 * v + d) == Digits(v) + [DigitChar(d)]
  {
    assert (10 * v + d) / 10 == v && (10 * v + d) % 10 == d;
  }

  lemma {:induction false} DigitsOfValue(s: string) returns (k: nat)
    requires |s| > 0 && forall i :: 0 <= i < |s| ==> IsDigit(s[i])
    ensures s == Zeros(k) + Digits(DigitsValue(s))
  {
    var front, last := s[..|s| - 1], s[|s| - 1];
    var v, d := DigitsValue(front), DigitValue(last);
    assert s == front + [last] && DigitChar(d) == last && DigitsValue(s) == 10 * v + d;
    if |front| == 0 {
      k := 0;
    } else {
      k := DigitsOfValue(front);
      if v == 0 {
        assert front == Zeros(k) + "0" == Zeros(k + 1);
        k := k + 1;
      } else {
        DigitsSnoc(v, d);
        Regroup(Zeros(k), Digits(v), [last]);
      }
    }
  }

  lemma Regroup(a: string, b: string, c: string)
    ensures a + b + c == a + (b + c)
  {
  }

  lemma {:induction false} ZerosAreNothing(k: nat, s: string)
    requires forall i :: 0 <= i < |s| ==> IsDigit(s[i])
    ensures forall i :: 0 <= i < |Zeros(k) + s| ==> IsDigit((Zeros(k) + s)[i])
    ensures DigitsValue(Zeros(k) + s) == DigitsValue(s)
  {
    if |s| > 0 {
      ZerosAreNothing(k, s[..|s| - 1]);
      assert (Zeros(k) + s)[..|Zeros(k) + s| - 1] == Zeros(k) + s[..|s| - 1];
    } else if k > 0 {
      ZerosAreNothing(k - 1, "");
      assert (Zeros(k) + s)[..k - 1] == Zeros(k - 1) + "" && Zeros(k) + s == Zeros(k);
    }
  }

  /** A number as Atoi takes it: a sign or none, any zeros, and the digits. */
  ghost predicate Reads(s: string, n: int) {
    && MIN_INT <= n <= MAX_INT
    && exists k: nat ::
         || (n >= 0 && s == Zeros(k) + Digits(n))
         || (n >= 0 && s == "+" + (Zeros(k) + Digits(n)))
         || (n <= 0 && s == "-" + (Zeros(k) + Digits(-n)))
  }

  lemma AtoiByParts(s: string, n: int)
    ensures Atoi(s) == Parsed(n, true) <==>
      && MIN_INT <= n <= MAX_INT && AllDigits(Unsigned(s))
      && var v: int := DigitsValue(Unsigned(s)); n == if |s| > 0 && s[0] == '-' then -v else v
  {
  }

  /** Atoi accepts exactly the texts that read as a 64-bit integer, and returns that integer. */
  lemma AtoiIff(s: string, n: int)
    ensures Atoi(s) == Parsed(n, true) <==> Reads(s, n)
  {
    if Atoi(s) == Parsed(n, true) { TakenReads(s, n); }
    if Reads(s, n) { ReadsTaken(s, n); }
  }

  lemma TakenReads(s: string, n: int)
    requires Atoi(s) == Parsed(n, true)
    ensures Reads(s, n)
  {
    AtoiByParts(s, n);
    var k := DigitsOfValue(Unsigned(s));
    assert s == Unsigned(s) || s == [s[0]] + Unsigned(s);
    hide Atoi, Digits, DigitsValue, Zeros;
  }

  lemma ReadsTaken(s: string, n: int)
    requires Reads(s, n)
    ensures Atoi(s) == Parsed(n, true)
  {
    AtoiByParts(s, n);
    hide Atoi, Digits, DigitsValue, Zeros, AllDigits;
    var k: nat :|
      || (n >= 0 && s == Zeros(k) + Digits(n))
      || (n >= 0 && s == "+" + (Zeros(k) + Digits(n)))
      || (n <= 0 && s == "-" + (Zeros(k) + Digits(-n)));
    PaddedDigits(k, if n >= 0 then n else -n);
    UnsignedIs(s, Zeros(k) + Digits(if n >= 0 then n else -n));
    hide Unsigned;
  }

  lemma PaddedDigits(k: nat, m: nat)
    ensures AllDigits(Zeros(k) + Digits(m)) && DigitsValue(Zeros(k) + Digits(m)) == m
  {
    DigitsRoundTrip(m);
    ZerosAreNothing(k, Digits(m));
  }

  lemma UnsignedIs(s: string, body: string)
    requires AllDigits(body) && (s == body || s == "+" + body || s == "-" + body)
    ensures Unsigned(s) == body
    ensures s[0] == '-' <==> s == "-" + body
  {
    assert IsDigit(body[0]);
  }
}
