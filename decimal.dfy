/** Decimal text of natural numbers, as a template literal `${n}` renders a
    non-negative integer, and the parsing that inverts it. The range labels of
    both calculators are built from these. */
module Decimal {

  predicate IsDigit(c: char) {
    '0' <= c <= '9'
  }

  predicate AllDigits(s: string) {
    forall i :: 0 <= i < |s| ==> IsDigit(s[i])
  }

  function DigitChar(d: nat): (c: char)
    requires d < 10
    ensures IsDigit(c)
  {
    ('0' as int + d) as char
  }

  function DigitValue(c: char): (d: nat)
    requires IsDigit(c)
    ensures d < 10
  {
    c as int - '0' as int
  }

  /** The decimal digits of `n`, most significant first, without leading zeros. */
  function Digits(n: nat): (s: string)
    ensures |s| > 0 && AllDigits(s)
    ensures |s| > 1 ==> s[0] != '0'
  {
    if n < 10 then [DigitChar(n)] else Digits(n / 10) + [DigitChar(n % 10)]
  }

  /** The number a string of digits denotes. */
  function ParseDigits(s: string): nat
    requires AllDigits(s)
  {
    if s == [] then 0 else 10 * ParseDigits(s[..|s| - 1]) + DigitValue(s[|s| - 1])
  }

  /** Reading back the digits of `n` gives `n`. */
  lemma {:induction false} ParseDigitsOfDigits(n: nat)
    ensures ParseDigits(Digits(n)) == n
  {
    var s := Digits(n);
    if n >= 10 {
      assert s[..|s| - 1] == Digits(n / 10);
      ParseDigitsOfDigits(n / 10);
    }
  }

  /** The longest prefix of `s` made of digits. */
  function TakeDigits(s: string): (d: string)
    ensures AllDigits(d) && d <= s
    ensures |d| == |s| || !IsDigit(s[|d|])
  {
    if s == [] || !IsDigit(s[0]) then [] else [s[0]] + TakeDigits(s[1..])
  }

  /** The digits in front of a non-digit are exactly what TakeDigits finds. */
  lemma {:induction false} TakeDigitsBeforeNonDigit(d: string, rest: string)
    requires AllDigits(d)
    requires rest != [] && !IsDigit(rest[0])
    ensures TakeDigits(d + rest) == d
  {
    if d != [] {
      assert (d + rest)[1..] == d[1..] + rest;
      TakeDigitsBeforeNonDigit(d[1..], rest);
    }
  }

  /** In `prefix + digits of n + tail`, where the tail starts with a non-digit,
      the digits after the one-character prefix are exactly those of `n`. */
  lemma ReadNumberAfter(c: char, n: nat, tail: string)
    requires tail != [] && !IsDigit(tail[0])
    ensures var s := [c] + Digits(n) + tail;
      && s[0] == c
      && TakeDigits(s[1..]) == Digits(n)
      && s[1 + |Digits(n)|..] == tail
      && ParseDigits(Digits(n)) == n
  {
    var d := Digits(n);
    var s := [c] + d + tail;
    assert s[1..] == d + tail;
    TakeDigitsBeforeNonDigit(d, tail);
    assert s[1 + |d|..] == tail;
    ParseDigitsOfDigits(n);
  }

  /** The decimal text of the outer edges of the standard band table. */
  lemma StandardEdgeDigits()
    ensures Digits(0) == "0"
    ensures Digits(5000) == "5000"
    ensures Digits(20000) == "20000"
  {
    assert Digits(5) == "5" && Digits(50) == "50" && Digits(500) == "500";
    assert Digits(2) == "2" && Digits(20) == "20" && Digits(200) == "200" && Digits(2000) == "2000";
  }
}
