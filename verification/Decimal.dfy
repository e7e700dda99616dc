/**
  Decimal text for 64-bit integers: strconv.FormatInt and Itoa, and their inverses
  ParseInt and Atoi in base ten.
 */
module Decimal {
  import opened Common

  const MIN_INT64: int := -0x8000_0000_0000_0000
  const MAX_INT64: int := 0x7fff_ffff_ffff_ffff

  predicate InInt64(n: int) { MIN_INT64 <= n <= MAX_INT64 }

  predicate IsDigit(c: char) { '0' <= c <= '9' }

  predicate AllDigits(s: string) { forall k :: 0 <= k < |s| ==> IsDigit(s[k]) }

  function Digit(d: nat): (c: char)
    requires d < 10
    ensures IsDigit(c)
  {
    '0' + d as char
  }

  function DigitValue(c: char): (d: nat)
    requires IsDigit(c)
    ensures d < 10 && Digit(d) == c
  {
    c as int - '0' as int
  }

  function FormatNat(n: nat): (s: string)
    ensures s != "" && AllDigits(s)
  {
    if n < 10 then [Digit(n)] else FormatNat(n / 10) + [Digit(n % 10)]
  }

  function FormatInt(n: int): string {
    if n < 0 then "-" + FormatNat(-n) else FormatNat(n)
  }

  /** The number a run of digits spells. */
  function ReadDigits(s: string): nat
    requires AllDigits(s)
  {
    if s == "" then 0 else 10 * ReadDigits(s[..|s| - 1]) + DigitValue(s[|s| - 1])
  }

  /** ParseInt(s, 10, 64): an optional sign, at least one digit, and the 64-bit range. */
  function ParseInt(s: string): Option<int> {
    var negative := s != "" && s[0] == '-';
    var digits := if s != "" && (s[0] == '-' || s[0] == '+') then s[1..] else s;
    if digits == "" || !AllDigits(digits) then None
    else
      var n := ReadDigits(digits) as int * (if negative then -1 else 1);
      if InInt64(n) then Some(n) else None
  }

  lemma {:induction false} ReadFormatNat(n: nat)
    ensures ReadDigits(FormatNat(n)) == n
  {
    if n >= 10 {
      ReadFormatNat(n / 10);
      assert FormatNat(n)[..|FormatNat(n)| - 1] == FormatNat(n / 10);
    }
  }

  /** Reading back what was written gives the number, over the whole 64-bit range. */
  lemma ParseFormatInt(n: int)
    requires InInt64(n)
    ensures ParseInt(FormatInt(n)) == Some(n)
  {
    var m := if n < 0 then -n else n;
    ReadFormatNat(m);
    ParseDigits(n < 0, FormatNat(m));
  }

  /** What a run of digits reads as, with a minus sign in front or without. */
  lemma ParseDigits(negative: bool, digits: string)
    requires digits != "" && AllDigits(digits)
    ensures var n := ReadDigits(digits) as int * (if negative then -1 else 1);
      ParseInt(if negative then "-" + digits else digits) == if InInt64(n) then Some(n) else None
  {
    hide ReadDigits;
    assert ("-" + digits)[1..] == digits;
    assert IsDigit(digits[0]);
  }

  lemma ReadOneMore(s: string, c: char)
    requires AllDigits(s) && IsDigit(c)
    ensures AllDigits(s + [c]) && ReadDigits(s + [c]) == 10 * ReadDigits(s) + DigitValue(c)
  {
    assert (s + [c])[..|s|] == s;
  }

  /** The digits are the ten figures, in order. */
  lemma DigitsAre(d: nat)
    requires d < 10
    ensures Digit(d) == "0123456789"[d]
  {
  }

  function Power(n: nat): nat { if n == 0 then 1 else 10 * Power(n - 1) }

  /** A digit counts for ten times as much with every digit after it. */
  lemma {:induction false} PlacesCount(c: char, s: string)
    requires IsDigit(c) && AllDigits(s)
    ensures AllDigits([c] + s) && ReadDigits([c] + s) == DigitValue(c) * Power(|s|) + ReadDigits(s)
  {
    if s != "" {
      var n := |s| - 1;
      PlacesCount(c, s[..n]);
      assert [c] + s == [c] + s[..n] + [s[n]];
      ReadOneMore([c] + s[..n], s[n]);
    }
  }

  /**
    A sign is read where one stands in front, and anything but digits after it is refused, as
    is a number beyond 64 bits.
   */
  lemma SignsRead(digits: string)
    requires digits == "" || (digits[0] != '+' && digits[0] != '-')
    ensures digits == "" || !AllDigits(digits) ==>
      ParseInt(digits) == None && ParseInt("+" + digits) == None && ParseInt("-" + digits) == None
    ensures digits != "" && AllDigits(digits) ==>
      var n: int := ReadDigits(digits);
      && ParseInt(digits) == (if n <= MAX_INT64 then Some(n) else None)
      && ParseInt("+" + digits) == ParseInt(digits)
      && ParseInt("-" + digits) == (if n <= MAX_INT64 + 1 then Some(-n) else None)
  {
    hide ReadDigits, AllDigits;
    assert ("+" + digits)[1..] == digits && ("-" + digits)[1..] == digits;
    assert ("+" + digits)[0] == '+' && ("-" + digits)[0] == '-';
  }
}
