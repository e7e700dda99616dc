/** The check digit of a card number: luhnValid of cmd/console/cards.go (ISO/IEC 7812-1, Annex B). */
module Luhn {
  import opened Decimal

  /** What one digit adds: itself, or doubled with nine taken off a two-digit result. */
  function Weight(digit: nat, doubled: bool): nat {
    if !doubled then digit else if 2 * digit > 9 then 2 * digit - 9 else 2 * digit
  }

  /** The weighted sum, the rightmost digit first. */
  function Total(number: string, doubled: bool): nat
    requires AllDigits(number)
  {
    if number == "" then 0
    else
      var n := |number| - 1;
      Total(number[..n], !doubled) + Weight(DigitValue(number[n]), doubled)
  }

  predicate Valid(number: string) { AllDigits(number) && Total(number, false) % 10 == 0 }

  /** Subtraction on bytes wraps, so a character below zero comes out far above nine. */
  function ByteDigit(c: char): nat { (c as int - '0' as int) % 256 }

  /** Adds the digits up from the right; the first character that is not one ends it. */
  method LuhnValid(number: string) returns (ok: bool)
    requires forall k :: 0 <= k < |number| ==> number[k] < 256 as char
    ensures ok <==> Valid(number)
  {
    var sum, double := 0, false;
    var i := |number|;
    assert number[..i] == number;
    while i > 0
      invariant 0 <= i <= |number|
      invariant forall k :: i <= k < |number| ==> IsDigit(number[k])
      invariant AllDigits(number) ==> Total(number, false) == Total(number[..i], double) + sum
    {
      i := i - 1;
      var digit := ByteDigit(number[i]);
      if digit < 0 || digit > 9 {
        return false;
      }
      assert IsDigit(number[i]) && digit == DigitValue(number[i]);
      assert number[..i + 1][..i] == number[..i];
      if double {
        digit := digit * 2;
        if digit > 9 {
          digit := digit - 9;
        }
      }
      sum := sum + digit;
      double := !double;
    }
    return sum % 10 == 0;
  }

  /** Whether the digit at i is doubled when the rightmost of n is not, or is. */
  predicate DoubledAt(n: nat, i: nat, doubled: bool)
    requires i < n
  {
    doubled != ((n - 1 - i) % 2 == 1)
  }

  lemma {:induction false} TotalUpdate(number: string, i: nat, c: char, doubled: bool)
    requires AllDigits(number) && i < |number| && IsDigit(c)
    ensures AllDigits(number[i := c])
    ensures var at := DoubledAt(|number|, i, doubled);
      Total(number[i := c], doubled) + Weight(DigitValue(number[i]), at) == Total(number, doubled) + Weight(DigitValue(c), at)
  {
    var n := |number| - 1;
    if i == n {
      assert number[i := c][..n] == number[..n];
    } else {
      assert number[i := c][..n] == number[..n][i := c];
      TotalUpdate(number[..n], i, c, !doubled);
    }
  }

  /** Weights tell digits apart modulo ten, doubled or not. */
  lemma WeightsDiffer(c: nat, d: nat, doubled: bool)
    requires c < 10 && d < 10 && c != d
    ensures Weight(c, doubled) % 10 != Weight(d, doubled) % 10
    ensures Weight(c, doubled) < 10 && Weight(d, doubled) < 10
  {
  }

  lemma SameRemainder(t: nat, t': nat, before: nat, after: nat)
    requires t' + before == t + after && t % 10 == 0
    ensures t' % 10 == 0 <==> before % 10 == after % 10
  {
  }

  /** No valid number stays valid when one character is changed, into another digit or anything else. */
  lemma OneChangeIsCaught(number: string, i: nat, c: char)
    requires Valid(number) && i < |number| && c != number[i]
    ensures !Valid(number[i := c])
  {
    if IsDigit(c) {
      TotalUpdate(number, i, c, false);
      assert Digit(DigitValue(c)) == c && Digit(DigitValue(number[i])) == number[i];
      var at := DoubledAt(|number|, i, false);
      WeightsDiffer(DigitValue(c), DigitValue(number[i]), at);
      SameRemainder(Total(number, false), Total(number[i := c], false),
                    Weight(DigitValue(number[i]), at), Weight(DigitValue(c), at));
    } else {
      assert number[i := c][i] == c;
    }
  }

  /** Doubling moves a digit by itself, less nine from five on. */
  lemma DoubledWeight(d: nat)
    requires d < 10
    ensures Weight(d, true) == if d < 5 then 2 * d else 2 * d - 9
  {
  }

  lemma SameLastDigit(x: nat, y: nat)
    requires x < 20 && y < 20
    ensures x % 10 == y % 10 <==> x == y || x == y + 10 || y == x + 10
  {
  }

  /** Two unequal digits weigh the same in either order exactly when they are nought and nine. */
  lemma SwappedWeights(c: nat, d: nat, doubled: bool)
    requires c < 10 && d < 10 && c != d
    ensures (Weight(c, doubled) + Weight(d, !doubled)) % 10 == (Weight(d, doubled) + Weight(c, !doubled)) % 10
            <==> (c == 0 && d == 9) || (c == 9 && d == 0)
  {
    DoubledWeight(c);
    DoubledWeight(d);
    SameLastDigit(Weight(c, doubled) + Weight(d, !doubled), Weight(d, doubled) + Weight(c, !doubled));
  }

  /** Swapping unequal neighbours of a valid number is caught, except for nought and nine. */
  lemma SwapIsCaught(number: string, i: nat)
    requires Valid(number) && i + 1 < |number| && number[i] != number[i + 1]
    ensures Valid(number[i := number[i + 1]][i + 1 := number[i]]) <==>
      (number[i] == '0' && number[i + 1] == '9') || (number[i] == '9' && number[i + 1] == '0')
  {
    var a, b := number[i], number[i + 1];
    var once := number[i := b];
    TotalUpdate(number, i, b, false);
    TotalUpdate(once, i + 1, a, false);
    var at := DoubledAt(|number|, i, false);
    assert DoubledAt(|number|, i + 1, false) == !at;
    assert Digit(DigitValue(a)) == a && Digit(DigitValue(b)) == b;
    SwappedWeights(DigitValue(a), DigitValue(b), at);
    var before := Weight(DigitValue(a), at) + Weight(DigitValue(b), !at);
    var after := Weight(DigitValue(b), at) + Weight(DigitValue(a), !at);
    assert Total(once[i + 1 := a], false) + before == Total(number, false) + after;
    SameRemainder(Total(number, false), Total(once[i + 1 := a], false), before, after);
  }

  /** The digit that completes a prefix. */
  function CheckDigit(prefix: string): char
    requires AllDigits(prefix)
  {
    Digit((10 - Total(prefix, true) % 10) % 10)
  }

  /** Every prefix has exactly one final digit that makes it valid. */
  lemma OneCheckDigit(prefix: string, c: char)
    requires AllDigits(prefix)
    ensures Valid(prefix + [c]) <==> c == CheckDigit(prefix)
  {
    var number := prefix + [c];
    assert number[..|prefix|] == prefix && number[|prefix|] == c;
    if IsDigit(c) {
      assert AllDigits(number) && Total(number, false) == Total(prefix, true) + DigitValue(c);
      assert Digit(DigitValue(c)) == c;
      Completes(Total(prefix, true), DigitValue(c));
    }
  }

  lemma Completes(total: nat, d: nat)
    requires d < 10
    ensures (total + d) % 10 == 0 <==> d == (10 - total % 10) % 10
  {
  }

  /** Two more digits at the end: the last counts as it is, and the one before it twice, with nine off what passes nine. */
  lemma TwoMore(number: string, x: char, y: char)
    requires AllDigits(number) && IsDigit(x) && IsDigit(y)
    ensures AllDigits(number + [x, y])
    ensures var twice := 2 * DigitValue(x);
      Total(number + [x, y], false) == Total(number, false) + (if twice > 9 then twice - 9 else twice) + DigitValue(y)
  {
    var whole := number + [x, y];
    assert whole[..|whole| - 1] == number + [x] && (number + [x])[..|number|] == number;
  }

  /** And one digit alone counts as it is, so only a nought is valid alone. */
  lemma OneAlone(x: char)
    requires IsDigit(x)
    ensures Total([x], false) == DigitValue(x) && Total("", false) == 0 && (Valid([x]) <==> x == '0')
  {
    assert [x][..0] == "";
  }
}
