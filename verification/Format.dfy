/** Money as the operator console writes it: formatSum, formatSigned and group of cmd/console/format.go. */
module Format {
  import opened Common
  import opened Decimal

  const GAP: char := ' '

  // ---------- grouping ----------

  /** A gap every three digits, counted from the right. */
  function Grouped(digits: string): string {
    if |digits| <= 3 then digits
    else Grouped(digits[..|digits| - 3]) + [GAP] + digits[|digits| - 3..]
  }

  lemma OneChunkGroups(digits: string)
    requires |digits| <= 3
    ensures Grouped(digits) == digits
  {
  }

  lemma NextChunk(digits: string, i: nat)
    requires i + 3 <= |digits|
    ensures Grouped(digits[..i + 3]) ==
            if i == 0 then digits[i..i + 3] else Grouped(digits[..i]) + [GAP] + digits[i..i + 3]
  {
    var next := digits[..i + 3];
    assert next[..i] == digits[..i] && next[i..] == digits[i..i + 3];
  }

  /** Writes the leading one or two digits that do not fill a chunk, then the chunks. */
  method Group(digits: string) returns (out: string)
    ensures out == Grouped(digits)
  {
    hide Grouped;
    if |digits| <= 3 {
      OneChunkGroups(digits);
      return digits;
    }
    out := "";
    var lead := |digits| % 3;
    if lead > 0 {
      out := digits[..lead];
    }
    OneChunkGroups(digits[..lead]);
    var i := lead;
    while i < |digits|
      invariant lead <= i <= |digits| && (|digits| - i) % 3 == 0 && (i == 0 <==> out == "")
      invariant out == Grouped(digits[..i])
    {
      NextChunk(digits, i);
      if |out| > 0 {
        out := out + [GAP];
      }
      out := out + digits[i..i + 3];
      i := i + 3;
    }
    assert digits[..|digits|] == digits;
  }

  /** The chunks between gaps. */
  function Chunks(s: string): (chunks: seq<string>)
    ensures chunks != []
  {
    if s == "" then [""]
    else
      var n := |s| - 1;
      var before := Chunks(s[..n]);
      if s[n] == GAP then before + [""]
      else before[|before| - 1 := before[|before| - 1] + [s[n]]]
  }

  function Joined(chunks: seq<string>): string {
    if chunks == [] then "" else Joined(chunks[..|chunks| - 1]) + chunks[|chunks| - 1]
  }

  lemma {:induction false} ChunksAfterGap(s: string, t: string)
    requires GAP !in t
    ensures Chunks(s + [GAP] + t) == Chunks(s) + [t]
  {
    var whole := s + [GAP] + t;
    if t == "" {
      assert whole[..|whole| - 1] == s;
    } else {
      var init := t[..|t| - 1];
      assert whole[..|whole| - 1] == s + [GAP] + init;
      ChunksAfterGap(s, init);
      assert t == init + [t[|t| - 1]];
    }
  }

  lemma {:induction false} OneChunk(s: string)
    requires GAP !in s
    ensures Chunks(s) == [s]
  {
    if s != "" {
      var n := |s| - 1;
      OneChunk(s[..n]);
      assert s == s[..n] + [s[n]];
    }
  }

  /** One to three characters, then threes. */
  predicate Shaped(chunks: seq<string>) {
    chunks != [] && 1 <= |chunks[0]| <= 3 && forall k :: 0 < k < |chunks| ==> |chunks[k]| == 3
  }

  lemma ShapedAppend(chunks: seq<string>, last: string)
    requires Shaped(chunks) && |last| == 3
    ensures Shaped(chunks + [last]) && Joined(chunks + [last]) == Joined(chunks) + last
  {
    assert (chunks + [last])[..|chunks|] == chunks;
  }

  lemma OneShape(digits: string)
    requires AllDigits(digits) && 1 <= |digits| <= 3
    ensures Shaped(Chunks(digits)) && Joined(Chunks(digits)) == digits
  {
    OneChunk(digits);
    assert [digits][..0] == [];
    assert Joined([]) + digits == digits;
  }

  /** Grouping keeps every digit in order, in a first chunk of one to three and then chunks of exactly three. */
  lemma {:induction false} GroupedShape(digits: string)
    requires AllDigits(digits) && digits != ""
    ensures Shaped(Chunks(Grouped(digits))) && Joined(Chunks(Grouped(digits))) == digits
  {
    if |digits| <= 3 {
      OneShape(digits);
    } else {
      hide Chunks, Joined, Shaped;
      var init, last := digits[..|digits| - 3], digits[|digits| - 3..];
      GroupedShape(init);
      ChunksAfterGap(Grouped(init), last);
      ShapedAppend(Chunks(Grouped(init)), last);
      assert init + last == digits;
    }
  }

  // ---------- sums ----------

  /** Negation on Go's 64-bit integers: the smallest one is its own negative. */
  function Negated(n: int): int { if n == MIN_INT64 then n else -n }

  /** Division and remainder that truncate toward zero. */
  function Quotient(n: int, d: nat): int
    requires 0 < d
  {
    if n < 0 then -(-n / d) else n / d
  }

  function Remainder(n: int, d: nat): int
    requires 0 < d
  {
    n - Quotient(n, d) * d
  }

  function Cents(n: int): string {
    var cents := FormatInt(Remainder(n, 100));
    if |cents| == 1 then "0" + cents else cents
  }

  function Sum(tiyin: int): string {
    var n := if tiyin < 0 then Negated(tiyin) else tiyin;
    var out := Grouped(FormatInt(Quotient(n, 100))) + "." + Cents(n);
    if tiyin < 0 then "-" + out else out
  }

  function Signed(tiyin: int): string { if tiyin > 0 then "+" + Sum(tiyin) else Sum(tiyin) }

  method FormatSum(tiyin: int) returns (out: string)
    ensures out == Sum(tiyin)
  {
    var n := tiyin;
    var negative := n < 0;
    if negative {
      n := Negated(n);
    }
    var whole := Group(FormatInt(Quotient(n, 100)));
    var cents := FormatInt(Remainder(n, 100));
    if |cents| == 1 {
      cents := "0" + cents;
    }
    out := whole + "." + cents;
    if negative {
      return "-" + out;
    }
  }

  method FormatSigned(tiyin: int) returns (out: string)
    ensures out == Signed(tiyin)
  {
    out := FormatSum(tiyin);
    if tiyin > 0 {
      return "+" + out;
    }
  }

  // ---------- reading a sum back ----------

  /** The text without its gaps and its point. */
  function Plain(s: string): string {
    if s == "" then "" else (if s[0] == GAP || s[0] == '.' then "" else [s[0]]) + Plain(s[1..])
  }

  function ReadSum(s: string): Option<int> { ParseInt(Plain(s)) }

  lemma {:induction false} PlainConcat(s: string, t: string)
    ensures Plain(s + t) == Plain(s) + Plain(t)
  {
    if s == "" {
      assert s + t == t;
    } else {
      assert (s + t)[1..] == s[1..] + t;
      PlainConcat(s[1..], t);
    }
  }

  lemma {:induction false} PlainDigits(s: string)
    requires AllDigits(s)
    ensures Plain(s) == s
  {
    if s != "" {
      PlainDigits(s[1..]);
    }
  }

  lemma {:induction false} PlainGrouped(digits: string)
    requires AllDigits(digits)
    ensures Plain(Grouped(digits)) == digits
  {
    if |digits| <= 3 {
      PlainDigits(digits);
    } else {
      var init, last := digits[..|digits| - 3], digits[|digits| - 3..];
      PlainGrouped(init);
      PlainDigits(last);
      hide Plain, AllDigits;
      PlainChunk(init, last);
      assert Grouped(digits) == Grouped(init) + [GAP] + last;
      hide Grouped;
      assert init + last == digits;
    }
  }

  lemma PlainChunk(init: string, last: string)
    requires Plain(Grouped(init)) == init && Plain(last) == last
    ensures Plain(Grouped(init) + [GAP] + last) == init + last
  {
    PlainGap();
    hide Grouped, Plain;
    PlainConcat(Grouped(init) + [GAP], last);
    PlainConcat(Grouped(init), [GAP]);
  }

  lemma PlainGap()
    ensures Plain([GAP]) == ""
  {
  }

  /** Two digits, whatever the remainder. */
  lemma CentsRead(n: nat)
    ensures var cents := Cents(n); |cents| == 2 && AllDigits(cents) && ReadDigits(cents) == n % 100
  {
    var c := n % 100;
    assert Remainder(n, 100) == c;
    ReadFormatNat(c);
    if c < 10 {
      assert Cents(n) == ['0', Digit(c)];
      assert Cents(n)[..1] == ['0'];
    } else {
      assert FormatNat(c) == FormatNat(c / 10) + [Digit(c % 10)];
    }
  }

  lemma TwoMoreDigits(whole: string, cents: string)
    requires AllDigits(whole) && AllDigits(cents) && |cents| == 2
    ensures AllDigits(whole + cents) && ReadDigits(whole + cents) == 100 * ReadDigits(whole) + ReadDigits(cents)
  {
    ReadOneMore([], cents[0]);
    ReadOneMore([cents[0]], cents[1]);
    ReadOneMore(whole, cents[0]);
    ReadOneMore(whole + [cents[0]], cents[1]);
    assert [] + [cents[0]] == [cents[0]];
    assert [cents[0]] + [cents[1]] == cents;
    assert whole + [cents[0]] + [cents[1]] == whole + cents;
  }

  lemma PlainParts(whole: string, cents: string)
    requires AllDigits(whole) && AllDigits(cents)
    ensures Plain(Grouped(whole) + "." + cents) == whole + cents
  {
    PlainGrouped(whole);
    PlainDigits(cents);
    PlainConcat(Grouped(whole) + ".", cents);
    PlainConcat(Grouped(whole), ".");
    assert Plain(".") == "";
    assert whole + "" == whole;
  }

  /** The digits of a sum that is not negative. */
  lemma PlainSum(n: nat)
    ensures var s := Plain(Sum(n)); s != "" && AllDigits(s) && ReadDigits(s) == n
  {
    var whole, cents := FormatNat(n / 100), Cents(n);
    CentsRead(n);
    PlainParts(whole, cents);
    assert Sum(n) == Grouped(whole) + "." + cents;
    ReadFormatNat(n / 100);
    TwoMoreDigits(whole, cents);
  }

  /** A sign in front is kept, and read. */
  lemma SignedReads(sign: char, s: string)
    requires sign == '-' || sign == '+'
    requires Plain(s) != "" && AllDigits(Plain(s))
    ensures var n := ReadDigits(Plain(s)) as int * (if sign == '-' then -1 else 1);
      ReadSum([sign] + s) == if InInt64(n) then Some(n) else None
  {
    hide ReadDigits;
    assert ([sign] + s)[1..] == s;
    assert Plain([sign] + s) == [sign] + Plain(s);
    assert ([sign] + Plain(s))[1..] == Plain(s);
  }

  lemma UnsignedReads(s: string)
    requires Plain(s) != "" && AllDigits(Plain(s))
    ensures ReadSum(s) == if InInt64(ReadDigits(Plain(s))) then Some(ReadDigits(Plain(s))) else None
  {
    assert IsDigit(Plain(s)[0]);
  }

  lemma NonNegativeReads(n: nat)
    requires InInt64(n)
    ensures ReadSum(Sum(n)) == Some(n) && ReadSum(['+'] + Sum(n)) == Some(n)
  {
    hide Sum, Plain, ReadSum, ReadDigits;
    PlainSum(n);
    UnsignedReads(Sum(n));
    SignedReads('+', Sum(n));
  }

  lemma NegativeReads(tiyin: int)
    requires MIN_INT64 < tiyin < 0
    ensures ReadSum(Sum(tiyin)) == Some(tiyin)
  {
    hide Sum, Plain, ReadSum, ReadDigits;
    PlainSum(-tiyin);
    NegativeSum(tiyin);
    SignedReads('-', Sum(-tiyin));
  }

  /** Writing a sum loses nothing exactly for the amounts that have a negative. */
  lemma SumReadsBack(tiyin: int)
    requires InInt64(tiyin)
    ensures ReadSum(Sum(tiyin)) == Some(tiyin) <==> tiyin != MIN_INT64
    ensures ReadSum(Signed(tiyin)) == Some(tiyin) <==> tiyin != MIN_INT64
  {
    if tiyin == MIN_INT64 {
      SmallestSum();
    } else if tiyin < 0 {
      NegativeReads(tiyin);
    } else {
      NonNegativeReads(tiyin);
      hide Sum;
      assert Signed(tiyin) in {Sum(tiyin), ['+'] + Sum(tiyin)};
    }
  }

  lemma NegativeSum(tiyin: int)
    requires MIN_INT64 < tiyin < 0
    ensures Sum(tiyin) == ['-'] + Sum(-tiyin)
  {
  }

  /** The smallest amount comes out with two more minus signs in it than any figure has. */
  lemma SmallestSum()
    ensures ReadSum(Sum(MIN_INT64)) == None
  {
    var out := Grouped(FormatInt(Quotient(MIN_INT64, 100))) + "." + Cents(MIN_INT64);
    assert Sum(MIN_INT64) == "-" + out;
    PlainConcat("-", out);
    assert Plain("-") == "-";
    PlainConcat(Grouped(FormatInt(Quotient(MIN_INT64, 100))) + ".", Cents(MIN_INT64));
    assert Remainder(MIN_INT64, 100) == -8;
    assert FormatInt(-8) == "-8";
    assert Cents(MIN_INT64) == "-8";
    assert Plain("-8") == "-8" by {
      assert "-8"[1..] == "8" && Plain("8") == "8";
    }
    var rest := Plain(out);
    assert rest[|rest| - 2] == '-';
    assert Plain(Sum(MIN_INT64))[1..] == rest;
  }

  // ---------- figures as they are written ----------

  /** A gap is a plain space, and it comes before every three digits from the right but the first of all. */
  lemma GroupedFromTheRight(digits: string, three: string)
    requires |three| == 3
    ensures |digits| <= 3 ==> Grouped(digits) == digits
    ensures Grouped(digits + three) == if digits == "" then three else Grouped(digits) + " " + three
  {
    var s := digits + three;
    assert s[..|s| - 3] == digits && s[|s| - 3..] == three;
  }

  /**
    An amount is its whole units in groups, a point, and its two figures of hundredths; a
    negative one, but for the smallest of all, is its opposite after a minus; and the sign of
    a positive one is shown only where it is asked for.
   */
  lemma SumExactly(n: nat, tiyin: int)
    ensures Sum(n) == Grouped(FormatNat(n / 100)) + "." + [Digit(n / 10 % 10), Digit(n % 10)]
    ensures MIN_INT64 < tiyin < 0 ==> Sum(tiyin) == "-" + Sum(-tiyin)
    ensures Signed(tiyin) == if 0 < tiyin then "+" + Sum(tiyin) else Sum(tiyin)
  {
    TwoFigures(n);
    assert Quotient(n, 100) == n / 100;
    hide Cents, Grouped, FormatNat, Quotient;
    if MIN_INT64 < tiyin < 0 {
      NegativeSum(tiyin);
    }
  }

  lemma TwoFigures(n: nat)
    ensures Cents(n) == [Digit(n / 10 % 10), Digit(n % 10)]
  {
    var c := n % 100;
    TwoPlaces(n);
    if c < 10 {
      assert FormatInt(c) == [Digit(c)];
    } else {
      assert FormatNat(c / 10) == [Digit(c / 10)];
      assert FormatInt(c) == [Digit(c / 10), Digit(c % 10)];
    }
    hide FormatInt, FormatNat;
  }

  lemma TwoPlaces(n: nat)
    ensures Remainder(n, 100) == n % 100 && n % 100 / 10 == n / 10 % 10 && n % 100 % 10 == n % 10
  {
    var q, c := n / 100, n % 100;
    assert n == 100 * q + c;
    TensAndUnits(q, c);
    UnitsOf(10 * q + c / 10, q, c / 10);
  }

  lemma TensAndUnits(q: nat, c: nat)
    requires c < 100
    ensures (100 * q + c) / 10 == 10 * q + c / 10 && (100 * q + c) % 10 == c % 10
  {
    var t, u := c / 10, c % 10;
    assert c == 10 * t + u;
    assert 100 * q + c == 10 * (10 * q + t) + u;
  }

  lemma UnitsOf(n: nat, q: nat, u: nat)
    requires n == 10 * q + u && u < 10
    ensures n % 10 == u
  {
  }
}
