/**
  Base64 as Go's standard encoding writes and reads it (section 4 of RFC 4648): padded,
  line breaks skipped while reading, and the unused bits of the last group ignored.
  A Go string is a sequence of bytes, so here every character is below 256.
 */
module Base64 {
  import opened Common

  predicate IsByte(c: char) { c < 256 as char }

  predicate Bytes(s: string) { forall k :: 0 <= k < |s| ==> IsByte(s[k]) }

  const PAD: char := '='

  /** The character of a six-bit value. */
  function Symbol(v: nat): (c: char)
    requires v < 64
    ensures Value(c) == Some(v) && c != PAD && c != '\r' && c != '\n'
  {
    if v < 26 then 'A' + v as char
    else if v < 52 then 'a' + (v - 26) as char
    else if v < 62 then '0' + (v - 52) as char
    else if v == 62 then '+' else '/'
  }

  function Value(c: char): (v: Option<nat>)
    ensures v.Some? ==> v.value < 64
  {
    if 'A' <= c <= 'Z' then Some(c as int - 'A' as int)
    else if 'a' <= c <= 'z' then Some(c as int - 'a' as int + 26)
    else if '0' <= c <= '9' then Some(c as int - '0' as int + 52)
    else if c == '+' then Some(62)
    else if c == '/' then Some(63)
    else None
  }

  /** Four characters for three bytes. */
  function Group(a: nat, b: nat, c: nat): (s: string)
    requires a < 256 && b < 256 && c < 256
    ensures |s| == 4
  {
    [Symbol(a / 4), Symbol(a % 4 * 16 + b / 16), Symbol(b % 16 * 4 + c / 64), Symbol(c % 64)]
  }

  function Encode(s: string): string
    requires Bytes(s)
  {
    if s == "" then ""
    else
      var a := s[0] as nat;
      if |s| == 1 then Group(a, 0, 0)[..2] + [PAD, PAD]
      else
        var b := s[1] as nat;
        if |s| == 2 then Group(a, b, 0)[..3] + [PAD]
        else Group(a, b, s[2] as nat) + Encode(s[3..])
  }

  function Chars(a: nat, b: nat, c: nat): (s: string)
    requires a < 256 && b < 256 && c < 256
    ensures |s| == 3 && Bytes(s)
  {
    [a as char, b as char, c as char]
  }

  /** The three bytes of four six-bit values. */
  function Ungroup(w: nat, x: nat, y: nat, z: nat): (s: string)
    requires w < 64 && x < 64 && y < 64 && z < 64
    ensures |s| == 3 && Bytes(s)
  {
    Chars(w * 4 + x / 16, x % 16 * 16 + y / 4, y % 4 * 64 + z)
  }

  /** Reads whole groups; padding may end the last one, and nothing follows it. */
  function DecodeGroups(s: string): (t: Option<string>)
    ensures t.Some? ==> Bytes(t.value)
  {
    if s == "" then Some("")
    else if |s| < 4 || Value(s[0]).None? || Value(s[1]).None? then None
    else
      var w, x, rest := Value(s[0]).value, Value(s[1]).value, s[4..];
      if s[2] == PAD then
        if s[3] == PAD && rest == "" then Some(Ungroup(w, x, 0, 0)[..1]) else None
      else if Value(s[2]).None? then None
      else
        var y := Value(s[2]).value;
        if s[3] == PAD then if rest == "" then Some(Ungroup(w, x, y, 0)[..2]) else None
        else if Value(s[3]).None? || DecodeGroups(rest).None? then None
        else Some(Ungroup(w, x, y, Value(s[3]).value) + DecodeGroups(rest).value)
  }

  function WithoutBreaks(s: string): string {
    if s == "" then "" else (if s[0] == '\r' || s[0] == '\n' then "" else [s[0]]) + WithoutBreaks(s[1..])
  }

  function Decode(s: string): (t: Option<string>)
    ensures t.Some? ==> Bytes(t.value)
  {
    DecodeGroups(WithoutBreaks(s))
  }

  lemma GroupReads(a: nat, b: nat, c: nat)
    requires a < 256 && b < 256 && c < 256
    ensures var s := Group(a, b, c);
      && Value(s[0]) == Some(a / 4) && Value(s[1]) == Some(a % 4 * 16 + b / 16)
      && Value(s[2]) == Some(b % 16 * 4 + c / 64) && Value(s[3]) == Some(c % 64)
      && Ungroup(a / 4, a % 4 * 16 + b / 16, b % 16 * 4 + c / 64, c % 64) == Chars(a, b, c)
  {
    assert (a % 4 * 16 + b / 16) / 16 == a % 4 && (a % 4 * 16 + b / 16) % 16 == b / 16;
    assert (b % 16 * 4 + c / 64) / 4 == b % 16 && (b % 16 * 4 + c / 64) % 4 == c / 64;
  }

  /** A full group reads as its three bytes, whatever follows it. */
  lemma ReadsGroup(a: nat, b: nat, c: nat, rest: string)
    requires a < 256 && b < 256 && c < 256 && DecodeGroups(rest).Some?
    ensures DecodeGroups(Group(a, b, c) + rest) == Some(Chars(a, b, c) + DecodeGroups(rest).value)
  {
    GroupReads(a, b, c);
    hide Value, Ungroup, Chars;
    var s := Group(a, b, c) + rest;
    assert s[..4] == Group(a, b, c) && s[4..] == rest;
    assert s[2] == Group(a, b, c)[2] && s[3] == Group(a, b, c)[3];
    NoPad(s[2]);
    NoPad(s[3]);
  }

  lemma NoPad(c: char)
    ensures Value(c).Some? ==> c != PAD
  {
  }

  lemma ReadsOne(a: nat)
    requires a < 256
    ensures DecodeGroups(Group(a, 0, 0)[..2] + [PAD, PAD]) == Some([a as char])
  {
    GroupReads(a, 0, 0);
    hide Value, Ungroup, Group;
    var s := Group(a, 0, 0)[..2] + [PAD, PAD];
    assert s[0] == Group(a, 0, 0)[0] && s[1] == Group(a, 0, 0)[1];
    assert DecodeGroups(s) == Some(Ungroup(a / 4, a % 4 * 16 + 0 / 16, 0, 0)[..1]);
    assert 0 % 16 * 4 + 0 / 64 == 0 && 0 % 64 == 0;
    assert Chars(a, 0, 0)[..1] == [a as char];
  }

  lemma ReadsTwo(a: nat, b: nat)
    requires a < 256 && b < 256
    ensures DecodeGroups(Group(a, b, 0)[..3] + [PAD]) == Some([a as char, b as char])
  {
    GroupReads(a, b, 0);
    hide Value, Ungroup, Group;
    var s := Group(a, b, 0)[..3] + [PAD];
    assert s[0] == Group(a, b, 0)[0] && s[1] == Group(a, b, 0)[1] && s[2] == Group(a, b, 0)[2];
    NoPad(s[2]);
    assert DecodeGroups(s) == Some(Ungroup(a / 4, a % 4 * 16 + b / 16, b % 16 * 4 + 0 / 64, 0)[..2]);
    assert 0 % 64 == 0;
    assert Chars(a, b, 0)[..2] == [a as char, b as char];
  }

  lemma {:induction false} DecodesGroups(s: string)
    requires Bytes(s)
    ensures DecodeGroups(Encode(s)) == Some(s)
  {
    hide DecodeGroups, Group, Symbol;
    if |s| == 1 {
      ReadsOne(s[0] as nat);
      assert s == [s[0]];
    } else if |s| == 2 {
      ReadsTwo(s[0] as nat, s[1] as nat);
      assert s == [s[0], s[1]];
    } else if |s| > 2 {
      DecodesGroups(s[3..]);
      ReadsGroup(s[0] as nat, s[1] as nat, s[2] as nat, Encode(s[3..]));
      assert s == Chars(s[0] as nat, s[1] as nat, s[2] as nat) + s[3..];
    } else {
      ReadsNothing();
    }
  }

  lemma ReadsNothing()
    ensures DecodeGroups("") == Some("")
  {
  }

  predicate NoBreaks(s: string) { forall k :: 0 <= k < |s| ==> s[k] != '\r' && s[k] != '\n' }

  lemma {:induction false} BreaksOnly(s: string)
    requires NoBreaks(s)
    ensures WithoutBreaks(s) == s
  {
    if s != "" {
      BreaksOnly(s[1..]);
    }
  }

  lemma {:induction false} EncodesClean(s: string)
    requires Bytes(s)
    ensures forall k :: 0 <= k < |Encode(s)| ==> Encode(s)[k] == PAD || Value(Encode(s)[k]).Some?
  {
    if |s| > 2 {
      EncodesClean(s[3..]);
    }
  }

  /** Reading what was written gives the bytes back. */
  lemma RoundTrip(s: string)
    requires Bytes(s)
    ensures Decode(Encode(s)) == Some(s)
  {
    EncodesClean(s);
    BreaksOnly(Encode(s));
    DecodesGroups(s);
  }

  // ---------- the alphabet and the bits ----------

  const CAPITALS := "ABCDEFGHIJKLMNOPQRSTUVWXYZ"
  const SMALL := "abcdefghijklmnopqrstuvwxyz"
  const FIGURES := "0123456789"

  /** The symbols are those of the standard alphabet: capitals, small letters, figures, plus and slash. */
  lemma SymbolsAre(v: nat)
    ensures v < 26 ==> Symbol(v) == CAPITALS[v]
    ensures 26 <= v < 52 ==> Symbol(v) == SMALL[v - 26]
    ensures 52 <= v < 62 ==> Symbol(v) == FIGURES[v - 52]
    ensures Symbol(62) == '+' && Symbol(63) == '/'
  {
  }

  /** Four symbols spell the 24 bits of three bytes, the first byte and the first symbol highest. */
  lemma GroupSpells(a: nat, b: nat, c: nat)
    requires a < 256 && b < 256 && c < 256
    ensures var s := Group(a, b, c);
      && (forall k :: 0 <= k < 4 ==> Value(s[k]).Some?)
      && 262144 * Value(s[0]).value + 4096 * Value(s[1]).value + 64 * Value(s[2]).value + Value(s[3]).value ==
         65536 * a + 256 * b + c
  {
    GroupReads(a, b, c);
    hide Group, Value;
  }

  /** A last byte alone, and a last two, are padded to a group with the sign for it. */
  lemma LastGroup(a: char, b: char)
    requires IsByte(a) && IsByte(b)
    ensures var s := Encode([a]); |s| == 4 && s[..2] == Group(a as nat, 0, 0)[..2] && s[2..] == "=="
    ensures var s := Encode([a, b]); |s| == 4 && s[..3] == Group(a as nat, b as nat, 0)[..3] && s[3..] == "="
  {
  }

  // ---------- which texts are read ----------

  /** Whole groups of symbols, the last so many of them padding. */
  predicate Spelled(s: string, pads: nat) {
    && |s| % 4 == 0 && pads <= 2 && pads <= |s|
    && (forall k :: 0 <= k < |s| - pads ==> Value(s[k]).Some?)
    && (forall k :: |s| - pads <= k < |s| ==> s[k] == PAD)
  }

  /**
    Text without line breaks is read exactly when it is spelled so, and gives three bytes a
    group, less one for each pad.
   */
  lemma {:induction false} ReadsSpelled(s: string, pads: nat)
    ensures DecodeGroups(s).Some? <==> Spelled(s, 0) || Spelled(s, 1) || Spelled(s, 2)
    ensures DecodeGroups(s).Some? && Spelled(s, pads) ==> |DecodeGroups(s).value| == |s| / 4 * 3 - pads
  {
    if |s| > 4 {
      ReadsSpelled(s[4..], pads);
      DecodesOn(s);
      SpelledOn(s, 0);
      SpelledOn(s, 1);
      SpelledOn(s, 2);
      SpelledOn(s, pads);
      hide DecodeGroups, Spelled;
    } else if |s| == 4 {
      DecodesGroup(s);
      PadIsNone();
      hide DecodeGroups, Value;
    } else {
      hide Value, Ungroup;
    }
  }

  lemma DecodesOn(s: string)
    requires |s| > 4
    ensures DecodeGroups(s).Some? <==> (forall k :: 0 <= k < 4 ==> Value(s[k]).Some?) && DecodeGroups(s[4..]).Some?
    ensures DecodeGroups(s).Some? ==> |DecodeGroups(s).value| == 3 + |DecodeGroups(s[4..]).value|
  {
    PadIsNone();
    hide Value, Ungroup;
  }

  lemma DecodesGroup(s: string)
    requires |s| == 4
    ensures var pads: nat := if s[2] == PAD then 2 else if s[3] == PAD then 1 else 0;
      && (DecodeGroups(s).Some? <==> (forall k :: 0 <= k < 4 - pads ==> Value(s[k]).Some?) && (pads == 2 ==> s[3] == PAD))
      && (DecodeGroups(s).Some? ==> |DecodeGroups(s).value| == 3 - pads)
  {
    PadIsNone();
    assert s[4..] == "";
    hide Value, Ungroup;
  }

  lemma SpelledOn(s: string, pads: nat)
    requires |s| > 4
    ensures Spelled(s, pads) <==> (forall k :: 0 <= k < 4 ==> Value(s[k]).Some?) && Spelled(s[4..], pads)
  {
    PadIsNone();
    hide Value;
    var rest := s[4..];
    assert forall k :: 4 <= k < |s| ==> s[k] == rest[k - 4];
    assert forall k :: 0 <= k < |rest| ==> rest[k] == s[k + 4];
  }

  lemma PadIsNone()
    ensures Value(PAD).None?
  {
  }

  /** Line breaks in the text count for nothing, wherever they are. */
  lemma {:induction false} BreaksDropped(s: string, rest: string)
    ensures Decode(s + "\n" + rest) == Decode(s + rest) && Decode(s + "\r" + rest) == Decode(s + rest)
  {
    BreakDropped(s, '\n', rest);
    BreakDropped(s, '\r', rest);
  }

  lemma {:induction false} BreakDropped(s: string, c: char, rest: string)
    requires c == '\n' || c == '\r'
    ensures WithoutBreaks(s + [c] + rest) == WithoutBreaks(s + rest)
  {
    if s == "" {
      assert [c] + rest == s + [c] + rest && s + rest == rest;
      assert ([c] + rest)[1..] == rest;
    } else {
      BreakDropped(s[1..], c, rest);
      assert (s + [c] + rest)[1..] == s[1..] + [c] + rest && (s + rest)[1..] == s[1..] + rest;
    }
  }

  /** What a last group spells beyond its bytes is dropped. */
  lemma LastReads(w: char, x: char, y: char)
    requires Value(w).Some? && Value(x).Some? && Value(y).Some?
    ensures var bits := 4096 * Value(w).value + 64 * Value(x).value + Value(y).value;
      && DecodeGroups([w, x, PAD, PAD]) == Some([(bits / 1024) as char])
      && DecodeGroups([w, x, y, PAD]) == Some([(bits / 1024) as char, (bits / 4 % 256) as char])
  {
    PadIsNone();
    var i, j, k := Value(w).value, Value(x).value, Value(y).value;
    HighBits(i, j, k);
    assert Ungroup(i, j, 0, 0)[..1] == [(i * 4 + j / 16) as char];
    assert Ungroup(i, j, k, 0)[..2] == [(i * 4 + j / 16) as char, (j % 16 * 16 + k / 4) as char];
    hide Value, Ungroup;
  }

  lemma HighBits(w: nat, x: nat, y: nat)
    requires w < 64 && x < 64 && y < 64
    ensures var bits := 4096 * w + 64 * x + y;
      bits / 1024 == w * 4 + x / 16 < 256 && bits / 4 % 256 == x % 16 * 16 + y / 4 < 256
  {
    var bits := 4096 * w + 64 * x + y;
    assert x == x / 16 * 16 + x % 16 && y == y / 4 * 4 + y % 4;
    assert bits == 1024 * (w * 4 + x / 16) + (64 * (x % 16) + y);
    assert bits == 4 * (256 * (w * 4 + x / 16) + (x % 16 * 16 + y / 4)) + y % 4;
  }
}
