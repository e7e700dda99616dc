/** Reading a checkout link gives back what was written: for exactly which receipts, and with what lost. */
module CheckoutProofs {
  import opened Common
  import opened Checkout
  import Base64
  import Decimal

  /** Nothing in the receipt can be taken for a separator. */
  predicate Writable(r: ReceiptRow) {
    && ';' !in r.merchantID && ';' !in r.lang && ';' !in r.callback
    && forall f :: f in r.account ==> f != "" && '=' !in f && ';' !in f && ';' !in r.account[f]
  }

  ghost function Encoded(r: ReceiptRow): string
    requires r.Sized()
  {
    PartsSized(r);
    Base64.Encode(Join(Parts(r)))
  }

  /** What a link keeps of a receipt: no description, no detail, and no figure that is not positive. */
  function Kept(r: ReceiptRow): ReceiptRow {
    r.(description := "", detail := None,
       callbackTimeout := if r.callbackTimeout > 0 then r.callbackTimeout else 0,
       currency := if r.currency > 0 then r.currency else 0)
  }

  // ---------- one pair, then many ----------

  lemma PairApplies(r: ReceiptRow, key: string, value: string)
    requires '=' !in key
    ensures AppliedPair(r, key + "=" + value) == Applied(r, key, value)
  {
    var pair := key + "=" + value;
    EqualsAfter(key, value);
    assert pair[..|key|] == key && pair[|key| + 1..] == value;
  }

  lemma {:induction false} AppliedConcat(r: ReceiptRow, p: seq<string>, q: seq<string>)
    ensures AppliedAll(r, p + q) ==
      match AppliedAll(r, p)
      case None => None
      case Some(before) => AppliedAll(before, q)
  {
    hide AppliedPair;
    if q == [] {
      assert p + q == p;
    } else {
      var n := |q| - 1;
      AppliedConcat(r, p, q[..n]);
      assert (p + q)[..|p + q| - 1] == p + q[..n];
    }
  }

  lemma AppliedOne(r: ReceiptRow, pair: string)
    ensures AppliedAll(r, [pair]) == AppliedPair(r, pair)
  {
    assert [pair][..0] == [];
  }

  /** One key written and read. */
  lemma KeyReads(r: ReceiptRow, key: string, prefix: string, value: string)
    requires '=' !in key && prefix == key + "="
    ensures AppliedAll(r, [prefix + value]) == Applied(r, key, value)
  {
    AppliedOne(r, prefix + value);
    PairApplies(r, key, value);
    assert prefix + value == key + "=" + value;
  }

  // ---------- the account ----------

  function Taken(base: map<string, string>, account: map<string, string>, fields: seq<string>): map<string, string>
    requires forall k :: 0 <= k < |fields| ==> fields[k] in account
  {
    if fields == [] then base
    else Taken(base, account, fields[..|fields| - 1])[fields[|fields| - 1] := account[fields[|fields| - 1]]]
  }

  lemma FieldApplies(r: ReceiptRow, field: string, value: string)
    requires field != "" && '=' !in field
    ensures AppliedPair(r, "ac." + field + "=" + value) == Some(r.(account := r.account[field := value]))
  {
    var key := "ac." + field;
    assert key[3..] == field && "ac." <= key;
    assert '=' !in "ac.";
    PairApplies(r, key, value);
  }

  lemma {:induction false} AccountApplies(r: ReceiptRow, account: map<string, string>, fields: seq<string>)
    requires forall k :: 0 <= k < |fields| ==> fields[k] in account && fields[k] != "" && '=' !in fields[k]
    ensures AppliedAll(r, AccountParts(account, fields)) == Some(r.(account := Taken(r.account, account, fields)))
  {
    hide AppliedPair;
    if fields != [] {
      var n := |fields| - 1;
      AccountApplies(r, account, fields[..n]);
      var before := r.(account := Taken(r.account, account, fields[..n]));
      FieldApplies(before, fields[n], account[fields[n]]);
      var parts := AccountParts(account, fields);
      assert parts[..|parts| - 1] == AccountParts(account, fields[..n]);
    }
  }

  lemma {:induction false} TakenAll(account: map<string, string>, fields: seq<string>)
    requires forall k :: 0 <= k < |fields| ==> fields[k] in account
    ensures var taken := Taken(map[], account, fields);
      && (forall f :: f in taken <==> f in fields)
      && (forall f :: f in taken ==> taken[f] == account[f])
  {
    if fields != [] {
      var n := |fields| - 1;
      TakenAll(account, fields[..n]);
      assert fields == fields[..n] + [fields[n]];
    }
  }

  lemma AccountReads(r: ReceiptRow, account: map<string, string>)
    requires r.account == map[] && forall f :: f in account ==> f != "" && '=' !in f
    ensures (FieldsKnown(account); AppliedAll(r, AccountParts(account, Fields(account)))) == Some(r.(account := account))
  {
    FieldsKnown(account);
    hide Fields;
    AccountApplies(r, account, Fields(account));
    TakenAll(account, Fields(account));
    assert Taken(map[], account, Fields(account)) == account;
  }

  // ---------- the rest ----------

  /** What each key of one or two letters assigns. */
  lemma ShortKeys(r: ReceiptRow, s: string)
    ensures Applied(r, "m", s) == Some(r.(merchantID := s))
    ensures Applied(r, "l", s) == Some(r.(lang := s))
    ensures Applied(r, "c", s) == Some(r.(callback := s))
    ensures Decimal.ParseInt(s).Some? ==>
      var n := Decimal.ParseInt(s).value;
      && Applied(r, "a", s) == Some(r.(amount := n))
      && Applied(r, "ct", s) == Some(r.(callbackTimeout := n))
      && Applied(r, "cr", s) == Some(r.(currency := n))
  {
    hide Decimal.ParseInt;
    assert |"ac."| == 3 && |"ct"| == 2 && |"cr"| == 2 && |"m"| == 1 && |"l"| == 1 && |"c"| == 1 && |"a"| == 1;
  }

  lemma AmountReads(r: ReceiptRow, n: int)
    requires Decimal.InInt64(n)
    ensures AppliedAll(r, ["a=" + Decimal.FormatInt(n)]) == Some(r.(amount := n))
    ensures AppliedAll(r, ["ct=" + Decimal.FormatInt(n)]) == Some(r.(callbackTimeout := n))
    ensures AppliedAll(r, ["cr=" + Decimal.FormatInt(n)]) == Some(r.(currency := n))
  {
    var text := Decimal.FormatInt(n);
    Decimal.ParseFormatInt(n);
    hide Decimal.FormatInt, Decimal.ParseInt, AppliedAll, Applied;
    ShortKeys(r, text);
    KeyReads(r, "a", "a=", text);
    KeyReads(r, "ct", "ct=", text);
    KeyReads(r, "cr", "cr=", text);
  }

  lemma TextReads(r: ReceiptRow, s: string)
    ensures AppliedAll(r, ["m=" + s]) == Some(r.(merchantID := s))
    ensures AppliedAll(r, ["l=" + s]) == Some(r.(lang := s))
    ensures AppliedAll(r, ["c=" + s]) == Some(r.(callback := s))
  {
    hide AppliedAll, Applied;
    ShortKeys(r, s);
    KeyReads(r, "m", "m=", s);
    KeyReads(r, "l", "l=", s);
    KeyReads(r, "c", "c=", s);
  }

  lemma TailReads(r: ReceiptRow, x: ReceiptRow)
    requires Decimal.InInt64(x.amount) && Decimal.InInt64(x.callbackTimeout) && Decimal.InInt64(x.currency)
    requires r.lang == "" && r.callback == "" && r.callbackTimeout == 0 && r.currency == 0
    ensures AppliedAll(r, Tail(x)) ==
      Some(r.(amount := x.amount, lang := x.lang, callback := x.callback,
              callbackTimeout := Kept(x).callbackTimeout, currency := Kept(x).currency))
  {
    hide AppliedAll, Decimal.FormatInt;
    var a := ["a=" + Decimal.FormatInt(x.amount)];
    var l := if x.lang != "" then ["l=" + x.lang] else [];
    var c := if x.callback != "" then ["c=" + x.callback] else [];
    var ct := if x.callbackTimeout > 0 then ["ct=" + Decimal.FormatInt(x.callbackTimeout)] else [];
    var cr := if x.currency > 0 then ["cr=" + Decimal.FormatInt(x.currency)] else [];
    AmountReads(r, x.amount);
    var r1 := r.(amount := x.amount);
    var r2 := r1.(lang := x.lang);
    var r3 := r2.(callback := x.callback);
    var r4 := r3.(callbackTimeout := Kept(x).callbackTimeout);
    var r5 := r4.(currency := Kept(x).currency);
    NothingReads(r1);
    NothingReads(r2);
    NothingReads(r3);
    NothingReads(r4);
    TextReads(r1, x.lang);
    TextReads(r2, x.callback);
    AmountReads(r3, x.callbackTimeout);
    AmountReads(r4, x.currency);
    AppliedConcat(r, a, l);
    AppliedConcat(r, a + l, c);
    AppliedConcat(r, a + l + c, ct);
    AppliedConcat(r, a + l + c + ct, cr);
    assert Tail(x) == a + l + c + ct + cr;
  }

  lemma NothingReads(r: ReceiptRow)
    ensures AppliedAll(r, []) == Some(r)
  {
  }

  lemma PartsRead(r: ReceiptRow)
    requires r.Sized() && Writable(r)
    ensures AppliedAll(BLANK, Parts(r)) == Some(Kept(r))
  {
    FieldsKnown(r.account);
    hide AppliedAll, Fields, Tail;
    var m, ac := ["m=" + r.merchantID], AccountParts(r.account, Fields(r.account));
    TextReads(BLANK, r.merchantID);
    var r1 := BLANK.(merchantID := r.merchantID);
    AccountReads(r1, r.account);
    TailReads(r1.(account := r.account), r);
    AppliedConcat(BLANK, m, ac);
    AppliedConcat(BLANK, m + ac, Tail(r));
    assert Parts(r) == m + ac + Tail(r);
  }

  // ---------- splitting what was joined ----------

  lemma {:induction false} AccountPartsPlain(account: map<string, string>, fields: seq<string>)
    requires forall k :: 0 <= k < |fields| ==> fields[k] in account
    requires forall f :: f in account ==> ';' !in f && ';' !in account[f]
    ensures Plain(AccountParts(account, fields))
  {
    if fields != [] {
      AccountPartsPlain(account, fields[..|fields| - 1]);
    }
  }

  lemma TailPlain(r: ReceiptRow)
    requires Writable(r)
    ensures Plain(Tail(r))
  {
    FormatBytes(r.amount);
    FormatBytes(r.callbackTimeout);
    FormatBytes(r.currency);
    hide Decimal.FormatInt;
  }

  /** The parts hold no semicolon. */
  predicate Plain(parts: seq<string>) { forall k :: 0 <= k < |parts| ==> ';' !in parts[k] }

  lemma PartsPlain(r: ReceiptRow)
    requires Writable(r)
    ensures Parts(r) != [] && Plain(Parts(r))
  {
    FieldsKnown(r.account);
    AccountPartsPlain(r.account, Fields(r.account));
    TailPlain(r);
    hide Tail, Fields, AccountParts;
    var m, ac := ["m=" + r.merchantID], AccountParts(r.account, Fields(r.account));
    assert Plain(m);
    PlainConcat(m, ac);
    PlainConcat(m + ac, Tail(r));
    assert Parts(r) == m + ac + Tail(r);
  }

  lemma PartsSplit(r: ReceiptRow)
    requires Writable(r)
    ensures Split(Join(Parts(r))) == Parts(r)
  {
    PartsPlain(r);
    hide Parts, Split, Join;
    SplitJoin(Parts(r));
  }

  lemma PlainConcat(p: seq<string>, q: seq<string>)
    requires Plain(p) && Plain(q)
    ensures Plain(p + q)
  {
  }

  lemma TrimNothing(s: string)
    requires forall k :: 0 <= k < |s| ==> !IsSpace(s[k])
    ensures Trim(s) == s
  {
  }

  lemma EncodedTrims(s: string)
    requires Base64.Bytes(s)
    ensures Trim(Base64.Encode(s)) == Base64.Encode(s)
  {
    Base64.EncodesClean(s);
    forall k | 0 <= k < |Base64.Encode(s)| ensures !IsSpace(Base64.Encode(s)[k]) {
    }
    hide Base64.Encode;
    TrimNothing(Base64.Encode(s));
  }

  /** A writable receipt reads back as what a link keeps of it, or not at all when it lacks what a payment needs. */
  lemma WritableReads(r: ReceiptRow)
    requires r.Sized() && Writable(r)
    ensures Parsed(Encoded(r)) == if r.Validates() then Some(Kept(r)) else None
  {
    PartsSized(r);
    EncodedTrims(Join(Parts(r)));
    Base64.RoundTrip(Join(Parts(r)));
    PartsSplit(r);
    PartsRead(r);
    hide Parts, Split, Join, AppliedAll, Base64.Encode, Base64.Decode;
  }

  // ---------- what reading can give ----------

  lemma AppliedWritable(r: ReceiptRow, key: string, value: string)
    requires Writable(r) && '=' !in key && ';' !in key && ';' !in value
    ensures Applied(r, key, value).Some? ==> Writable(Applied(r, key, value).value)
  {
    hide Decimal.ParseInt;
    if "ac." <= key && key != "ac." {
      assert key == key[..3] + key[3..];
      assert key[..3] == "ac.";
    }
  }

  lemma {:induction false} AllWritable(r: ReceiptRow, pairs: seq<string>)
    requires Writable(r) && forall k :: 0 <= k < |pairs| ==> ';' !in pairs[k]
    ensures AppliedAll(r, pairs).Some? ==> Writable(AppliedAll(r, pairs).value)
  {
    if pairs != [] {
      var n := |pairs| - 1;
      AllWritable(r, pairs[..n]);
      hide Applied;
      var before := AppliedAll(r, pairs[..n]);
      var i := EqualsAt(pairs[n]);
      if before.Some? && i < |pairs[n]| {
        assert pairs[n] == pairs[n][..i] + [pairs[n][i]] + pairs[n][i + 1..];
        AppliedWritable(before.value, pairs[n][..i], pairs[n][i + 1..]);
      }
    }
  }

  /** Whatever text is read, what comes of it could have been written. */
  lemma ReadsWritable(encoded: string)
    ensures Parsed(encoded).Some? ==> Writable(Parsed(encoded).value) && Parsed(encoded).value.Validates()
  {
    if Parsed(encoded).Some? {
      var raw := Base64.Decode(Trim(encoded)).value;
      SplitClean(raw);
      AllWritable(BLANK, Split(raw));
    }
  }

  // ---------- the round trip ----------

  /**
    Reading undoes writing, with only the description and the detail dropped, exactly for the
    receipts that validate, have nothing in them that reads as a separator and no field
    without a name, and whose timeout and currency are not negative.
   */
  lemma ReadsBackExactlyWhen(r: ReceiptRow)
    requires r.Sized()
    ensures Parsed(Encoded(r)) == Some(r.(description := "", detail := None)) <==>
            r.Validates() && Writable(r) && 0 <= r.callbackTimeout && 0 <= r.currency
  {
    hide Parsed, Encoded;
    ReadsWritable(Encoded(r));
    if Writable(r) {
      WritableReads(r);
    }
  }

  /** Receipts that read back are told apart by their links, up to what a link does not carry. */
  lemma LinksTellApart(r: ReceiptRow, q: ReceiptRow)
    requires r.Sized() && r.Validates() && Writable(r) && 0 <= r.callbackTimeout && 0 <= r.currency
    requires q.Sized() && q.Validates() && Writable(q) && 0 <= q.callbackTimeout && 0 <= q.currency
    ensures Encoded(r) == Encoded(q) ==> r == q.(description := r.description, detail := r.detail)
  {
    hide Parsed, Encoded;
    ReadsBackExactlyWhen(r);
    ReadsBackExactlyWhen(q);
  }

  // ---------- form fields ----------

  /** The field a form key names, as account[field] does. */
  function AccountField(key: string): Option<string> {
    if !("account[" <= key) then None
    else
      var inner := key[8..];
      if inner == "" || inner[|inner| - 1] != ']' || inner == "]" then None else Some(inner[..|inner| - 1])
  }

  /** A key names a field exactly when it is that field, not empty, in the brackets. */
  lemma NamesField(key: string, field: string)
    ensures AccountField(key) == Some(field) <==> field != "" && key == "account[" + field + "]"
  {
    if "account[" <= key {
      assert key == "account[" + key[8..];
      var inner := key[8..];
      if inner != "" && inner[|inner| - 1] == ']' {
        assert inner == inner[..|inner| - 1] + "]";
      }
    }
    if key == "account[" + field + "]" {
      assert key[8..] == field + "]";
      assert (field + "]")[..|field|] == field;
    }
  }
}
