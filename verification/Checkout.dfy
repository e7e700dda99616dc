/**
  The checkout link: a receipt written as base64 parameters and read back
  (internal/context/payment/checkout/domain/receipt.go and parse.go).  None stands for the
  one error both sides know, a malformed receipt.
 */
module Checkout {
  import opened Common
  import Base64
  import Decimal

  datatype ReceiptRow = ReceiptRow(
    merchantID: string, account: map<string, string>, amount: int, lang: string, callback: string,
    callbackTimeout: int, currency: int, description: string, detail: Option<string>)
  {
    /** What a payment needs. */
    predicate Validates() { merchantID != "" && 0 < amount && account != map[] }

    /** Go's own bounds: strings are bytes, and integers have 64 bits. */
    predicate Sized() {
      && Base64.Bytes(merchantID) && Base64.Bytes(lang) && Base64.Bytes(callback)
      && (forall f :: f in account ==> Base64.Bytes(f) && Base64.Bytes(account[f]))
      && Decimal.InInt64(amount) && Decimal.InInt64(callbackTimeout) && Decimal.InInt64(currency)
    }
  }

  const BLANK := ReceiptRow("", map[], 0, "", "", 0, 0, "", None)

  // ---------- text ----------

  function Join(parts: seq<string>): string {
    if parts == [] then ""
    else if |parts| == 1 then parts[0]
    else parts[0] + ";" + Join(parts[1..])
  }

  /** The pieces between semicolons. */
  function Split(s: string): (pieces: seq<string>)
    ensures pieces != []
  {
    if s == "" then [""]
    else if s[0] == ';' then [""] + Split(s[1..])
    else [[s[0]] + Split(s[1..])[0]] + Split(s[1..])[1..]
  }

  lemma {:induction false} SplitOne(s: string)
    requires ';' !in s
    ensures Split(s) == [s]
  {
    if s != "" {
      assert s[0] in s;
      SplitOne(s[1..]);
      assert [s[0]] + s[1..] == s;
    }
  }

  lemma {:induction false} SplitFirst(s: string, t: string)
    requires ';' !in s
    ensures Split(s + ";" + t) == [s] + Split(t)
  {
    var whole := s + ";" + t;
    if s == "" {
      assert whole[1..] == t;
    } else {
      assert whole[1..] == s[1..] + ";" + t;
      assert whole[0] == s[0] && s[0] in s;
      SplitFirst(s[1..], t);
      assert [s[0]] + s[1..] == s;
    }
  }

  lemma {:induction false} SplitJoin(parts: seq<string>)
    requires parts != [] && forall k :: 0 <= k < |parts| ==> ';' !in parts[k]
    ensures Split(Join(parts)) == parts
  {
    if |parts| == 1 {
      SplitOne(parts[0]);
    } else {
      SplitJoin(parts[1..]);
      SplitFirst(parts[0], Join(parts[1..]));
    }
  }

  lemma {:induction false} SplitClean(s: string)
    ensures forall k :: 0 <= k < |Split(s)| ==> ';' !in Split(s)[k]
  {
    if s != "" {
      SplitClean(s[1..]);
    }
  }

  /** Where the first equals sign is, or the length. */
  function EqualsAt(s: string): (i: nat)
    ensures i <= |s| && '=' !in s[..i] && (i < |s| ==> s[i] == '=')
  {
    if s == "" || s[0] == '=' then 0 else 1 + EqualsAt(s[1..])
  }

  lemma {:induction false} EqualsAfter(key: string, value: string)
    requires '=' !in key
    ensures EqualsAt(key + "=" + value) == |key|
  {
    var s := key + "=" + value;
    if key != "" {
      assert s[1..] == key[1..] + "=" + value;
      EqualsAfter(key[1..], value);
    }
  }

  predicate IsSpace(c: char) { c == ' ' || c == '\t' || c == '\n' || c == '\r' || c == 11 as char || c == 12 as char }

  function TrimLeft(s: string): string { if s != "" && IsSpace(s[0]) then TrimLeft(s[1..]) else s }

  function TrimRight(s: string): string {
    if s != "" && IsSpace(s[|s| - 1]) then TrimRight(s[..|s| - 1]) else s
  }

  function Trim(s: string): string { TrimRight(TrimLeft(s)) }

  // ---------- sorting ----------

  /** The order of strings by their bytes. */
  predicate Before(a: string, b: string) {
    a == "" || (b != "" && (a[0] < b[0] || (a[0] == b[0] && Before(a[1..], b[1..]))))
  }

  lemma {:induction false} BeforeEither(a: string, b: string)
    ensures Before(a, b) || Before(b, a)
    ensures Before(a, b) && Before(b, a) ==> a == b
  {
    if a != "" && b != "" && a[0] == b[0] {
      BeforeEither(a[1..], b[1..]);
      assert a == [a[0]] + a[1..] && b == [b[0]] + b[1..];
    }
  }

  lemma {:induction false} BeforeAfter(a: string, b: string, c: string)
    requires Before(a, b) && Before(b, c)
    ensures Before(a, c)
  {
    if a != "" && a[0] == b[0] && b[0] == c[0] {
      BeforeAfter(a[1..], b[1..], c[1..]);
    }
  }

  predicate Ordered(s: seq<string>) { forall i, j :: 0 <= i < j < |s| ==> Before(s[i], s[j]) }

  function Inserted(s: seq<string>, x: string): seq<string> {
    if s == [] || Before(s[|s| - 1], x) then s + [x]
    else Inserted(s[..|s| - 1], x) + [s[|s| - 1]]
  }

  function Sorted(s: seq<string>): seq<string> {
    if s == [] then [] else Inserted(Sorted(s[..|s| - 1]), s[|s| - 1])
  }

  lemma {:induction false} InsertedOrdered(s: seq<string>, x: string)
    requires Ordered(s)
    ensures Ordered(Inserted(s, x)) && multiset(Inserted(s, x)) == multiset(s) + multiset{x}
  {
    if s == [] {
    } else if Before(s[|s| - 1], x) {
      forall i | 0 <= i < |s| ensures Before(s[i], x) {
        if i < |s| - 1 {
          BeforeAfter(s[i], s[|s| - 1], x);
        }
      }
    } else {
      var init, last := s[..|s| - 1], s[|s| - 1];
      InsertedOrdered(init, x);
      BeforeEither(last, x);
      assert s == init + [last];
      var inserted := Inserted(init, x);
      forall i | 0 <= i < |inserted| ensures Before(inserted[i], last) {
        assert inserted[i] in multiset(inserted);
        assert inserted[i] == x || inserted[i] in init;
      }
    }
  }

  lemma {:induction false} SortedOrdered(s: seq<string>)
    ensures Ordered(Sorted(s)) && multiset(Sorted(s)) == multiset(s)
  {
    if s != [] {
      var init := s[..|s| - 1];
      SortedOrdered(init);
      InsertedOrdered(Sorted(init), s[|s| - 1]);
      assert s == init + [s[|s| - 1]];
    }
  }

  /** The first of an ordered list comes before everything in it. */
  lemma FirstBefore(s: seq<string>, x: string)
    requires Ordered(s) && x in s
    ensures Before(s[0], x)
  {
    var i :| 0 <= i < |s| && s[i] == x;
    BeforeEither(s[0], s[0]);
  }

  /** There is one order of a bag of strings. */
  lemma {:induction false} OneOrder(s: seq<string>, t: seq<string>)
    requires Ordered(s) && Ordered(t) && multiset(s) == multiset(t)
    ensures s == t
  {
    assert |multiset(s)| == |s| && |multiset(t)| == |t|;
    if s != [] {
      assert t[0] in multiset(s) && s[0] in multiset(t);
      FirstBefore(s, t[0]);
      FirstBefore(t, s[0]);
      BeforeEither(s[0], t[0]);
      SameRest(s, t);
      OneOrder(s[1..], t[1..]);
    }
  }

  lemma SameRest(s: seq<string>, t: seq<string>)
    requires s != [] && t != [] && s[0] == t[0] && multiset(s) == multiset(t)
    ensures multiset(s[1..]) == multiset(t[1..])
    ensures s[1..] == t[1..] ==> s == t
  {
    assert s == [s[0]] + s[1..] && t == [t[0]] + t[1..];
    assert multiset(s) == multiset{s[0]} + multiset(s[1..]);
    assert multiset(t) == multiset{t[0]} + multiset(t[1..]);
    assert multiset(s[1..]) == multiset(s) - multiset{s[0]};
    assert multiset(t[1..]) == multiset(t) - multiset{t[0]};
  }

  /** The fields of an account, some order of them. */
  ghost function Listed(keys: set<string>): (s: seq<string>)
    ensures multiset(s) == multiset(keys)
  {
    if keys == {} then []
    else
      var key :| key in keys;
      Listed(keys - {key}) + [key]
  }

  /** The fields of an account in the one order. */
  ghost function Fields(account: map<string, string>): seq<string> { Sorted(Listed(account.Keys)) }

  /** Sorting gives the same fields whatever order the map was walked in. */
  lemma AnyOrder(account: map<string, string>, walked: seq<string>)
    requires multiset(walked) == multiset(account.Keys)
    ensures Sorted(walked) == Fields(account)
  {
    SortedOrdered(walked);
    SortedOrdered(Listed(account.Keys));
    OneOrder(Sorted(walked), Fields(account));
  }

  // ---------- writing ----------

  function AccountParts(account: map<string, string>, fields: seq<string>): seq<string>
    requires forall k :: 0 <= k < |fields| ==> fields[k] in account
  {
    if fields == [] then []
    else
      var n := |fields| - 1;
      AccountParts(account, fields[..n]) + ["ac." + fields[n] + "=" + account[fields[n]]]
  }

  function Tail(r: ReceiptRow): seq<string> {
    ["a=" + Decimal.FormatInt(r.amount)] +
    (if r.lang != "" then ["l=" + r.lang] else []) +
    (if r.callback != "" then ["c=" + r.callback] else []) +
    (if r.callbackTimeout > 0 then ["ct=" + Decimal.FormatInt(r.callbackTimeout)] else []) +
    (if r.currency > 0 then ["cr=" + Decimal.FormatInt(r.currency)] else [])
  }

  lemma FieldsKnown(account: map<string, string>)
    ensures forall k :: 0 <= k < |Fields(account)| ==> Fields(account)[k] in account
    ensures forall f :: f in account ==> f in Fields(account)
    ensures forall i, j :: 0 <= i < j < |Fields(account)| ==> Fields(account)[i] != Fields(account)[j]
  {
    SortedOrdered(Listed(account.Keys));
    var fields := Fields(account);
    forall f ensures f in fields <==> f in account {
      assert f in multiset(fields) <==> f in fields;
    }
    forall i, j | 0 <= i < j < |fields| ensures fields[i] != fields[j] {
      if fields[i] == fields[j] {
        OnceOnly(fields, i, j);
      }
    }
  }

  lemma OnceOnly(s: seq<string>, i: nat, j: nat)
    requires i < j < |s| && s[i] == s[j]
    ensures multiset(s)[s[i]] >= 2
  {
    assert s == s[..j] + [s[j]] + s[j + 1..];
    assert s[i] in s[..j];
    assert multiset(s[..j])[s[i]] >= 1;
  }

  ghost function Parts(r: ReceiptRow): seq<string> {
    FieldsKnown(r.account);
    ["m=" + r.merchantID] + AccountParts(r.account, Fields(r.account)) + Tail(r)
  }

  // ---------- reading ----------

  /** What one decoded key does to the receipt. */
  function Applied(r: ReceiptRow, key: string, value: string): Option<ReceiptRow> {
    if "ac." <= key then
      if key == "ac." then None else Some(r.(account := r.account[key[3..] := value]))
    else if key == "m" then Some(r.(merchantID := value))
    else if key == "a" then
      if Decimal.ParseInt(value).None? then None else Some(r.(amount := Decimal.ParseInt(value).value))
    else if key == "l" then Some(r.(lang := value))
    else if key == "c" then Some(r.(callback := value))
    else if key == "ct" then
      if Decimal.ParseInt(value).None? then None else Some(r.(callbackTimeout := Decimal.ParseInt(value).value))
    else if key == "cr" then
      if Decimal.ParseInt(value).None? then None else Some(r.(currency := Decimal.ParseInt(value).value))
    else Some(r)
  }

  function AppliedPair(r: ReceiptRow, pair: string): Option<ReceiptRow> {
    if pair == "" then Some(r)
    else
      var i := EqualsAt(pair);
      if i == |pair| then None else Applied(r, pair[..i], pair[i + 1..])
  }

  function AppliedAll(r: ReceiptRow, pairs: seq<string>): Option<ReceiptRow> {
    if pairs == [] then Some(r)
    else
      match AppliedAll(r, pairs[..|pairs| - 1])
      case None => None
      case Some(before) => AppliedPair(before, pairs[|pairs| - 1])
  }

  function Parsed(encoded: string): Option<ReceiptRow> {
    match Base64.Decode(Trim(encoded))
    case None => None
    case Some(raw) =>
      match AppliedAll(BLANK, Split(raw))
      case None => None
      case Some(r) => if r.Validates() then Some(r) else None
  }

  // ---------- as it runs ----------

  /** A checkout request, assigned field by field while it is read. */
  class Receipt {
    var merchantID: string
    var account: map<string, string>
    var amount: int
    var lang: string
    var callback: string
    var callbackTimeout: int
    var currency: int
    var description: string
    var detail: Option<string>

    function Row(): ReceiptRow
      reads this
    {
      ReceiptRow(merchantID, account, amount, lang, callback, callbackTimeout, currency, description, detail)
    }

    constructor FromRow(row: ReceiptRow)
      ensures Row() == row
    {
      merchantID, account, amount, lang := row.merchantID, row.account, row.amount, row.lang;
      callback, callbackTimeout, currency := row.callback, row.callbackTimeout, row.currency;
      description, detail := row.description, row.detail;
    }

    /** Assigns one decoded key; a refused one assigns nothing. */
    method ApplyGETKey(key: string, value: string) returns (ok: bool)
      modifies this
      ensures match Applied(old(Row()), key, value)
        case None => !ok && Row() == old(Row())
        case Some(row) => ok && Row() == row
    {
      if "ac." <= key {
        var field := key[3..];
        if field == "" {
          return false;
        }
        account := account[field := value];
        return true;
      }
      ok := true;
      if key == "m" {
        merchantID := value;
      } else if key == "l" {
        lang := value;
      } else if key == "c" {
        callback := value;
      } else if key == "a" || key == "ct" || key == "cr" {
        var number := Decimal.ParseInt(value);
        if number.None? {
          return false;
        }
        if key == "a" {
          amount := number.value;
        } else if key == "ct" {
          callbackTimeout := number.value;
        } else {
          currency := number.value;
        }
      }
    }

    method Validate() returns (ok: bool)
      ensures ok <==> Row().Validates()
    {
      if merchantID == "" {
        return false;
      }
      if amount <= 0 {
        return false;
      }
      return |account| != 0;
    }

    /** Writes the parameters in an order that does not depend on the map's. */
    method EncodeGET() returns (encoded: string)
      requires Row().Sized()
      ensures Base64.Bytes(Join(Parts(Row()))) && encoded == Base64.Encode(Join(Parts(Row())))
    {
      var accountParts := WriteAccount();
      var parts := ["m=" + merchantID] + accountParts;
      var rest := WriteRest();
      parts := parts + rest;
      PartsSized(Row());
      encoded := Base64.Encode(Join(parts));
    }

    /** Writes one part for each field of the account, the fields sorted. */
    method WriteAccount() returns (parts: seq<string>)
      ensures (FieldsKnown(account); parts == AccountParts(account, Fields(account)))
    {
      var fields := SortedFields();
      FieldsKnown(account);
      hide Fields;
      parts := [];
      for i := 0 to |fields|
        invariant parts == AccountParts(account, fields[..i])
      {
        assert fields[..i + 1][..i] == fields[..i];
        parts := parts + ["ac." + fields[i] + "=" + account[fields[i]]];
      }
      assert fields[..|fields|] == fields;
    }

    /** Collects the account's fields as the map gives them, and sorts them. */
    method SortedFields() returns (fields: seq<string>)
      ensures fields == Fields(account)
    {
      var left := account.Keys;
      fields := [];
      while left != {}
        invariant left <= account.Keys && multiset(fields) == multiset(account.Keys) - multiset(left)
        decreases |left|
      {
        var field :| field in left;
        fields := fields + [field];
        left := left - {field};
      }
      AnyOrder(account, fields);
      fields := Sorted(fields);
    }

    /** Writes the amount, and the rest where there is something to write. */
    method WriteRest() returns (parts: seq<string>)
      ensures parts == Tail(Row())
    {
      parts := ["a=" + Decimal.FormatInt(amount)];
      if lang != "" {
        parts := parts + ["l=" + lang];
      }
      if callback != "" {
        parts := parts + ["c=" + callback];
      }
      if callbackTimeout > 0 {
        parts := parts + ["ct=" + Decimal.FormatInt(callbackTimeout)];
      }
      if currency > 0 {
        parts := parts + ["cr=" + Decimal.FormatInt(currency)];
      }
    }
  }

  /** Reads the pairs one after the other into a new receipt. */
  method ParseGET(encoded: string) returns (receipt: Receipt?)
    ensures match Parsed(encoded)
      case None => receipt == null
      case Some(row) => receipt != null && fresh(receipt) && receipt.Row() == row
  {
    var raw := Base64.Decode(Trim(encoded));
    if raw.None? {
      return null;
    }
    receipt := new Receipt.FromRow(BLANK);
    var pairs := Split(raw.value);
    hide AppliedAll, Applied, Split, EqualsAt, Trim, Base64.Decode;
    AppliedNone(BLANK);
    for i := 0 to |pairs|
      invariant receipt != null && fresh(receipt)
      invariant AppliedAll(BLANK, pairs[..i]) == Some(receipt.Row())
    {
      AppliedNext(BLANK, pairs, i);
      if pairs[i] == "" {
        continue;
      }
      var at := EqualsAt(pairs[i]);
      if at == |pairs[i]| {
        StaysRefused(BLANK, pairs, i + 1);
        return null;
      }
      var ok := receipt.ApplyGETKey(pairs[i][..at], pairs[i][at + 1..]);
      if !ok {
        StaysRefused(BLANK, pairs, i + 1);
        return null;
      }
    }
    assert pairs[..|pairs|] == pairs;
    var ok := receipt.Validate();
    if !ok {
      return null;
    }
  }

  lemma AppliedNone(r: ReceiptRow)
    ensures AppliedAll(r, []) == Some(r)
  {
  }

  lemma AppliedNext(r: ReceiptRow, pairs: seq<string>, i: nat)
    requires i < |pairs|
    ensures AppliedAll(r, pairs[..i + 1]) ==
      match AppliedAll(r, pairs[..i]) case None => None case Some(before) => AppliedPair(before, pairs[i])
  {
    assert pairs[..i + 1][..i] == pairs[..i];
  }

  lemma {:induction false} StaysRefused(r: ReceiptRow, pairs: seq<string>, n: nat)
    requires n <= |pairs| && AppliedAll(r, pairs[..n]).None?
    ensures AppliedAll(r, pairs).None?
    decreases |pairs|
  {
    if n < |pairs| {
      assert pairs[..|pairs| - 1][..n] == pairs[..n];
      StaysRefused(r, pairs[..|pairs| - 1], n);
    } else {
      assert pairs[..n] == pairs;
    }
  }

  predicate AllBytes(parts: seq<string>) { forall k :: 0 <= k < |parts| ==> Base64.Bytes(parts[k]) }

  /** What is written is bytes. */
  lemma {:induction false} JoinBytes(parts: seq<string>)
    requires AllBytes(parts)
    ensures Base64.Bytes(Join(parts))
  {
    if |parts| > 1 {
      JoinBytes(parts[1..]);
    }
  }

  lemma ConcatBytes(parts: seq<string>, more: seq<string>)
    requires AllBytes(parts) && AllBytes(more)
    ensures AllBytes(parts + more)
  {
  }

  lemma {:induction false} AccountPartsSized(account: map<string, string>, fields: seq<string>)
    requires forall k :: 0 <= k < |fields| ==> fields[k] in account
    requires forall f :: f in account ==> Base64.Bytes(f) && Base64.Bytes(account[f])
    ensures AllBytes(AccountParts(account, fields))
  {
    if fields != [] {
      AccountPartsSized(account, fields[..|fields| - 1]);
    }
  }

  lemma FormatBytes(n: int)
    ensures Base64.Bytes(Decimal.FormatInt(n)) && ';' !in Decimal.FormatInt(n)
  {
  }

  lemma PartBytes(key: string, value: string)
    requires Base64.Bytes(key) && Base64.Bytes(value)
    ensures AllBytes([key + value])
  {
  }

  lemma TailSized(r: ReceiptRow)
    requires r.Sized()
    ensures AllBytes(Tail(r))
  {
    FormatBytes(r.amount);
    FormatBytes(r.callbackTimeout);
    FormatBytes(r.currency);
    PartBytes("a=", Decimal.FormatInt(r.amount));
    PartBytes("l=", r.lang);
    PartBytes("c=", r.callback);
    PartBytes("ct=", Decimal.FormatInt(r.callbackTimeout));
    PartBytes("cr=", Decimal.FormatInt(r.currency));
    hide Decimal.FormatInt, Base64.Bytes;
  }

  lemma PartsSized(r: ReceiptRow)
    requires r.Sized()
    ensures Base64.Bytes(Join(Parts(r)))
  {
    FieldsKnown(r.account);
    AccountPartsSized(r.account, Fields(r.account));
    TailSized(r);
    PartBytes("m=", r.merchantID);
    hide Tail, Fields, AccountParts, AllBytes, Base64.Bytes, Join;
    var head, account := ["m=" + r.merchantID], AccountParts(r.account, Fields(r.account));
    ConcatBytes(head, account);
    ConcatBytes(head + account, Tail(r));
    assert Parts(r) == head + account + Tail(r);
    JoinBytes(Parts(r));
  }

  // ---------- what a link carries ----------

  /** What a payment needs: a merchant, a positive amount, and an account to pay into. */
  lemma ValidatesExactly(r: ReceiptRow)
    ensures r.Validates() <==> r.merchantID != "" && 0 < r.amount && exists f :: f in r.account
  {
    assert r.account != map[] <==> exists f :: f in r.account;
  }

  lemma {:induction false} AccountPartsAre(account: map<string, string>, fields: seq<string>, k: nat)
    requires forall i :: 0 <= i < |fields| ==> fields[i] in account
    requires k < |fields|
    ensures |AccountParts(account, fields)| == |fields|
    ensures AccountParts(account, fields)[k] == "ac." + fields[k] + "=" + account[fields[k]]
  {
    var n := |fields| - 1;
    AccountPartsCount(account, fields[..n]);
    if k < n {
      AccountPartsAre(account, fields[..n], k);
    }
  }

  lemma {:induction false} AccountPartsCount(account: map<string, string>, fields: seq<string>)
    requires forall i :: 0 <= i < |fields| ==> fields[i] in account
    ensures |AccountParts(account, fields)| == |fields|
  {
    if fields != [] {
      AccountPartsCount(account, fields[..|fields| - 1]);
    }
  }

  /**
    The parameters of a link, in order: the merchant under m; each account field under its name
    after ac., the names ascending; the amount under a; and the language, the callback, its
    timeout and the currency under l, c, ct and cr where there is one.
   */
  lemma LinkCarries(r: ReceiptRow, k: nat)
    ensures var fields, parts := Fields(r.account), Parts(r);
      && |fields| < |parts| && parts[0] == "m=" + r.merchantID
      && (k < |fields| ==> fields[k] in r.account && parts[1 + k] == "ac." + fields[k] + "=" + r.account[fields[k]])
      && parts[1 + |fields|..] ==
           ["a=" + Decimal.FormatInt(r.amount)]
           + (if r.lang == "" then [] else ["l=" + r.lang])
           + (if r.callback == "" then [] else ["c=" + r.callback])
           + (if r.callbackTimeout <= 0 then [] else ["ct=" + Decimal.FormatInt(r.callbackTimeout)])
           + (if r.currency <= 0 then [] else ["cr=" + Decimal.FormatInt(r.currency)])
  {
    FieldsKnown(r.account);
    var fields := Fields(r.account);
    AccountPartsCount(r.account, fields);
    if k < |fields| {
      AccountPartsAre(r.account, fields, k);
    }
    hide Fields, AccountParts, Decimal.FormatInt;
    var head := ["m=" + r.merchantID] + AccountParts(r.account, fields);
    assert Parts(r) == head + Tail(r);
    assert (head + Tail(r))[1 + |fields|..] == Tail(r);
  }

  /** Of two strings the earlier is the one that is a prefix, or has the lower byte where they first part. */
  lemma {:induction false} BeforeExactly(a: string, b: string, n: nat)
    requires n <= |a| && n <= |b| && a[..n] == b[..n]
    ensures n == |a| ==> Before(a, b)
    ensures n < |a| && n < |b| && a[n] != b[n] ==> (Before(a, b) <==> a[n] < b[n])
    ensures n == |b| < |a| ==> !Before(a, b)
  {
    if n != 0 {
      assert a[0] == a[..n][0] == b[..n][0] == b[0];
      assert a[1..][..n - 1] == a[..n][1..] && b[1..][..n - 1] == b[..n][1..];
      BeforeExactly(a[1..], b[1..], n - 1);
    }
  }

  /** What each key of a link sets when it is read; an unknown one sets nothing. */
  lemma KeysRead(r: ReceiptRow, field: string, value: string)
    ensures Applied(r, "m", value) == Some(r.(merchantID := value))
    ensures Applied(r, "l", value) == Some(r.(lang := value))
    ensures Applied(r, "c", value) == Some(r.(callback := value))
    ensures var n := Decimal.ParseInt(value);
      && Applied(r, "a", value) == (if n.None? then None else Some(r.(amount := n.value)))
      && Applied(r, "ct", value) == (if n.None? then None else Some(r.(callbackTimeout := n.value)))
      && Applied(r, "cr", value) == (if n.None? then None else Some(r.(currency := n.value)))
    ensures Applied(r, "ac." + field, value) ==
            if field == "" then None else Some(r.(account := r.account[field := value]))
    ensures !("ac." <= field) && field !in {"m", "a", "l", "c", "ct", "cr"} ==> Applied(r, field, value) == Some(r)
  {
    hide Decimal.ParseInt;
    assert ("ac." + field)[3..] == field;
    assert "ac." + field == "ac." <==> field == "";
  }

  const SPACES := " \t\n\r\U{b}\U{c}"

  /** Spaces around the text are nothing to its reader. */
  lemma {:induction false} SpacesTrimmed(before: string, s: string, after: string)
    requires forall k :: 0 <= k < |before| ==> before[k] in SPACES
    requires forall k :: 0 <= k < |after| ==> after[k] in SPACES
    requires s != "" && s[0] !in SPACES && s[|s| - 1] !in SPACES
    ensures Trim(before + s + after) == s
  {
    LeftTrimmed(before, s + after);
    assert before + s + after == before + (s + after);
    RightTrimmed(s, after);
  }

  lemma {:induction false} LeftTrimmed(before: string, s: string)
    requires forall k :: 0 <= k < |before| ==> before[k] in SPACES
    requires s != "" && !IsSpace(s[0])
    ensures TrimLeft(before + s) == s
  {
    if before == "" {
      assert before + s == s;
    } else {
      LeftTrimmed(before[1..], s);
      assert (before + s)[1..] == before[1..] + s;
    }
  }

  lemma {:induction false} RightTrimmed(s: string, after: string)
    requires forall k :: 0 <= k < |after| ==> after[k] in SPACES
    requires s != "" && !IsSpace(s[|s| - 1])
    ensures TrimRight(s + after) == s
  {
    if after == "" {
      assert s + after == s;
    } else {
      var n := |after| - 1;
      RightTrimmed(s, after[..n]);
      assert (s + after)[..|s| + n] == s + after[..n];
    }
  }

  /** Nothing between separators is skipped, a pair is cut at its first equals sign, and text without one is refused. */
  lemma PairsRead(r: ReceiptRow, key: string, value: string)
    requires '=' !in key
    ensures AppliedPair(r, "") == Some(r)
    ensures key != "" ==> AppliedPair(r, key) == None
    ensures AppliedPair(r, key + "=" + value) == Applied(r, key, value)
  {
    hide Applied;
    var pair := key + "=" + value;
    EqualsAfter(key, value);
    assert pair[..|key|] == key && pair[|key| + 1..] == value;
  }
}
