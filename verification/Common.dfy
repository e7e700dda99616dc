/**
  Values every part of the model shares: optional values, call outcomes, and the
  errors the protocol reports (internal/kernel/errors/catalog.go).
 */
module Common {

  datatype Option<+T> = None | Some(value: T)

  /** The refusals the modelled methods can answer with. Error texts are not modelled. */
  datatype Error =
    | InvalidRequest          // -32600
    | InvalidAmount           // -31001
    | TransactionNotFound     // -31003
    | CannotPerform           // -31008
    | Transport               // -32400
    | AccountNotFound(field: string)  // -31050 .. -31099, naming the field
    | NotFound                // a repository miss that reached the caller
    | UnknownKind             // a register kind no column constraint admits

  datatype Result<+T> = Ok(value: T) | Err(error: Error)
}

/** Finite sums over sequences, and how a sum follows the changes a table makes. */
module Sums {

  function Sum(s: seq<int>): int {
    if s == [] then 0 else Sum(s[..|s| - 1]) + s[|s| - 1]
  }

  lemma SumAppend(s: seq<int>, x: int)
    ensures Sum(s + [x]) == Sum(s) + x
  {
    assert (s + [x])[..|s|] == s;
  }

  lemma {:induction false} SumConcat(s: seq<int>, t: seq<int>)
    ensures Sum(s + t) == Sum(s) + Sum(t)
  {
    if t == [] {
      assert s + t == s;
    } else {
      var init := t[..|t| - 1];
      assert s + t == (s + init) + [t[|t| - 1]];
      SumAppend(s + init, t[|t| - 1]);
      SumConcat(s, init);
    }
  }

  lemma {:induction false} SumUpdate(s: seq<int>, k: nat, x: int)
    requires k < |s|
    ensures Sum(s[k := x]) == Sum(s) - s[k] + x
  {
    var n := |s| - 1;
    if k == n {
      assert s[k := x][..n] == s[..n];
    } else {
      assert s[k := x][..n] == s[..n][k := x];
      SumUpdate(s[..n], k, x);
    }
  }

  lemma {:induction false} SumNonNegative(s: seq<int>)
    requires forall k :: 0 <= k < |s| ==> 0 <= s[k]
    ensures 0 <= Sum(s)
  {
    if s != [] {
      SumNonNegative(s[..|s| - 1]);
    }
  }

  lemma {:induction false} SumAtMost(s: seq<int>, t: seq<int>)
    requires |s| == |t|
    requires forall k :: 0 <= k < |s| ==> s[k] <= t[k]
    ensures Sum(s) <= Sum(t)
    ensures Sum(s) == Sum(t) <==> s == t
  {
    if s != [] {
      var n := |s| - 1;
      SumAtMost(s[..n], t[..n]);
      assert s == s[..n] + [s[n]] && t == t[..n] + [t[n]];
    }
  }

  lemma {:induction false} SumZero(s: seq<int>)
    requires forall k :: 0 <= k < |s| ==> s[k] == 0
    ensures Sum(s) == 0
  {
    if s != [] {
      SumZero(s[..|s| - 1]);
    }
  }

  lemma {:induction false} SumScale(s: seq<int>, t: seq<int>, f: int)
    requires |s| == |t|
    requires forall k :: 0 <= k < |s| ==> t[k] == f * s[k]
    ensures Sum(t) == f * Sum(s)
  {
    if s != [] {
      var n := |s| - 1;
      SumScale(s[..n], t[..n], f);
    }
  }

  lemma {:induction false} SumPlus(s: seq<int>, t: seq<int>, u: seq<int>)
    requires |s| == |t| == |u|
    requires forall k :: 0 <= k < |s| ==> u[k] == s[k] + t[k]
    ensures Sum(u) == Sum(s) + Sum(t)
  {
    if s != [] {
      var n := |s| - 1;
      SumPlus(s[..n], t[..n], u[..n]);
    }
  }
}
