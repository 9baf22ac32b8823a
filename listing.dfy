/**
 * `ORDER BY <text column> DESC LIMIT n` over a table: the keys of the
 * newest rows first, the column compared in SQLite's BINARY text order.
 */
module Listing {

  import opened Text

  /** The first column of a list of rows. */
  function KeysOf<K, R>(rows: seq<(K, R)>): (ks: seq<K>)
    ensures |ks| == |rows| && forall i :: 0 <= i < |rows| ==> ks[i] == rows[i].0
  {
    seq(|rows|, i requires 0 <= i < |rows| => rows[i].0)
  }

  function Min(a: int, b: int): int {
    if a <= b then a else b
  }

  /**
   * `ks` is what the query may return for the rows whose sort column is
   * given by `ts`: as many distinct keys as the limit allows, in
   * non-increasing column order, none of the rows left out sorting after
   * a row taken.
   */
  predicate IsNewestFirst<K>(ts: map<K, string>, limit: nat, ks: seq<K>) {
    && |ks| == Min(limit, |ts.Keys|)
    && (forall i :: 0 <= i < |ks| ==> ks[i] in ts)
    && (forall i, j :: 0 <= i < j < |ks| ==> ks[i] != ks[j])
    && (forall i, j :: 0 <= i < j < |ks| ==> StrLe(ts[ks[j]], ts[ks[i]]))
    && (forall k, i :: k in ts && k !in ks && 0 <= i < |ks| ==> StrLe(ts[k], ts[ks[i]]))
  }

  /** A key of `rest` whose row sorts last. */
  method PickNewest<K>(ts: map<K, string>, rest: set<K>) returns (k: K)
    requires rest != {} && rest <= ts.Keys
    ensures k in rest
    ensures forall x :: x in rest ==> StrLe(ts[x], ts[k])
  {
    k :| k in rest;
    StrLeRefl(ts[k]);
    var todo := rest - {k};
    while todo != {}
      invariant todo <= rest && k in rest
      invariant forall x :: x in rest && x !in todo ==> StrLe(ts[x], ts[k])
      decreases |todo|
    {
      var x :| x in todo;
      if !StrLe(ts[x], ts[k]) {
        StrLeTotal(ts[x], ts[k]);
        forall y | y in rest && y !in todo
          ensures StrLe(ts[y], ts[x])
        {
          StrLeTrans(ts[y], ts[k], ts[x]);
        }
        StrLeRefl(ts[x]);
        k := x;
      }
      todo := todo - {x};
    }
  }

  /**
   * Part way through the selection: `ks` holds the newest rows taken so
   * far, in order, and `rest` the rows not yet taken, none newer than a
   * row taken.
   */
  predicate Selecting<K>(ts: map<K, string>, limit: nat, ks: seq<K>, rest: set<K>) {
    && rest <= ts.Keys
    && |ks| <= limit
    && |ks| + |rest| == |ts.Keys|
    && (forall i :: 0 <= i < |ks| ==> ks[i] in ts && ks[i] !in rest)
    && (forall k :: k in ts && k !in rest ==> k in ks)
    && (forall i, j :: 0 <= i < j < |ks| ==> ks[i] != ks[j])
    && (forall i, j :: 0 <= i < j < |ks| ==> StrLe(ts[ks[j]], ts[ks[i]]))
    && (forall k, i :: k in rest && 0 <= i < |ks| ==> StrLe(ts[k], ts[ks[i]]))
  }

  /** Taking the newest remaining row keeps the selection in order. */
  lemma SelectingStep<K>(ts: map<K, string>, limit: nat, ks: seq<K>, rest: set<K>, k: K)
    requires Selecting(ts, limit, ks, rest) && |ks| < limit
    requires k in rest && forall x :: x in rest ==> StrLe(ts[x], ts[k])
    ensures Selecting(ts, limit, ks + [k], rest - {k})
  {
  }

  /** A selection that reached the limit or ran out of rows is a valid answer. */
  lemma SelectingDone<K>(ts: map<K, string>, limit: nat, ks: seq<K>, rest: set<K>)
    requires Selecting(ts, limit, ks, rest) && (|ks| >= limit || rest == {})
    ensures IsNewestFirst(ts, limit, ks)
  {
  }

  /** Selection of the newest rows, one at a time. */
  method Newest<K>(ts: map<K, string>, limit: nat) returns (ks: seq<K>)
    ensures IsNewestFirst(ts, limit, ks)
  {
    ks := [];
    var rest := ts.Keys;
    while |ks| < limit && rest != {}
      invariant Selecting(ts, limit, ks, rest)
      decreases |rest|
    {
      var k := PickNewest(ts, rest);
      SelectingStep(ts, limit, ks, rest, k);
      ks := ks + [k];
      rest := rest - {k};
    }
    SelectingDone(ts, limit, ks, rest);
  }
}
