/** The purchase ledger and the window of recent purchases used to score a
    new one. The ledger is the history of purchase records in arrival order;
    records are only ever appended. */
module PurchaseLedger {
  import opened Basics

  datatype Purchase = Purchase(id: int, amount: real)

  /** The amounts of the ledger records whose id is in `ids`, oldest first
      (a row selection by id followed by a column projection). */
  function Amounts(ledger: seq<Purchase>, ids: set<int>): seq<real>
  {
    if ledger == [] then []
    else
      var n := |ledger| - 1;
      Amounts(ledger[..n], ids) + (if ledger[n].id in ids then [ledger[n].amount] else [])
  }

  /** The positions of the ledger records whose id is in `ids`: every such
      position, each once, in increasing order. */
  ghost function Selected(ledger: seq<Purchase>, ids: set<int>): (r: seq<nat>)
    ensures forall k :: 0 <= k < |r| ==> r[k] < |ledger| && ledger[r[k]].id in ids
    ensures forall j, k :: 0 <= j < k < |r| ==> r[j] < r[k]
    ensures forall i :: 0 <= i < |ledger| && ledger[i].id in ids ==> i in r
  {
    if ledger == [] then []
    else
      var n := |ledger| - 1;
      Selected(ledger[..n], ids) + (if ledger[n].id in ids then [n] else [])
  }

  /** `Amounts` lists, in ledger order, the amount of exactly the records
      whose id is in `ids`. */
  lemma {:induction false} AmountsAreSelected(ledger: seq<Purchase>, ids: set<int>)
    ensures |Amounts(ledger, ids)| == |Selected(ledger, ids)|
    ensures forall k :: 0 <= k < |Selected(ledger, ids)| ==>
              Amounts(ledger, ids)[k] == ledger[Selected(ledger, ids)[k]].amount
  {
    if ledger != [] {
      var n := |ledger| - 1;
      AmountsAreSelected(ledger[..n], ids);
    }
  }

  lemma AmountsSnoc(ledger: seq<Purchase>, p: Purchase, ids: set<int>)
    ensures Amounts(ledger + [p], ids) == Amounts(ledger, ids) + (if p.id in ids then [p.amount] else [])
  {
    assert (ledger + [p])[..|ledger|] == ledger;
  }

  /** Appending a record whose id is not selected leaves the selection alone. */
  lemma AmountsIgnoreOthers(ledger: seq<Purchase>, p: Purchase, ids: set<int>)
    requires p.id !in ids
    ensures Amounts(ledger + [p], ids) == Amounts(ledger, ids)
  {
    AmountsSnoc(ledger, p, ids);
  }

  /** The last `n` elements of `xs`, as a pandas `tail(n)` gives them: none
      for `n == 0`, all of them when `n >= |xs|`, and for a negative `n`
      all but the first `-n`. */
  function Tail(xs: seq<real>, n: int): (r: seq<real>)
    ensures 0 <= n ==> |r| == Min(n, |xs|)
    ensures n < 0 ==> |r| == |xs| - Min(-n, |xs|)
    ensures r == xs[|xs| - |r|..]
  {
    if n == 0 then []
    else if n > 0 then (if n >= |xs| then xs else xs[|xs| - n..])
    else (if -n >= |xs| then [] else xs[-n..])
  }

  lemma TailSnoc(xs: seq<real>, x: real, n: int)
    requires n >= 1
    ensures Tail(xs + [x], n) == Tail(xs, n - 1) + [x]
  {
  }

  /** `getTpurchases`: the amounts of the last `t` ledger records whose id is
      in `ids`, oldest first. */
  function Window(ledger: seq<Purchase>, ids: set<int>, t: int): seq<real>
  {
    Tail(Amounts(ledger, ids), t)
  }

  lemma WindowSnocSelected(ledger: seq<Purchase>, p: Purchase, ids: set<int>, t: int)
    requires p.id in ids && t >= 1
    ensures Window(ledger + [p], ids, t) == Window(ledger, ids, t - 1) + [p.amount]
  {
    AmountsSnoc(ledger, p, ids);
    TailSnoc(Amounts(ledger, ids), p.amount, t);
  }

  lemma SuffixSnoc(ledger: seq<Purchase>, p: Purchase, ids: set<int>, c: nat)
    requires c <= |ledger|
    ensures Amounts((ledger + [p])[c..], ids) == Amounts(ledger[c..], ids) + (if p.id in ids then [p.amount] else [])
  {
    assert (ledger + [p])[c..] == ledger[c..] + [p];
    AmountsSnoc(ledger[c..], p, ids);
  }

  /** For `t >= 0` the window holds `min(t, n)` amounts, `n` being the number
      of matching records, and it is made of ALL the matching records of some
      suffix of the ledger: the most recent ones, in ledger order. */
  lemma {:induction false} WindowIsRecentSuffix(ledger: seq<Purchase>, ids: set<int>, t: int) returns (c: nat)
    requires t >= 0
    ensures |Window(ledger, ids, t)| == Min(t, |Amounts(ledger, ids)|)
    ensures c <= |ledger| && Window(ledger, ids, t) == Amounts(ledger[c..], ids)
    decreases |ledger|
  {
    if t == 0 || ledger == [] {
      c := |ledger|;
      assert ledger[c..] == [];
    } else {
      var n := |ledger| - 1;
      var init, last := ledger[..n], ledger[n];
      assert ledger == init + [last];
      if last.id in ids {
        c := WindowIsRecentSuffix(init, ids, t - 1);
        WindowSnocSelected(init, last, ids, t);
      } else {
        c := WindowIsRecentSuffix(init, ids, t);
        WindowIgnoresOthers(init, last, ids, t);
      }
      SuffixSnoc(init, last, ids, c);
    }
  }

  /** Every amount in the window is the amount of a ledger record whose id is
      in `ids`. */
  lemma WindowFromSelectedIds(ledger: seq<Purchase>, ids: set<int>, t: int, x: real)
    requires x in Window(ledger, ids, t)
    ensures exists i :: 0 <= i < |ledger| && ledger[i].id in ids && ledger[i].amount == x
  {
    var a := Amounts(ledger, ids);
    var w := Window(ledger, ids, t);
    var j :| 0 <= j < |w| && w[j] == x;
    assert x == a[|a| - |w| + j];
    AmountsAreSelected(ledger, ids);
    var i := Selected(ledger, ids)[|a| - |w| + j];
    assert ledger[i].id in ids && ledger[i].amount == x;
  }

  /** No record of an id outside `ids` ever enters the window. */
  lemma WindowIgnoresOthers(ledger: seq<Purchase>, p: Purchase, ids: set<int>, t: int)
    requires p.id !in ids
    ensures Window(ledger + [p], ids, t) == Window(ledger, ids, t)
  {
    AmountsIgnoreOthers(ledger, p, ids);
  }

  lemma EmptyWindow(ledger: seq<Purchase>, t: int)
    ensures Window(ledger, {}, t) == []
  {
    if ledger != [] {
      EmptyWindow(ledger[..|ledger| - 1], t);
    }
  }
}
