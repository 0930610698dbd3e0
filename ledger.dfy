/**
 * Account lines: the per-account amounts the statements are built from.
 *
 * The income statement keeps them in Python dicts (one entry per account, in
 * insertion order); the balance sheet keeps them in DataFrame tables (rows in
 * order, where two rows may share an account name). Both are `Lines` here;
 * `Add` is the dict update, `UpdateOrAppend` and `OverwriteOrAppend` are the
 * masked table updates.
 */
module Ledger {

  datatype Line = Line(account: string, amount: real)

  type Lines = seq<Line>

  /** `sum(...)` of the amounts. */
  function Total(ls: Lines): real {
    if ls == [] then 0.0 else ls[0].amount + Total(ls[1..])
  }

  lemma {:induction false} TotalConcat(a: Lines, b: Lines)
    ensures Total(a + b) == Total(a) + Total(b)
  {
    if a == [] {
      assert a + b == b;
    } else {
      assert (a + b)[1..] == a[1..] + b;
      TotalConcat(a[1..], b);
    }
  }

  /** The total of a table is the total without its last row plus that row. */
  lemma TotalSnoc(ls: Lines)
    requires ls != []
    ensures Total(ls) == Total(ls[..|ls| - 1]) + ls[|ls| - 1].amount
    ensures multiset(ls) == multiset(ls[..|ls| - 1]) + multiset{ls[|ls| - 1]}
  {
    var init, l := ls[..|ls| - 1], ls[|ls| - 1];
    assert ls == init + [l];
    TotalConcat(init, [l]);
    assert Total([l]) == l.amount;
  }

  /** Some line is named `k`. */
  predicate Has(ls: Lines, k: string) {
    ls != [] && (ls[0].account == k || Has(ls[1..], k))
  }

  lemma {:induction false} HasIndex(ls: Lines, k: string)
    ensures Has(ls, k) <==> exists i :: 0 <= i < |ls| && ls[i].account == k
  {
    if ls != [] {
      HasIndex(ls[1..], k);
      if Has(ls[1..], k) {
        var i :| 0 <= i < |ls| - 1 && ls[1..][i].account == k;
        assert ls[i + 1].account == k;
      }
      forall i | 1 <= i < |ls| && ls[i].account == k ensures Has(ls[1..], k) {
        assert ls[1..][i - 1].account == k;
      }
    }
  }

  lemma {:induction false} HasConcat(a: Lines, b: Lines, k: string)
    ensures Has(a + b, k) <==> Has(a, k) || Has(b, k)
  {
    if a == [] {
      assert a + b == b;
    } else {
      assert (a + b)[1..] == a[1..] + b;
      HasConcat(a[1..], b, k);
    }
  }

  /** No two lines share an account name, as in a dict. */
  predicate Distinct(ls: Lines) {
    ls == [] || (!Has(ls[1..], ls[0].account) && Distinct(ls[1..]))
  }

  // ---------------------------------------------------------------- dict operations

  /** `d.get(k, 0.0)`: the amount of the first line named `k`, or 0 when there is none. */
  function Get(ls: Lines, k: string): (r: real)
    ensures !Has(ls, k) ==> r == 0.0
    ensures forall i :: (0 <= i < |ls| && ls[i].account == k && (forall j :: 0 <= j < i ==> ls[j].account != k)
      ==> r == ls[i].amount)
  {
    if ls == [] then 0.0
    else if ls[0].account == k then ls[0].amount
    else
      var r := Get(ls[1..], k);
      assert forall i :: 1 <= i < |ls| ==> ls[1..][i - 1] == ls[i];
      r
  }

  /** In a dict every stored line's amount is what `get` returns for its account. */
  lemma {:induction false} DistinctGet(ls: Lines)
    requires Distinct(ls)
    ensures forall i :: 0 <= i < |ls| ==> Get(ls, ls[i].account) == ls[i].amount
  {
    if ls != [] {
      DistinctGet(ls[1..]);
      forall i | 1 <= i < |ls| ensures Get(ls, ls[i].account) == ls[i].amount {
        HasIndex(ls[1..], ls[0].account);
        assert ls[1..][i - 1] == ls[i];
      }
    }
  }

  /**
   * `d[k] = d.get(k, 0.0) + x`: an existing entry grows in place, a new
   * account is appended at the end (dicts keep insertion order).
   */
  function Add(ls: Lines, k: string, x: real): (r: Lines)
    ensures Get(r, k) == Get(ls, k) + x
    ensures forall j :: j != k ==> Get(r, j) == Get(ls, j)
    ensures Total(r) == Total(ls) + x
    ensures forall j :: Has(r, j) <==> Has(ls, j) || j == k
    ensures !Has(ls, k) ==> r == ls + [Line(k, x)]
    ensures Has(ls, k) ==> |r| == |ls|
    ensures Distinct(ls) ==> Distinct(r)
  {
    if ls == [] then [Line(k, x)]
    else if ls[0].account == k then
      var r := [Line(k, ls[0].amount + x)] + ls[1..];
      assert r[1..] == ls[1..];
      r
    else
      var t := Add(ls[1..], k, x);
      var r := [ls[0]] + t;
      assert r[1..] == t;
      assert !Has(ls, k) ==> r == ls + [Line(k, x)] by {
        if !Has(ls, k) {
          assert t == ls[1..] + [Line(k, x)];
          assert ls == [ls[0]] + ls[1..];
        }
      }
      r
  }

  // ---------------------------------------------------------------- table operations

  /** How many rows are named `k`. */
  function Count(t: Lines, k: string): (n: nat)
    ensures n == 0 <==> !Has(t, k)
  {
    if t == [] then 0
    else (if t[0].account == k then 1 else 0) + Count(t[1..], k)
  }

  /** The sum of the amounts of the rows named `k`. */
  function KeyTotal(t: Lines, k: string): (r: real)
    ensures !Has(t, k) ==> r == 0.0
  {
    if t == [] then 0.0
    else (if t[0].account == k then t[0].amount else 0.0) + KeyTotal(t[1..], k)
  }

  /** `t.loc[t['Account'] == k, 'Amount'] += x`. */
  function AddToEvery(t: Lines, k: string, x: real): (r: Lines)
    ensures |r| == |t|
    ensures forall i :: 0 <= i < |t| ==> r[i].account == t[i].account
    ensures forall i :: 0 <= i < |t| ==>
      r[i].amount == if t[i].account == k then t[i].amount + x else t[i].amount
  {
    if t == [] then []
    else [if t[0].account == k then Line(k, t[0].amount + x) else t[0]] + AddToEvery(t[1..], k, x)
  }

  /** `t.loc[t['Account'] == k, 'Amount'] = v`. */
  function SetEvery(t: Lines, k: string, v: real): (r: Lines)
    ensures |r| == |t|
    ensures forall i :: 0 <= i < |t| ==> r[i].account == t[i].account
    ensures forall i :: 0 <= i < |t| ==> r[i].amount == if t[i].account == k then v else t[i].amount
  {
    if t == [] then []
    else [if t[0].account == k then Line(k, v) else t[0]] + SetEvery(t[1..], k, v)
  }

  lemma {:induction false} AddToEveryTotal(t: Lines, k: string, x: real)
    ensures Total(AddToEvery(t, k, x)) == Total(t) + x * Count(t, k) as real
  {
    if t != [] {
      AddToEveryTotal(t[1..], k, x);
      var r := AddToEvery(t, k, x);
      assert r[1..] == AddToEvery(t[1..], k, x);
      var c := Count(t[1..], k) as real;
      assert x * (1.0 + c) == x + x * c;
    }
  }

  lemma {:induction false} SetEveryTotal(t: Lines, k: string, v: real)
    ensures Total(SetEvery(t, k, v)) == Total(t) - KeyTotal(t, k) + v * Count(t, k) as real
  {
    if t != [] {
      SetEveryTotal(t[1..], k, v);
      var r := SetEvery(t, k, v);
      assert r[1..] == SetEvery(t[1..], k, v);
      var c := Count(t[1..], k) as real;
      assert v * (1.0 + c) == v + v * c;
    }
  }

  lemma {:induction false} AddToEveryAbsent(t: Lines, k: string, x: real)
    requires !Has(t, k)
    ensures AddToEvery(t, k, x) == t
  {
    if t != [] {
      AddToEveryAbsent(t[1..], k, x);
    }
  }

  lemma {:induction false} UniqueAddIsAddToEvery(t: Lines, k: string, x: real)
    requires Distinct(t) && Has(t, k)
    ensures AddToEvery(t, k, x) == Add(t, k, x)
  {
    if t[0].account == k {
      AddToEveryAbsent(t[1..], k, x);
    } else {
      UniqueAddIsAddToEvery(t[1..], k, x);
    }
  }

  /** A balance accrual: add to every row named `k` if there is one, otherwise append a row. */
  function UpdateOrAppend(t: Lines, k: string, x: real): (r: Lines)
    ensures |r| == (if Has(t, k) then |t| else |t| + 1)
    ensures forall i :: 0 <= i < |t| ==> r[i].account == t[i].account
  {
    if Has(t, k) then AddToEvery(t, k, x) else t + [Line(k, x)]
  }

  /** The retained-earnings roll-forward: overwrite every row named `k`, or append one. */
  function OverwriteOrAppend(t: Lines, k: string, v: real): (r: Lines)
    ensures |r| == (if Has(t, k) then |t| else |t| + 1)
    ensures forall i :: 0 <= i < |t| ==> r[i].account == t[i].account
  {
    if Has(t, k) then SetEvery(t, k, v) else t + [Line(k, v)]
  }

  /**
   * What `UpdateOrAppend` does: rows of other names keep their place and
   * amount, every row named `k` grows by `x`, and if there was none a single
   * row holding `x` is appended; so `k` is present afterwards.
   */
  lemma UpdateOrAppendRows(t: Lines, k: string, x: real)
    ensures var r := UpdateOrAppend(t, k, x);
      && Has(r, k)
      && |r| == (if Has(t, k) then |t| else |t| + 1)
      && (forall i :: 0 <= i < |t| && t[i].account != k ==> r[i] == t[i])
      && (forall i :: 0 <= i < |t| && t[i].account == k ==> r[i] == Line(k, t[i].amount + x))
      && (!Has(t, k) ==> r[|t|] == Line(k, x))
  {
    var r := UpdateOrAppend(t, k, x);
    HasIndex(r, k);
    if Has(t, k) {
      HasIndex(t, k);
      var i :| 0 <= i < |t| && t[i].account == k;
      assert r[i].account == k;
      forall i | 0 <= i < |t| ensures r[i] == if t[i].account == k then Line(k, t[i].amount + x) else t[i] {
        assert r[i].account == t[i].account;
      }
    } else {
      HasIndex(t, k);
      assert r[|t|].account == k;
    }
  }

  /** The table total grows by `x` once per row named `k`, or once if there is none. */
  lemma UpdateOrAppendTotal(t: Lines, k: string, x: real)
    ensures Has(t, k) ==> Total(UpdateOrAppend(t, k, x)) == Total(t) + x * Count(t, k) as real
    ensures !Has(t, k) ==> Total(UpdateOrAppend(t, k, x)) == Total(t) + x
  {
    if Has(t, k) {
      AddToEveryTotal(t, k, x);
    } else {
      TotalConcat(t, [Line(k, x)]);
      assert Total([Line(k, x)]) == x;
    }
  }

  /** On a table with distinct names the table update is exactly the dict update `Add`. */
  lemma UpdateOrAppendOnDistinct(t: Lines, k: string, x: real)
    requires Distinct(t)
    ensures UpdateOrAppend(t, k, x) == Add(t, k, x)
  {
    if Has(t, k) { UniqueAddIsAddToEvery(t, k, x); }
  }

  /**
   * What `OverwriteOrAppend` does: rows of other names keep their place and
   * amount, every row named `k` now holds `v`, and if there was none a single
   * row holding `v` is appended.
   */
  lemma OverwriteOrAppendRows(t: Lines, k: string, v: real)
    ensures var r := OverwriteOrAppend(t, k, v);
      && Has(r, k)
      && |r| == (if Has(t, k) then |t| else |t| + 1)
      && (forall i :: 0 <= i < |r| && r[i].account == k ==> r[i].amount == v)
      && (forall i :: 0 <= i < |t| && t[i].account != k ==> r[i] == t[i])
  {
    var r := OverwriteOrAppend(t, k, v);
    HasIndex(t, k);
    HasIndex(r, k);
    if Has(t, k) {
      var i :| 0 <= i < |t| && t[i].account == k;
      assert r[i].account == k;
      forall i | 0 <= i < |t| && t[i].account != k ensures r[i] == t[i] {
        assert r[i].account == t[i].account;
      }
    } else {
      assert r[|t|].account == k;
    }
  }

  /** The total trades the old `k` rows' sum for `v` once per such row, or gains `v` once. */
  lemma OverwriteOrAppendTotal(t: Lines, k: string, v: real)
    ensures Has(t, k) ==> Total(OverwriteOrAppend(t, k, v)) == Total(t) - KeyTotal(t, k) + v * Count(t, k) as real
    ensures !Has(t, k) ==> Total(OverwriteOrAppend(t, k, v)) == Total(t) + v
  {
    if Has(t, k) {
      SetEveryTotal(t, k, v);
    } else {
      TotalConcat(t, [Line(k, v)]);
      assert Total([Line(k, v)]) == v;
    }
  }

  /** Rolling forward twice with the same value leaves what rolling forward once left. */
  lemma OverwriteOrAppendIdempotent(t: Lines, k: string, v: real)
    ensures OverwriteOrAppend(OverwriteOrAppend(t, k, v), k, v) == OverwriteOrAppend(t, k, v)
  {
    var r := OverwriteOrAppend(t, k, v);
    OverwriteOrAppendRows(t, k, v);
    var r2 := SetEvery(r, k, v);
    forall i | 0 <= i < |r| ensures r2[i] == r[i] {
      if r[i].account == k { assert r2[i].amount == v; }
    }
  }
}
