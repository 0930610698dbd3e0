/**
 * The balance sheet: the ending snapshot split by Type into asset, liability
 * and equity tables, balance accruals applied as update-or-append, the
 * accumulated-depreciation contra line, the current / non-current / other
 * classes of assets and liabilities, and retained earnings rolled forward.
 */
module Balance {
  import opened Records
  import opened Ledger
  import opened Classifier
  import opened Depreciation

  // ---------------------------------------------------------------- the three tables

  /**
   * A table row as pandas holds it after the Type filter: the row keeps the
   * index label it had in the snapshot.
   */
  datatype LabelledRow = LabelledRow(index: nat, line: Line)

  /**
   * The rows of Type `typ`, each labelled with its position in the snapshot:
   * every label is the position of a line of that Type holding the row's
   * account and amount, and the labels strictly increase.
   */
  function LabelledRowsOfType(ls: seq<BalanceLine>, typ: string): (r: seq<LabelledRow>)
    ensures forall i :: 0 <= i < |r| ==>
      (r[i].index < |ls| && ls[r[i].index].typ == typ && r[i].line == Line(ls[r[i].index].account, ls[r[i].index].amount))
    ensures forall i, j :: 0 <= i < j < |r| ==> r[i].index < r[j].index
  {
    if ls == [] then []
    else
      var b := ls[|ls| - 1];
      var init := LabelledRowsOfType(ls[..|ls| - 1], typ);
      assert forall p :: 0 <= p < |ls| - 1 ==> ls[..|ls| - 1][p] == ls[p];
      if b.typ == typ then init + [LabelledRow(|ls| - 1, Line(b.account, b.amount))] else init
  }

  /** Some row of `r` carries label `p`. */
  ghost predicate HasLabel(r: seq<LabelledRow>, p: nat) {
    exists i :: 0 <= i < |r| && r[i].index == p
  }

  /** Every line of Type `typ` is kept: its position is one of the labels. */
  lemma {:induction false} LabelledRowsCover(ls: seq<BalanceLine>, typ: string)
    ensures forall p :: 0 <= p < |ls| && ls[p].typ == typ ==> HasLabel(LabelledRowsOfType(ls, typ), p)
  {
    if ls != [] {
      var init := ls[..|ls| - 1];
      LabelledRowsCover(init, typ);
      var r0 := LabelledRowsOfType(init, typ);
      var r := LabelledRowsOfType(ls, typ);
      assert r[..|r0|] == r0;
      forall p | 0 <= p < |ls| && ls[p].typ == typ ensures HasLabel(r, p) {
        if p < |ls| - 1 {
          assert init[p] == ls[p];
          var i :| 0 <= i < |r0| && r0[i].index == p;
          assert r[i] == r0[i];
        } else {
          assert r[|r| - 1].index == p;
        }
      }
    }
  }

  /** The lines of labelled rows, labels dropped. */
  function LinesOf(t: seq<LabelledRow>): (r: Lines)
    ensures |r| == |t| && forall i :: 0 <= i < |t| ==> r[i] == t[i].line
  {
    seq(|t|, i requires 0 <= i < |t| => t[i].line)
  }

  /**
   * The (Account, Amount) rows of the snapshot whose Type is exactly `typ`:
   * the lines of `LabelledRowsOfType`, so one row per snapshot line of that
   * Type, in snapshot order, repeated lines included.
   */
  function RowsOfType(ls: seq<BalanceLine>, typ: string): (r: Lines)
    ensures |r| <= |ls|
    ensures r == LinesOf(LabelledRowsOfType(ls, typ))
  {
    if ls == [] then []
    else
      var b := ls[|ls| - 1];
      var init := RowsOfType(ls[..|ls| - 1], typ);
      if b.typ == typ then
        var l0 := LabelledRowsOfType(ls[..|ls| - 1], typ);
        assert LinesOf(l0 + [LabelledRow(|ls| - 1, Line(b.account, b.amount))]) == init + [Line(b.account, b.amount)];
        init + [Line(b.account, b.amount)]
      else init
  }

  /** A table holds a row for exactly the snapshot lines of its Type. */
  lemma {:induction false} RowsOfTypeMembers(ls: seq<BalanceLine>, typ: string)
    ensures forall l :: l in RowsOfType(ls, typ) <==>
      exists j :: 0 <= j < |ls| && ls[j].typ == typ && l == Line(ls[j].account, ls[j].amount)
  {
    if ls != [] {
      RowsOfTypeMembers(ls[..|ls| - 1], typ);
      assert forall j :: 0 <= j < |ls| - 1 ==> ls[..|ls| - 1][j] == ls[j];
    }
  }

  datatype Tables = Tables(assets: Lines, liabilities: Lines, equity: Lines)

  /** One of the three Types the balance sheet reads. */
  predicate KnownType(typ: string) {
    typ == "Asset" || typ == "Liability" || typ == "Equity"
  }

  /**
   * The snapshot split by exact Type: each line goes to at most one table,
   * lines of any other Type to none, so the three tables together have
   * exactly as many rows as the snapshot when every Type is known.
   */
  function Partition(ls: seq<BalanceLine>): (t: Tables)
    ensures |t.assets| + |t.liabilities| + |t.equity| <= |ls|
    ensures (forall i :: 0 <= i < |ls| ==> KnownType(ls[i].typ)) ==> |t.assets| + |t.liabilities| + |t.equity| == |ls|
  {
    PartitionSizes(ls);
    Tables(RowsOfType(ls, "Asset"), RowsOfType(ls, "Liability"), RowsOfType(ls, "Equity"))
  }

  lemma {:induction false} PartitionSizes(ls: seq<BalanceLine>)
    ensures var n := |RowsOfType(ls, "Asset")| + |RowsOfType(ls, "Liability")| + |RowsOfType(ls, "Equity")|;
      && n <= |ls|
      && ((forall i :: 0 <= i < |ls| ==> KnownType(ls[i].typ)) ==> n == |ls|)
  {
    if ls != [] {
      var init := ls[..|ls| - 1];
      PartitionSizes(init);
      assert forall i :: 0 <= i < |init| ==> init[i] == ls[i];
    }
  }

  // ---------------------------------------------------------------- balance accruals

  /** The accrual is a balance accrual naming one of the three tables. */
  predicate Targets(a: Accrual, typ: string) {
    a.affects == "Balance" && a.balanceType == typ
  }

  /**
   * One accrual applied to the tables: a balance accrual updates (or appends
   * to) the table its BalanceType names; any other accrual, or a BalanceType
   * naming no table, changes nothing. Only the named table can change.
   */
  function ApplyBalanceAccrual(t: Tables, a: Accrual): (r: Tables)
    ensures Targets(a, "Asset") ==> r == t.(assets := UpdateOrAppend(t.assets, a.account, SafeFloat(a.amount)))
    ensures Targets(a, "Liability") ==>
      r == t.(liabilities := UpdateOrAppend(t.liabilities, a.account, SafeFloat(a.amount)))
    ensures Targets(a, "Equity") ==> r == t.(equity := UpdateOrAppend(t.equity, a.account, SafeFloat(a.amount)))
    ensures !Targets(a, "Asset") ==> r.assets == t.assets
    ensures !Targets(a, "Liability") ==> r.liabilities == t.liabilities
    ensures !Targets(a, "Equity") ==> r.equity == t.equity
  {
    if a.affects == "Balance" then
      var amt := SafeFloat(a.amount);
      if a.balanceType == "Asset" then t.(assets := UpdateOrAppend(t.assets, a.account, amt))
      else if a.balanceType == "Liability" then t.(liabilities := UpdateOrAppend(t.liabilities, a.account, amt))
      else if a.balanceType == "Equity" then t.(equity := UpdateOrAppend(t.equity, a.account, amt))
      else t
    else t
  }

  /**
   * The accruals applied in order. No row is ever removed or renamed: each
   * table keeps its rows' accounts in place and can only grow.
   */
  function ApplyBalanceAccruals(t: Tables, accs: seq<Accrual>): (r: Tables)
    ensures |r.assets| >= |t.assets| && forall i :: 0 <= i < |t.assets| ==> r.assets[i].account == t.assets[i].account
    ensures |r.liabilities| >= |t.liabilities|
      && forall i :: 0 <= i < |t.liabilities| ==> r.liabilities[i].account == t.liabilities[i].account
    ensures |r.equity| >= |t.equity| && forall i :: 0 <= i < |t.equity| ==> r.equity[i].account == t.equity[i].account
  {
    if accs == [] then t
    else ApplyBalanceAccrual(ApplyBalanceAccruals(t, accs[..|accs| - 1]), accs[|accs| - 1])
  }

  /** Accruals that are not balance accruals for a known table leave the tables as they were. */
  lemma {:induction false} BalanceAccrualsIgnore(t: Tables, accs: seq<Accrual>)
    requires forall i :: 0 <= i < |accs| ==>
      !Targets(accs[i], "Asset") && !Targets(accs[i], "Liability") && !Targets(accs[i], "Equity")
    ensures ApplyBalanceAccruals(t, accs) == t
  {
    if accs != [] {
      BalanceAccrualsIgnore(t, accs[..|accs| - 1]);
    }
  }

  // ---------------------------------------------------------------- contra line

  const AccumulatedDepreciation := "Accumulated Depreciation"

  /**
   * The asset table with the contra line for a non-zero accumulated
   * depreciation appended: the total drops by exactly that amount.
   */
  function WithContra(assets: Lines, accumulated: real): (r: Lines)
    ensures Total(r) == Total(assets) - accumulated
    ensures accumulated == 0.0 ==> r == assets
    ensures accumulated != 0.0 ==>
      |r| == |assets| + 1 && r[..|assets|] == assets && r[|assets|] == Line(AccumulatedDepreciation, -accumulated)
  {
    if accumulated != 0.0 then
      var r := assets + [Line(AccumulatedDepreciation, -accumulated)];
      TotalConcat(assets, [Line(AccumulatedDepreciation, -accumulated)]);
      assert Total([Line(AccumulatedDepreciation, -accumulated)]) == -accumulated;
      assert r[..|assets|] == assets;
      r
    else assets
  }

  // ---------------------------------------------------------------- classes

  /** The rows to which `classOf` (`AssetClass` or `LiabilityClass`) gives class `c`, in table order. */
  function OfClass(ls: Lines, classOf: string -> Class, c: Class): (r: Lines)
    ensures forall i :: 0 <= i < |r| ==> classOf(r[i].account) == c
    ensures multiset(r) <= multiset(ls)
  {
    if ls == [] then []
    else
      var l := ls[|ls| - 1];
      var init := ls[..|ls| - 1];
      TotalSnoc(ls);
      var r := OfClass(init, classOf, c);
      if classOf(l.account) == c then r + [l] else r
  }

  /** Current, non-current and other together are exactly the table, row for row. */
  lemma {:induction false} ClassPartition(ls: Lines, classOf: string -> Class)
    ensures multiset(OfClass(ls, classOf, Current)) + multiset(OfClass(ls, classOf, Noncurrent))
      + multiset(OfClass(ls, classOf, Other)) == multiset(ls)
  {
    if ls != [] {
      var init := ls[..|ls| - 1];
      ClassPartition(init, classOf);
      TotalSnoc(ls);
    }
  }

  /** Taking the class of one more row adds that row's amount to its own class only. */
  lemma OfClassTotalStep(ls: Lines, classOf: string -> Class, c: Class)
    requires ls != []
    ensures var l := ls[|ls| - 1];
      Total(OfClass(ls, classOf, c)) ==
        Total(OfClass(ls[..|ls| - 1], classOf, c)) + (if classOf(l.account) == c then l.amount else 0.0)
  {
    var l := ls[|ls| - 1];
    var r := OfClass(ls[..|ls| - 1], classOf, c);
    if classOf(l.account) == c {
      TotalConcat(r, [l]);
      assert Total([l]) == l.amount;
    }
  }

  /** The three classes' totals add up to the table total. */
  lemma {:induction false} ClassTotals(ls: Lines, classOf: string -> Class)
    ensures Total(OfClass(ls, classOf, Current)) + Total(OfClass(ls, classOf, Noncurrent))
      + Total(OfClass(ls, classOf, Other)) == Total(ls)
  {
    if ls != [] {
      var l := ls[|ls| - 1];
      var init := ls[..|ls| - 1];
      ClassTotals(init, classOf);
      OfClassTotalStep(ls, classOf, Current);
      OfClassTotalStep(ls, classOf, Noncurrent);
      OfClassTotalStep(ls, classOf, Other);
      TotalSnoc(ls);
    }
  }

  // ---------------------------------------------------------------- the statement

  const RetainedEarnings := "Retained Earnings"

  /**
   * The retained-earnings roll-forward: every "Retained Earnings" row of the
   * equity table is overwritten with `retainedBegin + netIncome`, or one such
   * row is appended if there is none.
   */
  function RollForward(equity: Lines, retainedBegin: real, netIncome: real): (r: Lines)
    ensures Has(r, RetainedEarnings)
    ensures forall i :: 0 <= i < |r| && r[i].account == RetainedEarnings ==> r[i].amount == retainedBegin + netIncome
  {
    OverwriteOrAppendRows(equity, RetainedEarnings, retainedBegin + netIncome);
    OverwriteOrAppend(equity, RetainedEarnings, retainedBegin + netIncome)
  }

  /**
   * After the roll-forward some row is "Retained Earnings", every such row
   * holds the ending figure (overwritten, not added to), the other rows keep
   * their place and amount, a row is appended only when there was none, and
   * rolling forward again changes nothing.
   */
  lemma RollForwardEffect(equity: Lines, retainedBegin: real, netIncome: real)
    ensures var r := RollForward(equity, retainedBegin, netIncome);
      var ending := retainedBegin + netIncome;
      && Has(r, RetainedEarnings)
      && (forall i :: 0 <= i < |r| && r[i].account == RetainedEarnings ==> r[i].amount == ending)
      && (forall i :: 0 <= i < |equity| && equity[i].account != RetainedEarnings ==> r[i] == equity[i])
      && |r| == (if Has(equity, RetainedEarnings) then |equity| else |equity| + 1)
      && RollForward(r, retainedBegin, netIncome) == r
  {
    var k, ending := RetainedEarnings, retainedBegin + netIncome;
    OverwriteOrAppendRows(equity, k, ending);
    OverwriteOrAppendIdempotent(equity, k, ending);
  }

  datatype BalanceSheet = BalanceSheet(
    assets: Lines, currentAssets: Lines, noncurrentAssets: Lines, otherAssets: Lines,
    liabilities: Lines, currentLiabilities: Lines, noncurrentLiabilities: Lines, otherLiabilities: Lines,
    equity: Lines,
    totalAssets: real, totalLiabilities: real, totalEquity: real,
    accumulatedDepreciation: real, endingRetained: real)

  /** The balance sheet of the ending snapshot, the accruals and the depreciation rows. */
  function BalanceSheetOf(balanceEnd: seq<BalanceLine>, accs: seq<Accrual>, deps: seq<DepreciableAsset>,
                          retainedBegin: real, netIncome: real): (bs: BalanceSheet)
    ensures bs.totalAssets == Total(bs.currentAssets) + Total(bs.noncurrentAssets) + Total(bs.otherAssets)
    ensures bs.totalLiabilities == Total(bs.currentLiabilities) + Total(bs.noncurrentLiabilities)
      + Total(bs.otherLiabilities)
    ensures Has(bs.equity, RetainedEarnings)
  {
    var bs := SheetOf(ApplyBalanceAccruals(Partition(balanceEnd), accs), DepreciationTotal(deps), retainedBegin, netIncome);
    ClassTotals(bs.assets, AssetClass);
    ClassTotals(bs.liabilities, LiabilityClass);
    bs
  }

  /** The balance sheet of the accrued tables: contra line, roll-forward, then classes and totals. */
  function SheetOf(t: Tables, accumulated: real, retainedBegin: real, netIncome: real): BalanceSheet {
    Presented(WithContra(t.assets, accumulated), t.liabilities, RollForward(t.equity, retainedBegin, netIncome),
              accumulated, retainedBegin + netIncome)
  }

  /** The sheet of the tables is the one presented from the contra-extended assets and the rolled-forward equity. */
  lemma SheetOfIsPresented(t: Tables, accumulated: real, retainedBegin: real, netIncome: real, assets: Lines, equity: Lines)
    requires assets == WithContra(t.assets, accumulated) && equity == RollForward(t.equity, retainedBegin, netIncome)
    ensures SheetOf(t, accumulated, retainedBegin, netIncome) == Presented(assets, t.liabilities, equity, accumulated, retainedBegin + netIncome)
  {
  }

  /** The finished tables with their class splits and totals. */
  function Presented(assets: Lines, liabilities: Lines, equity: Lines, accumulated: real, endingRetained: real): BalanceSheet {
    BalanceSheet(
      assets, OfClass(assets, AssetClass, Current), OfClass(assets, AssetClass, Noncurrent), OfClass(assets, AssetClass, Other),
      liabilities, OfClass(liabilities, LiabilityClass, Current), OfClass(liabilities, LiabilityClass, Noncurrent),
      OfClass(liabilities, LiabilityClass, Other),
      equity, Total(assets), Total(liabilities), Total(equity), accumulated, endingRetained)
  }

  /** The accrual pass over the three tables, each update made in place. */
  method ApplyAccruals(t0: Tables, accs: seq<Accrual>) returns (t: Tables)
    ensures t == ApplyBalanceAccruals(t0, accs)
  {
    var assets, liabilities, equity := t0.assets, t0.liabilities, t0.equity;
    var i := 0;
    while i < |accs|
      invariant 0 <= i <= |accs|
      invariant Tables(assets, liabilities, equity) == ApplyBalanceAccruals(t0, accs[..i])
    {
      var r := accs[i];
      assert accs[..i + 1][..i] == accs[..i];
      if r.affects == "Balance" {
        var acct := r.account;
        var amt := SafeFloat(r.amount);
        var btype := r.balanceType;
        if btype == "Asset" {
          if Has(assets, acct) {
            assets := AddToEvery(assets, acct, amt);
          } else {
            assets := assets + [Line(acct, amt)];
          }
        } else if btype == "Liability" {
          if Has(liabilities, acct) {
            liabilities := AddToEvery(liabilities, acct, amt);
          } else {
            liabilities := liabilities + [Line(acct, amt)];
          }
        } else if btype == "Equity" {
          if Has(equity, acct) {
            equity := AddToEvery(equity, acct, amt);
          } else {
            equity := equity + [Line(acct, amt)];
          }
        }
      }
      i := i + 1;
    }
    assert accs[..i] == accs;
    t := Tables(assets, liabilities, equity);
  }

  /** The roll-forward made in place: overwrite the retained-earnings rows, or append one. */
  method RollRetainedForward(equity0: Lines, retainedBegin: real, netIncome: real) returns (equity: Lines)
    ensures equity == RollForward(equity0, retainedBegin, netIncome)
  {
    equity := equity0;
    var endingRetained := retainedBegin + netIncome;
    if Has(equity, RetainedEarnings) {
      equity := SetEvery(equity, RetainedEarnings, endingRetained);
    } else {
      equity := equity + [Line(RetainedEarnings, endingRetained)];
    }
  }

  /** Builds the balance sheet as the source does, step by step. */
  method ComputeBalanceSheet(balanceEnd: seq<BalanceLine>, accs: seq<Accrual>, deps: seq<DepreciableAsset>,
                             retainedBegin: real, netIncome: real) returns (bs: BalanceSheet)
    ensures bs == BalanceSheetOf(balanceEnd, accs, deps, retainedBegin, netIncome)
  {
    var t := Partition(balanceEnd);
    if |accs| > 0 {
      t := ApplyAccruals(t, accs);
    }
    var accumulated := if |deps| > 0 then DepreciationTotal(deps) else 0.0;
    bs := AssembleSheet(t, accumulated, retainedBegin, netIncome);
  }

  /** The contra line appended in place when the accumulated depreciation is not zero. */
  method AppendContra(assets0: Lines, accumulated: real) returns (assets: Lines)
    ensures assets == WithContra(assets0, accumulated)
  {
    assets := assets0;
    if accumulated != 0.0 {
      assets := assets + [Line(AccumulatedDepreciation, -accumulated)];
    }
  }

  /** The steps after the accrual pass: contra line, roll-forward, then classes and totals. */
  method AssembleSheet(t: Tables, accumulated: real, retainedBegin: real, netIncome: real) returns (bs: BalanceSheet)
    ensures bs == SheetOf(t, accumulated, retainedBegin, netIncome)
  {
    var assets := AppendContra(t.assets, accumulated);
    var endingRetained := retainedBegin + netIncome;
    var equity := RollRetainedForward(t.equity, retainedBegin, netIncome);
    bs := Presented(assets, t.liabilities, equity, accumulated, endingRetained);
    SheetOfIsPresented(t, accumulated, retainedBegin, netIncome, assets, equity);
  }

  /**
   * Total assets is the sum of every asset row, the contra line included, so
   * it is the accrued asset table's total less the accumulated depreciation;
   * and it is also the sum of the three class totals. Likewise for
   * liabilities. Total equity is summed after the roll-forward.
   */
  lemma BalanceSheetTotals(balanceEnd: seq<BalanceLine>, accs: seq<Accrual>, deps: seq<DepreciableAsset>,
                           retainedBegin: real, netIncome: real)
    ensures var bs := BalanceSheetOf(balanceEnd, accs, deps, retainedBegin, netIncome);
      var t := ApplyBalanceAccruals(Partition(balanceEnd), accs);
      && bs.totalAssets == Total(t.assets) - DepreciationTotal(deps)
      && bs.totalAssets == Total(bs.currentAssets) + Total(bs.noncurrentAssets) + Total(bs.otherAssets)
      && bs.totalLiabilities == Total(bs.currentLiabilities) + Total(bs.noncurrentLiabilities)
        + Total(bs.otherLiabilities)
      && bs.endingRetained == retainedBegin + netIncome
      && bs.totalEquity == Total(RollForward(t.equity, retainedBegin, netIncome))
  {
    var bs := BalanceSheetOf(balanceEnd, accs, deps, retainedBegin, netIncome);
    ClassTotals(bs.assets, AssetClass);
    ClassTotals(bs.liabilities, LiabilityClass);
  }

  /** The asset and liability classes are permutations of the asset and liability tables. */
  lemma BalanceSheetClasses(balanceEnd: seq<BalanceLine>, accs: seq<Accrual>, deps: seq<DepreciableAsset>,
                            retainedBegin: real, netIncome: real)
    ensures var bs := BalanceSheetOf(balanceEnd, accs, deps, retainedBegin, netIncome);
      && multiset(bs.currentAssets) + multiset(bs.noncurrentAssets) + multiset(bs.otherAssets)
        == multiset(bs.assets)
      && multiset(bs.currentLiabilities) + multiset(bs.noncurrentLiabilities) + multiset(bs.otherLiabilities)
        == multiset(bs.liabilities)
  {
    var bs := BalanceSheetOf(balanceEnd, accs, deps, retainedBegin, netIncome);
    ClassPartition(bs.assets, AssetClass);
    ClassPartition(bs.liabilities, LiabilityClass);
  }

  // ---------------------------------------------------------------- appending by index label

  /**
   * `t.loc[len(t)] = [account, amount]` as written: the label `len(t)` is
   * set, which replaces the row already carrying that label if there is one
   * and appends a row only otherwise.
   */
  function SetAtLength(t: seq<LabelledRow>, l: Line): (r: seq<LabelledRow>)
    ensures (forall i :: 0 <= i < |t| ==> t[i].index != |t|) ==> r == t + [LabelledRow(|t|, l)]
    ensures (exists i :: 0 <= i < |t| && t[i].index == |t|) ==>
      |r| == |t| && forall i :: 0 <= i < |t| ==> r[i] == (if t[i].index == |t| then LabelledRow(|t|, l) else t[i])
  {
    if exists i :: 0 <= i < |t| && t[i].index == |t| then
      seq(|t|, i requires 0 <= i < |t| => if t[i].index == |t| then LabelledRow(|t|, l) else t[i])
    else t + [LabelledRow(|t|, l)]
  }

  /**
   * On a table cut from a snapshot by Type, setting label `len(t)` appends
   * exactly when the snapshot line at position `len(t)` is of another Type
   * (or there is none); when it is of the table's Type, that line's row is
   * replaced in place and the table keeps its length.
   */
  lemma AppendAtLength(ls: seq<BalanceLine>, typ: string, l: Line)
    ensures var t := LabelledRowsOfType(ls, typ);
      var r := LinesOf(SetAtLength(t, l));
      && (!(|t| < |ls| && ls[|t|].typ == typ) ==> r == RowsOfType(ls, typ) + [l])
      && (|t| < |ls| && ls[|t|].typ == typ ==>
           exists p :: 0 <= p < |t| && t[p].index == |t| && r == RowsOfType(ls, typ)[p := l])
  {
    var t := LabelledRowsOfType(ls, typ);
    var rows := RowsOfType(ls, typ);
    var s := SetAtLength(t, l);
    if |t| < |ls| && ls[|t|].typ == typ {
      LabelledRowsCover(ls, typ);
      assert HasLabel(t, |t|);
      var p :| 0 <= p < |t| && t[p].index == |t|;
      assert LinesOf(s) == rows[p := l] by {
        forall i | 0 <= i < |t| ensures LinesOf(s)[i] == rows[p := l][i] {
          if i != p {
            assert t[i].index != t[p].index by {
              if i < p { assert t[i].index < t[p].index; } else { assert t[p].index < t[i].index; }
            }
          }
        }
      }
    } else {
      forall i | 0 <= i < |t| ensures t[i].index != |t| {
        assert t[i].index < |ls| && ls[t[i].index].typ == typ;
      }
      assert LinesOf(s) == rows + [l];
    }
  }

  /** A snapshot of a line of Type `typ`, one of another Type and one of `typ`: labels 0 and 2, two rows. */
  lemma {:induction false} LabelsSkipGap(ls: seq<BalanceLine>, typ: string)
    requires |ls| == 3 && ls[0].typ == typ && ls[1].typ != typ && ls[2].typ == typ
    ensures LabelledRowsOfType(ls, typ)
            == [LabelledRow(0, Line(ls[0].account, ls[0].amount)), LabelledRow(2, Line(ls[2].account, ls[2].amount))]
    ensures RowsOfType(ls, typ) == [Line(ls[0].account, ls[0].amount), Line(ls[2].account, ls[2].amount)]
  {
    assert ls[..2][..1] == ls[..1];
    assert ls[..1][..0] == [];
    assert LabelledRowsOfType(ls[..1], typ) == [LabelledRow(0, Line(ls[0].account, ls[0].amount))];
    assert LabelledRowsOfType(ls[..2], typ) == LabelledRowsOfType(ls[..1], typ);
  }

  /**
   * With an asset, a line of another Type and another asset in the snapshot,
   * the asset table is labelled 0 and 2, so the "append" of the contra line
   * lands on label 2 and replaces the second asset: its amount drops out of
   * total assets (`ContraKeepsAssets` is the intended table, which keeps it).
   */
  lemma ContraReplacesAsset(snapshot: seq<BalanceLine>, accumulated: real)
    requires |snapshot| == 3 && snapshot[0].typ == "Asset" && snapshot[1].typ != "Asset" && snapshot[2].typ == "Asset"
    requires accumulated != 0.0
    ensures LinesOf(SetAtLength(LabelledRowsOfType(snapshot, "Asset"), Line(AccumulatedDepreciation, -accumulated)))
            == [Line(snapshot[0].account, snapshot[0].amount), Line(AccumulatedDepreciation, -accumulated)]
    ensures Total(LinesOf(SetAtLength(LabelledRowsOfType(snapshot, "Asset"), Line(AccumulatedDepreciation, -accumulated))))
            == snapshot[0].amount - accumulated
  {
    var contra := Line(AccumulatedDepreciation, -accumulated);
    var l0 := Line(snapshot[0].account, snapshot[0].amount);
    var l2 := Line(snapshot[2].account, snapshot[2].amount);
    var t := LabelledRowsOfType(snapshot, "Asset");
    LabelsSkipGap(snapshot, "Asset");
    assert t[1].index == |t|;
    var s := SetAtLength(t, contra);
    assert s == [LabelledRow(0, l0), LabelledRow(2, contra)];
    var asWritten := LinesOf(s);
    assert asWritten == [l0, contra];
    assert [l0, contra][1..] == [contra] && [contra][1..] == [];
    assert Total([contra]) == -accumulated;
    assert Total(asWritten) == l0.amount - accumulated;
  }

  /** The intended asset table of the same snapshot keeps both assets beside the contra line. */
  lemma ContraKeepsAssets(snapshot: seq<BalanceLine>, accumulated: real)
    requires |snapshot| == 3 && snapshot[0].typ == "Asset" && snapshot[1].typ != "Asset" && snapshot[2].typ == "Asset"
    ensures Total(WithContra(RowsOfType(snapshot, "Asset"), accumulated))
            == snapshot[0].amount + snapshot[2].amount - accumulated
  {
    LabelsSkipGap(snapshot, "Asset");
    var l0 := Line(snapshot[0].account, snapshot[0].amount);
    var l2 := Line(snapshot[2].account, snapshot[2].amount);
    assert [l0, l2][1..] == [l2] && [l2][1..] == [];
    assert Total([l2]) == l2.amount;
    assert Total(RowsOfType(snapshot, "Asset")) == l0.amount + l2.amount;
  }
}
