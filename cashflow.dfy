/**
 * The indirect cash-flow statement: the starting income figure plus
 * depreciation, adjusted by the change of every working-capital account
 * between the two snapshots, then investing and financing totals and the
 * beginning and ending cash balances.
 */
module CashFlow {
  import opened Records
  import opened Text
  import Classifier

  // ---------------------------------------------------------------- snapshot lookups

  /** The account names of a snapshot, in row order. */
  function Names(t: seq<BalanceLine>): (r: seq<string>)
    ensures |r| == |t| && forall i :: 0 <= i < |t| ==> r[i] == t[i].account
  {
    if t == [] then [] else Names(t[..|t| - 1]) + [t[|t| - 1].account]
  }

  /** The accounts the statement walks: the names of both snapshots, without repeats, sorted. */
  function AllAccounts(beg: seq<BalanceLine>, end: seq<BalanceLine>): (r: seq<string>)
    ensures Ascending(r)
    ensures forall k :: k in r <==> k in Names(beg) || k in Names(end)
  {
    SortedDistinct(Names(beg) + Names(end))
  }

  /** The positions of the rows of the snapshot named `k`. */
  ghost function RowsNamed(t: seq<BalanceLine>, k: string): set<nat> {
    set i: nat | i < |t| && t[i].account == k
  }

  /** How many rows of the snapshot are named `k`. */
  function Occurrences(t: seq<BalanceLine>, k: string): (n: nat)
    ensures n == |RowsNamed(t, k)|
    ensures n == 0 <==> forall i :: 0 <= i < |t| ==> t[i].account != k
  {
    if t == [] then
      assert RowsNamed(t, k) == {};
      0
    else
      var init := t[..|t| - 1];
      var n := Occurrences(init, k) + (if t[|t| - 1].account == k then 1 else 0);
      assert forall i :: 0 <= i < |init| ==> init[i] == t[i];
      assert |t| - 1 !in RowsNamed(init, k);
      assert RowsNamed(t, k) == RowsNamed(init, k) + (if t[|t| - 1].account == k then {|t| - 1} else {});
      n
  }

  /** The amount of the first row named `k`. */
  function FirstAmount(t: seq<BalanceLine>, k: string): (r: real)
    ensures forall i :: (0 <= i < |t| && t[i].account == k && (forall j :: 0 <= j < i ==> t[j].account != k)
      ==> r == t[i].amount)
  {
    if t == [] then 0.0
    else if t[0].account == k then t[0].amount
    else
      var r := FirstAmount(t[1..], k);
      assert forall i :: 1 <= i < |t| ==> t[1..][i - 1] == t[i];
      r
  }

  /**
   * `safe_float(series.get(k, 0.0))` on the snapshot indexed by account:
   * the amount of the one row named `k`; 0 when there is none, and 0 as
   * well when several rows share the name, because the lookup then yields
   * a series that does not convert to a number.
   */
  function SnapshotAmount(t: seq<BalanceLine>, k: string): (r: real)
    ensures Occurrences(t, k) != 1 ==> r == 0.0
    ensures Occurrences(t, k) == 1 ==> forall i :: 0 <= i < |t| && t[i].account == k ==> r == t[i].amount
  {
    if Occurrences(t, k) == 1 then
      UniqueRow(t, k);
      FirstAmount(t, k)
    else 0.0
  }

  /** In a snapshot with exactly one row named `k`, no two rows are so named. */
  lemma {:induction false} UniqueRow(t: seq<BalanceLine>, k: string)
    requires Occurrences(t, k) == 1
    ensures forall i, j :: 0 <= i < |t| && 0 <= j < |t| && t[i].account == k && t[j].account == k ==> i == j
  {
    var init := t[..|t| - 1];
    assert forall i :: 0 <= i < |init| ==> init[i] == t[i];
    if t[|t| - 1].account == k {
      assert Occurrences(init, k) == 0;
    } else {
      UniqueRow(init, k);
    }
  }

  /** Two rows named `k` make the name occur at least twice. */
  lemma TwoRowsNamed(t: seq<BalanceLine>, k: string, i: nat, j: nat)
    requires i < j < |t| && t[i].account == k && t[j].account == k
    ensures Occurrences(t, k) >= 2
  {
    if Occurrences(t, k) == 1 {
      UniqueRow(t, k);
    }
  }

  /**
   * The change of account `k` between the snapshots: the ending amount less
   * the beginning amount, a side without a (single) row named `k` counting as 0.
   */
  function Change(beg: seq<BalanceLine>, end: seq<BalanceLine>, k: string): (r: real)
    ensures Occurrences(beg, k) != 1 && Occurrences(end, k) != 1 ==> r == 0.0
    ensures Occurrences(end, k) == 1 && Occurrences(beg, k) == 1 ==>
      forall i, j :: 0 <= i < |end| && end[i].account == k && 0 <= j < |beg| && beg[j].account == k ==>
        r == end[i].amount - beg[j].amount
    ensures Occurrences(end, k) == 1 && Occurrences(beg, k) != 1 ==>
      forall i :: 0 <= i < |end| && end[i].account == k ==> r == end[i].amount
    ensures Occurrences(beg, k) == 1 && Occurrences(end, k) != 1 ==>
      forall j :: 0 <= j < |beg| && beg[j].account == k ==> r == -beg[j].amount
  {
    SnapshotAmount(end, k) - SnapshotAmount(beg, k)
  }

  // ---------------------------------------------------------------- working capital

  const WorkingAssetKeys: seq<string> := ["receivable", "inventory", "prepaid"]
  const WorkingLiabilityKeys: seq<string> := ["payable", "accrued", "tax payable"]

  /** A current-asset account for the statement: receivable, inventory or prepaid in its name. */
  predicate IsWorkingAsset(name: string): (r: bool)
    ensures r <==> exists k :: k in WorkingAssetKeys && Contains(Lower(name), k)
  {
    var low := Lower(name);
    assert forall k :: k in WorkingAssetKeys <==> k == "receivable" || k == "inventory" || k == "prepaid";
    assert "receivable" in WorkingAssetKeys && "inventory" in WorkingAssetKeys && "prepaid" in WorkingAssetKeys;
    Contains(low, "receivable") || Contains(low, "inventory") || Contains(low, "prepaid")
  }

  /** A current-liability account for the statement: payable, accrued or tax payable in its name. */
  predicate IsWorkingLiability(name: string): (r: bool)
    ensures r <==> exists k :: k in WorkingLiabilityKeys && Contains(Lower(name), k)
  {
    var low := Lower(name);
    assert forall k :: k in WorkingLiabilityKeys <==> k == "payable" || k == "accrued" || k == "tax payable";
    assert "payable" in WorkingLiabilityKeys && "accrued" in WorkingLiabilityKeys && "tax payable" in WorkingLiabilityKeys;
    Contains(low, "payable") || Contains(low, "accrued") || Contains(low, "tax payable")
  }

  /**
   * The statement's working-capital tests are narrower than the balance
   * sheet's: a working-capital asset is a current asset there, and a
   * working-capital liability a current liability.
   */
  lemma WorkingAccountsAreCurrent(name: string)
    ensures IsWorkingAsset(name) ==> Classifier.IsCurrentAsset(name)
    ensures IsWorkingLiability(name) ==> Classifier.IsCurrentLiability(name)
  {
  }

  /** The "tax payable" test never decides anything: such a name already contains "payable". */
  lemma WorkingTaxPayableRedundant(name: string)
    ensures IsWorkingLiability(name) <==> Contains(Lower(name), "payable") || Contains(Lower(name), "accrued")
  {
    var low := Lower(name);
    if Contains(low, "tax payable") {
      ContainsInfix(low, "tax payable", 4, 7);
      assert "tax payable"[4..11] == "payable";
    }
  }

  const AssetChangeLabel := "Change in current asset"
  const LiabilityChangeLabel := "Change in current liability"

  datatype WorkingEntry = WorkingEntry(account: string, change: real, caption: string)

  /** The working-capital entries for `names`, one per matching account, in the order of `names`. */
  function WorkingEntries(names: seq<string>, beg: seq<BalanceLine>, end: seq<BalanceLine>): (ws: seq<WorkingEntry>)
    ensures |ws| <= |names|
    ensures forall e :: e in ws ==> e.account in names && e.change == Change(beg, end, e.account)
    ensures forall e :: e in ws ==> IsWorkingAsset(e.account) || IsWorkingLiability(e.account)
    ensures forall e :: e in ws ==>
      (e.caption == AssetChangeLabel <==> IsWorkingAsset(e.account))
      && (e.caption == LiabilityChangeLabel <==> !IsWorkingAsset(e.account) && IsWorkingLiability(e.account))
  {
    if names == [] then []
    else
      var acct := names[|names| - 1];
      var ws := WorkingEntries(names[..|names| - 1], beg, end);
      var ch := Change(beg, end, acct);
      if IsWorkingAsset(acct) then ws + [WorkingEntry(acct, ch, AssetChangeLabel)]
      else if IsWorkingLiability(acct) then ws + [WorkingEntry(acct, ch, LiabilityChangeLabel)]
      else ws
  }

  /** An account has an entry exactly when it is one of `names` and a working-capital account. */
  lemma {:induction false} WorkingEntriesCover(names: seq<string>, beg: seq<BalanceLine>, end: seq<BalanceLine>, k: string)
    ensures (exists e :: e in WorkingEntries(names, beg, end) && e.account == k) <==>
      k in names && (IsWorkingAsset(k) || IsWorkingLiability(k))
  {
    if names != [] {
      var init := names[..|names| - 1];
      WorkingEntriesCover(init, beg, end, k);
      assert names == init + [names[|names| - 1]];
      var ws := WorkingEntries(names, beg, end);
      if k in names && (IsWorkingAsset(k) || IsWorkingLiability(k)) && k !in init {
        assert ws[|ws| - 1].account == k;
      }
    }
  }

  /** Each account of `names` adds at most one entry, at the end. */
  lemma WorkingEntriesSnoc(names: seq<string>, beg: seq<BalanceLine>, end: seq<BalanceLine>)
    requires names != []
    ensures var ws0 := WorkingEntries(names[..|names| - 1], beg, end);
      var ws := WorkingEntries(names, beg, end);
      ws == ws0 || (|ws| == |ws0| + 1 && ws[..|ws0|] == ws0 && ws[|ws0|].account == names[|names| - 1])
  {
  }

  /** The accounts of the entries, in order. */
  function EntryAccounts(ws: seq<WorkingEntry>): (r: seq<string>)
    ensures |r| == |ws| && forall i :: 0 <= i < |ws| ==> r[i] == ws[i].account
  {
    if ws == [] then [] else EntryAccounts(ws[..|ws| - 1]) + [ws[|ws| - 1].account]
  }

  /** The entries follow the order of `names`, so they are sorted when the names are. */
  lemma {:induction false} WorkingEntriesOrdered(names: seq<string>, beg: seq<BalanceLine>, end: seq<BalanceLine>)
    requires Ascending(names)
    ensures Ascending(EntryAccounts(WorkingEntries(names, beg, end)))
    ensures forall k :: k in EntryAccounts(WorkingEntries(names, beg, end)) ==> k in names
  {
    if names != [] {
      var init := names[..|names| - 1];
      var last := names[|names| - 1];
      assert Ascending(init) by {
        forall i, j | 0 <= i < j < |init| ensures Before(init[i], init[j]) { assert init[i] == names[i] && init[j] == names[j]; }
      }
      WorkingEntriesOrdered(init, beg, end);
      WorkingEntriesSnoc(names, beg, end);
      var xs0 := EntryAccounts(WorkingEntries(init, beg, end));
      var xs := EntryAccounts(WorkingEntries(names, beg, end));
      if |xs| > |xs0| {
        assert xs == xs0 + [last];
        forall k | k in xs0 ensures Before(k, last) && k in names {
          var p :| 0 <= p < |init| && init[p] == k;
          assert names[p] == k;
        }
        AscendingSnoc(xs0, last);
      } else {
        assert xs == xs0;
      }
    }
  }

  lemma AscendingSnoc(xs: seq<string>, x: string)
    requires Ascending(xs) && forall k :: k in xs ==> Before(k, x)
    ensures Ascending(xs + [x])
  {
    var ys := xs + [x];
    forall i, j | 0 <= i < j < |ys| ensures Before(ys[i], ys[j]) {
      assert ys[i] in xs;
      if j < |xs| { assert ys[j] == xs[j]; }
    }
  }

  /** The effect of the entries on cash from operations: asset changes subtract, liability changes add. */
  function Adjustment(ws: seq<WorkingEntry>): real {
    if ws == [] then 0.0
    else
      var e := ws[|ws| - 1];
      Adjustment(ws[..|ws| - 1]) + (if e.caption == AssetChangeLabel then -e.change else e.change)
  }

  /** The changes of the working-capital asset accounts among `names`, added up. */
  function AssetChanges(names: seq<string>, beg: seq<BalanceLine>, end: seq<BalanceLine>): real {
    if names == [] then 0.0
    else
      var k := names[|names| - 1];
      AssetChanges(names[..|names| - 1], beg, end) + (if IsWorkingAsset(k) then Change(beg, end, k) else 0.0)
  }

  /** The changes of the working-capital liability accounts among `names`, added up. */
  function LiabilityChanges(names: seq<string>, beg: seq<BalanceLine>, end: seq<BalanceLine>): real {
    if names == [] then 0.0
    else
      var k := names[|names| - 1];
      LiabilityChanges(names[..|names| - 1], beg, end)
        + (if !IsWorkingAsset(k) && IsWorkingLiability(k) then Change(beg, end, k) else 0.0)
  }

  /** The entries adjust cash by the liability changes less the asset changes. */
  lemma {:induction false} AdjustmentIsChanges(names: seq<string>, beg: seq<BalanceLine>, end: seq<BalanceLine>)
    ensures Adjustment(WorkingEntries(names, beg, end)) == LiabilityChanges(names, beg, end) - AssetChanges(names, beg, end)
  {
    if names != [] {
      var init := names[..|names| - 1];
      AdjustmentIsChanges(init, beg, end);
      var ws0 := WorkingEntries(init, beg, end);
      var ws := WorkingEntries(names, beg, end);
      if |ws| > |ws0| {
        assert ws[..|ws| - 1] == ws0;
      }
    }
  }

  // ---------------------------------------------------------------- cash

  /** `df['Amount'].sum()` of the investing or financing entries. */
  function CashTotal(entries: seq<CashEntry>): (r: real)
    ensures (forall i :: 0 <= i < |entries| ==> entries[i].amount >= 0.0) ==> r >= 0.0
    ensures (forall i :: 0 <= i < |entries| ==> entries[i].amount <= 0.0) ==> r <= 0.0
  {
    if entries == [] then 0.0 else CashTotal(entries[..|entries| - 1]) + entries[|entries| - 1].amount
  }

  /** The total of two lists of entries one after the other is the sum of their totals. */
  lemma {:induction false} CashTotalConcat(a: seq<CashEntry>, b: seq<CashEntry>)
    ensures CashTotal(a + b) == CashTotal(a) + CashTotal(b)
    decreases |b|
  {
    if b != [] {
      CashTotalConcat(a, b[..|b| - 1]);
      assert (a + b)[..|a + b| - 1] == a + b[..|b| - 1];
    } else {
      assert a + b == a;
    }
  }

  /** A cash row: "cash" in its lower-cased name, which also makes it a current asset. */
  predicate IsCash(b: BalanceLine): (r: bool)
    ensures r ==> Classifier.IsCurrentAsset(b.account)
  {
    Contains(Lower(b.account), "cash")
  }

  /** The amount of the first row whose name contains "cash" in any case, or 0 if there is none. */
  function FirstCash(t: seq<BalanceLine>): (r: real)
    ensures (forall i :: 0 <= i < |t| ==> !IsCash(t[i])) ==> r == 0.0
    ensures forall i :: 0 <= i < |t| && IsCash(t[i]) && (forall j :: 0 <= j < i ==> !IsCash(t[j])) ==> r == t[i].amount
  {
    if t == [] then 0.0
    else if IsCash(t[0]) then t[0].amount
    else
      var r := FirstCash(t[1..]);
      assert forall i :: 1 <= i < |t| ==> t[1..][i - 1] == t[i];
      r
  }

  /** The scan for the cash row, stopping at the first match. */
  method ScanCash(t: seq<BalanceLine>) returns (cash: real)
    ensures cash == FirstCash(t)
  {
    cash := 0.0;
    if |t| > 0 {
      var i := 0;
      while i < |t|
        invariant 0 <= i <= |t|
        invariant forall j :: 0 <= j < i ==> !IsCash(t[j])
        invariant cash == 0.0
      {
        if IsCash(t[i]) {
          cash := t[i].amount;
          break;
        }
        i := i + 1;
      }
    }
  }

  // ---------------------------------------------------------------- the statement

  datatype CashFlowStatement = CashFlowStatement(
    cashFromOperations: real, working: seq<WorkingEntry>,
    cashFromInvesting: real, cashFromFinancing: real, netChange: real,
    beginningCash: real, endingCash: real)

  /**
   * The statement for a starting income figure, the depreciation total, the
   * two snapshots and the cash entries: the net change is the sum of the three
   * sections, and the working-capital entries are working-capital accounts of
   * either snapshot, in ascending order of name.
   */
  function CashFlowOf(start: real, depreciation: real, beg: seq<BalanceLine>, end: seq<BalanceLine>,
                      investing: seq<CashEntry>, financing: seq<CashEntry>): (cf: CashFlowStatement)
    ensures cf.netChange == cf.cashFromOperations + cf.cashFromInvesting + cf.cashFromFinancing
    ensures Ascending(EntryAccounts(cf.working))
    ensures forall e :: e in cf.working ==>
      (e.account in Names(beg) || e.account in Names(end)) && (IsWorkingAsset(e.account) || IsWorkingLiability(e.account))
    ensures cf.cashFromOperations == start + depreciation + Adjustment(cf.working)
    ensures cf.cashFromInvesting == CashTotal(investing) && cf.cashFromFinancing == CashTotal(financing)
    ensures cf.beginningCash == FirstCash(beg) && cf.endingCash == FirstCash(end)
  {
    WorkingEntriesOrdered(AllAccounts(beg, end), beg, end);
    var working := WorkingEntries(AllAccounts(beg, end), beg, end);
    var ops := start + depreciation + Adjustment(working);
    var inv, fin := CashTotal(investing), CashTotal(financing);
    CashFlowStatement(ops, working, inv, fin, ops + inv + fin, FirstCash(beg), FirstCash(end))
  }

  /**
   * The pass over the sorted accounts: each receivable / inventory / prepaid
   * account's change is subtracted from `ops0`, each payable / accrued
   * account's change added, and an entry recorded for each.
   */
  method WorkingCapital(ops0: real, allAccounts: seq<string>, beg: seq<BalanceLine>, end: seq<BalanceLine>)
    returns (ops: real, working: seq<WorkingEntry>)
    ensures working == WorkingEntries(allAccounts, beg, end)
    ensures ops == ops0 + Adjustment(working)
  {
    ops := ops0;
    working := [];
    var i := 0;
    while i < |allAccounts|
      invariant 0 <= i <= |allAccounts|
      invariant working == WorkingEntries(allAccounts[..i], beg, end)
      invariant ops == ops0 + Adjustment(working)
    {
      var acct := allAccounts[i];
      var b := SnapshotAmount(beg, acct);
      var e := SnapshotAmount(end, acct);
      var ch := e - b;
      assert ch == Change(beg, end, acct);
      assert allAccounts[..i + 1][..i] == allAccounts[..i];
      if IsWorkingAsset(acct) {
        ops := ops - ch;
        working := working + [WorkingEntry(acct, ch, AssetChangeLabel)];
      } else if IsWorkingLiability(acct) {
        ops := ops + ch;
        working := working + [WorkingEntry(acct, ch, LiabilityChangeLabel)];
      }
      i := i + 1;
    }
    assert allAccounts[..i] == allAccounts;
  }

  /** Builds the statement as the source does: the working-capital pass, the two totals, then the cash scans. */
  method CashFlowIndirect(start: real, depreciation: real, beg: seq<BalanceLine>, end: seq<BalanceLine>,
                          investing: seq<CashEntry>, financing: seq<CashEntry>) returns (cf: CashFlowStatement)
    ensures cf == CashFlowOf(start, depreciation, beg, end, investing, financing)
  {
    var ops, working := WorkingCapital(start + depreciation, AllAccounts(beg, end), beg, end);

    var investingTotal := if |investing| > 0 then CashTotal(investing) else 0.0;
    var financingTotal := if |financing| > 0 then CashTotal(financing) else 0.0;

    var begCash := ScanCash(beg);
    var endCash := ScanCash(end);

    var netChange := ops + investingTotal + financingTotal;
    cf := CashFlowStatement(ops, working, investingTotal, financingTotal, netChange, begCash, endCash);
    CashFlowOfParts(start, depreciation, beg, end, investing, financing, cf);
  }

  /** A statement whose parts are the ones `CashFlowOf` computes is `CashFlowOf`. */
  lemma CashFlowOfParts(start: real, depreciation: real, beg: seq<BalanceLine>, end: seq<BalanceLine>,
                        investing: seq<CashEntry>, financing: seq<CashEntry>, cf: CashFlowStatement)
    requires cf.working == WorkingEntries(AllAccounts(beg, end), beg, end)
    requires cf.cashFromOperations == start + depreciation + Adjustment(cf.working)
    requires cf.cashFromInvesting == CashTotal(investing) && cf.cashFromFinancing == CashTotal(financing)
    requires cf.netChange == cf.cashFromOperations + cf.cashFromInvesting + cf.cashFromFinancing
    requires cf.beginningCash == FirstCash(beg) && cf.endingCash == FirstCash(end)
    ensures cf == CashFlowOf(start, depreciation, beg, end, investing, financing)
  {
  }

  /**
   * Cash from operations is the starting figure plus depreciation, less the
   * changes of the receivable / inventory / prepaid accounts, plus the
   * changes of the payable / accrued accounts; the net change adds the
   * investing and financing totals.
   */
  lemma OperationsFormula(start: real, depreciation: real, beg: seq<BalanceLine>, end: seq<BalanceLine>,
                          investing: seq<CashEntry>, financing: seq<CashEntry>)
    ensures var cf := CashFlowOf(start, depreciation, beg, end, investing, financing);
      var names := AllAccounts(beg, end);
      && cf.cashFromOperations ==
        start + depreciation - AssetChanges(names, beg, end) + LiabilityChanges(names, beg, end)
      && cf.netChange == cf.cashFromOperations + CashTotal(investing) + CashTotal(financing)
  {
    AdjustmentIsChanges(AllAccounts(beg, end), beg, end);
  }
}
