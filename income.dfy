/**
 * The income statement: transactions posted to five account maps by the
 * first-match rule, income accruals and the depreciation total added on top,
 * then the chain of totals down to net income.
 */
module Income {
  import opened Records
  import opened Text
  import opened Ledger
  import opened Classifier
  import opened Depreciation

  // ---------------------------------------------------------------- posting transactions

  /** The account a transaction is posted under; a missing name reads as "Unknown". */
  function AccountOf(t: Transaction): string {
    OrDefault(t.account, "Unknown")
  }

  /** The bucket a transaction is posted to, from its account and its stripped Type. */
  function BucketOf(t: Transaction): Bucket {
    Classify(AccountOf(t), Strip(t.typ))
  }

  /** The map of bucket `b` after posting `ts` in order: amounts of the same account accumulate. */
  function Posted(ts: seq<Transaction>, b: Bucket): (m: Lines)
    ensures Distinct(m)
  {
    if ts == [] then []
    else
      var t := ts[|ts| - 1];
      var m := Posted(ts[..|ts| - 1], b);
      if BucketOf(t) == b then Add(m, AccountOf(t), SafeFloat(t.amount)) else m
  }

  /** The amounts of the transactions of bucket `b` and account `k`, added up. */
  function AccountSum(ts: seq<Transaction>, b: Bucket, k: string): real {
    if ts == [] then 0.0
    else
      var t := ts[|ts| - 1];
      AccountSum(ts[..|ts| - 1], b, k) + (if BucketOf(t) == b && AccountOf(t) == k then SafeFloat(t.amount) else 0.0)
  }

  /** The amounts of the transactions of bucket `b`, added up. */
  function BucketSum(ts: seq<Transaction>, b: Bucket): real {
    if ts == [] then 0.0
    else
      var t := ts[|ts| - 1];
      BucketSum(ts[..|ts| - 1], b) + (if BucketOf(t) == b then SafeFloat(t.amount) else 0.0)
  }

  /** The amounts of all transactions, added up. */
  function AmountSum(ts: seq<Transaction>): real {
    if ts == [] then 0.0 else AmountSum(ts[..|ts| - 1]) + SafeFloat(ts[|ts| - 1].amount)
  }

  /** Each account's entry in a bucket map is the sum of that account's transactions in the bucket. */
  lemma {:induction false} PostedGet(ts: seq<Transaction>, b: Bucket, k: string)
    ensures Get(Posted(ts, b), k) == AccountSum(ts, b, k)
  {
    if ts != [] {
      PostedGet(ts[..|ts| - 1], b, k);
    }
  }

  /** A bucket map totals the amounts of the transactions of that bucket. */
  lemma {:induction false} PostedTotal(ts: seq<Transaction>, b: Bucket)
    ensures Total(Posted(ts, b)) == BucketSum(ts, b)
  {
    if ts != [] {
      PostedTotal(ts[..|ts| - 1], b);
    }
  }

  /** A bucket map has an entry for exactly the accounts of the transactions posted to it. */
  lemma {:induction false} PostedHas(ts: seq<Transaction>, b: Bucket, k: string)
    ensures Has(Posted(ts, b), k) <==>
      exists i :: 0 <= i < |ts| && BucketOf(ts[i]) == b && AccountOf(ts[i]) == k
  {
    if ts != [] {
      var init := ts[..|ts| - 1];
      PostedHas(init, b, k);
      PostedHasStep(ts, b, k);
      ExistsSnoc(ts, init, t => BucketOf(t) == b && AccountOf(t) == k);
    }
  }

  /** Posting one more transaction adds its account to its own bucket only. */
  lemma PostedHasStep(ts: seq<Transaction>, b: Bucket, k: string)
    requires ts != []
    ensures var t := ts[|ts| - 1];
      Has(Posted(ts, b), k) <==> Has(Posted(ts[..|ts| - 1], b), k) || (BucketOf(t) == b && AccountOf(t) == k)
  {
  }

  /** Some element satisfies `p` iff one of the first ones does or the last one does. */
  lemma ExistsSnoc<T>(s: seq<T>, init: seq<T>, p: T -> bool)
    requires s != [] && init == s[..|s| - 1]
    ensures (exists i :: 0 <= i < |s| && p(s[i])) <==>
      (exists i :: 0 <= i < |init| && p(init[i])) || p(s[|s| - 1])
  {
    if exists i :: 0 <= i < |init| && p(init[i]) {
      var i :| 0 <= i < |init| && p(init[i]);
      assert s[i] == init[i];
    }
    if exists i :: 0 <= i < |s| && p(s[i]) {
      var i :| 0 <= i < |s| && p(s[i]);
      if i < |init| { assert init[i] == s[i]; }
    }
  }

  /**
   * Every transaction lands in exactly one bucket: the five bucket sums add
   * up to the sum of all amounts.
   */
  lemma {:induction false} BucketsConserve(ts: seq<Transaction>)
    ensures BucketSum(ts, Revenue) + BucketSum(ts, Cogs) + BucketSum(ts, Operating)
      + BucketSum(ts, OtherIncome) + BucketSum(ts, OtherExpense) == AmountSum(ts)
  {
    if ts != [] {
      BucketsConserve(ts[..|ts| - 1]);
    }
  }

  /** The other-income map stays empty: a Revenue-typed line is always taken as revenue first. */
  lemma {:induction false} NoOtherIncome(ts: seq<Transaction>)
    ensures Posted(ts, OtherIncome) == []
  {
    if ts != [] {
      NoOtherIncome(ts[..|ts| - 1]);
    }
  }

  // ---------------------------------------------------------------- income accruals

  /** The account an accrual is posted under; a missing name reads as "Accrual". */
  function AccrualAccount(a: Accrual): string {
    OrDefault(a.account, "Accrual")
  }

  /** `m` after adding every accrual whose stripped Affects is `target`, in order. */
  function Accrue(m: Lines, accs: seq<Accrual>, target: string): (r: Lines)
    ensures Distinct(m) ==> Distinct(r)
  {
    if accs == [] then m
    else
      var a := accs[|accs| - 1];
      var r := Accrue(m, accs[..|accs| - 1], target);
      if Strip(a.affects) == target then Add(r, AccrualAccount(a), SafeFloat(a.amount)) else r
  }

  /** The amounts of the accruals for `target` posted under account `k`, added up. */
  function AccrualSum(accs: seq<Accrual>, target: string, k: string): real {
    if accs == [] then 0.0
    else
      var a := accs[|accs| - 1];
      AccrualSum(accs[..|accs| - 1], target, k)
        + (if Strip(a.affects) == target && AccrualAccount(a) == k then SafeFloat(a.amount) else 0.0)
  }

  /** The amounts of the accruals for `target`, added up. */
  function AccrualTotal(accs: seq<Accrual>, target: string): real {
    if accs == [] then 0.0
    else
      var a := accs[|accs| - 1];
      AccrualTotal(accs[..|accs| - 1], target) + (if Strip(a.affects) == target then SafeFloat(a.amount) else 0.0)
  }

  /** Each account grows by its own accruals for `target`. */
  lemma {:induction false} AccrueGet(m: Lines, accs: seq<Accrual>, target: string, k: string)
    ensures Get(Accrue(m, accs, target), k) == Get(m, k) + AccrualSum(accs, target, k)
  {
    if accs != [] {
      AccrueGet(m, accs[..|accs| - 1], target, k);
    }
  }

  /** The map's total grows by the accruals for `target`. */
  lemma {:induction false} AccrueTotal(m: Lines, accs: seq<Accrual>, target: string)
    ensures Total(Accrue(m, accs, target)) == Total(m) + AccrualTotal(accs, target)
  {
    if accs != [] {
      AccrueTotal(m, accs[..|accs| - 1], target);
    }
  }

  /** Accruals for anything other than `target` (a Balance accrual, say) leave the map as it was. */
  lemma {:induction false} AccrueIgnores(m: Lines, accs: seq<Accrual>, target: string)
    requires forall i :: 0 <= i < |accs| ==> Strip(accs[i].affects) != target
    ensures Accrue(m, accs, target) == m
  {
    if accs != [] {
      AccrueIgnores(m, accs[..|accs| - 1], target);
    }
  }

  // ---------------------------------------------------------------- depreciation and totals

  const DepreciationLine := "Depreciation Expense"

  /** The operating map with a non-zero depreciation total `d` added under its own label. */
  function WithDepreciation(op: Lines, d: real): (r: Lines)
    ensures Get(r, DepreciationLine) == Get(op, DepreciationLine) + d
    ensures forall k :: k != DepreciationLine ==> Get(r, k) == Get(op, k)
    ensures Total(r) == Total(op) + d
    ensures d == 0.0 ==> r == op
    ensures Distinct(op) ==> Distinct(r)
  {
    if d != 0.0 then Add(op, DepreciationLine, d) else op
  }

  datatype Totals = Totals(
    totalRevenue: real, totalCogs: real, grossProfit: real,
    totalOperating: real, operatingIncome: real, netOtherIncome: real,
    incomeBeforeTax: real, incomeTax: real, netIncome: real, depreciationTotal: real)

  /** The totals chain, from the five maps, the tax and the depreciation total. */
  function TotalsOf(rev: Lines, cogs: Lines, op: Lines, oi: Lines, oe: Lines, tax: real, depr: real): (t: Totals)
    ensures t.totalRevenue == Total(rev) && t.totalCogs == Total(cogs) && t.totalOperating == Total(op)
    ensures t.grossProfit == t.totalRevenue - t.totalCogs
    ensures t.operatingIncome == t.grossProfit - t.totalOperating
    ensures t.netOtherIncome == Total(oi) - Total(oe)
    ensures t.incomeBeforeTax == t.operatingIncome + t.netOtherIncome
    ensures t.netIncome == t.incomeBeforeTax - t.incomeTax
    ensures t.incomeTax == tax && t.depreciationTotal == depr
    ensures t.netIncome == Total(rev) - Total(cogs) - Total(op) + Total(oi) - Total(oe) - tax
  {
    var totalRevenue := Total(rev);
    var totalCogs := Total(cogs);
    var grossProfit := totalRevenue - totalCogs;
    var totalOperating := Total(op);
    var operatingIncome := grossProfit - totalOperating;
    var netOtherIncome := Total(oi) - Total(oe);
    var incomeBeforeTax := operatingIncome + netOtherIncome;
    var netIncome := incomeBeforeTax - tax;
    Totals(totalRevenue, totalCogs, grossProfit, totalOperating, operatingIncome, netOtherIncome,
           incomeBeforeTax, tax, netIncome, depr)
  }

  datatype IncomeStatement = IncomeStatement(
    revenueLines: Lines, cogsLines: Lines, operatingLines: Lines,
    otherIncomeLines: Lines, otherExpenseLines: Lines, totals: Totals)

  /**
   * The income statement of the transactions, accruals and depreciation rows,
   * and the tax field: five maps with one line per account, no other-income
   * lines, and the tax and depreciation total carried into the totals.
   */
  function IncomeStatementOf(ts: seq<Transaction>, accs: seq<Accrual>, assets: seq<DepreciableAsset>,
                             taxManual: Option<real>): (s: IncomeStatement)
    ensures Distinct(s.revenueLines) && Distinct(s.cogsLines) && Distinct(s.operatingLines)
    ensures Distinct(s.otherIncomeLines) && Distinct(s.otherExpenseLines)
    ensures s.otherIncomeLines == [] && s.totals.netOtherIncome == -Total(s.otherExpenseLines)
    ensures s.totals.incomeTax == SafeFloat(taxManual) && s.totals.depreciationTotal == DepreciationTotal(assets)
  {
    var d := DepreciationTotal(assets);
    var rev := Accrue(Posted(ts, Revenue), accs, "Revenue");
    var op := WithDepreciation(Accrue(Posted(ts, Operating), accs, "Expense"), d);
    var cogs, oi, oe := Posted(ts, Cogs), Posted(ts, OtherIncome), Posted(ts, OtherExpense);
    NoOtherIncome(ts);
    IncomeStatement(rev, cogs, op, oi, oe, TotalsOf(rev, cogs, op, oi, oe, SafeFloat(taxManual), d))
  }

  /** The transaction pass: each transaction added to the map of its bucket. */
  method PostTransactions(ts: seq<Transaction>)
    returns (revenue: Lines, cogs: Lines, operating: Lines, otherIncome: Lines, otherExpense: Lines)
    ensures revenue == Posted(ts, Revenue) && cogs == Posted(ts, Cogs) && operating == Posted(ts, Operating)
    ensures otherIncome == Posted(ts, OtherIncome) && otherExpense == Posted(ts, OtherExpense)
  {
    revenue, cogs, operating, otherIncome, otherExpense := [], [], [], [], [];
    var i := 0;
    while i < |ts|
      invariant 0 <= i <= |ts|
      invariant revenue == Posted(ts[..i], Revenue) && cogs == Posted(ts[..i], Cogs)
      invariant operating == Posted(ts[..i], Operating)
      invariant otherIncome == Posted(ts[..i], OtherIncome) && otherExpense == Posted(ts[..i], OtherExpense)
    {
      assert ts[..i + 1][..i] == ts[..i];
      revenue, cogs, operating, otherIncome, otherExpense :=
        PostOne(ts[i], revenue, cogs, operating, otherIncome, otherExpense);
      i := i + 1;
    }
    assert ts[..i] == ts;
  }

  /** One transaction of the pass: its amount added, under its account, to the map its branch picks. */
  method PostOne(r: Transaction, revenue0: Lines, cogs0: Lines, operating0: Lines, otherIncome0: Lines, otherExpense0: Lines)
    returns (revenue: Lines, cogs: Lines, operating: Lines, otherIncome: Lines, otherExpense: Lines)
    ensures revenue == (if BucketOf(r) == Revenue then Add(revenue0, AccountOf(r), SafeFloat(r.amount)) else revenue0)
    ensures cogs == (if BucketOf(r) == Cogs then Add(cogs0, AccountOf(r), SafeFloat(r.amount)) else cogs0)
    ensures operating == (if BucketOf(r) == Operating then Add(operating0, AccountOf(r), SafeFloat(r.amount)) else operating0)
    ensures otherIncome ==
      (if BucketOf(r) == OtherIncome then Add(otherIncome0, AccountOf(r), SafeFloat(r.amount)) else otherIncome0)
    ensures otherExpense ==
      (if BucketOf(r) == OtherExpense then Add(otherExpense0, AccountOf(r), SafeFloat(r.amount)) else otherExpense0)
  {
    revenue, cogs, operating, otherIncome, otherExpense := revenue0, cogs0, operating0, otherIncome0, otherExpense0;
    var acct := OrDefault(r.account, "Unknown");
    var amt := SafeFloat(r.amount);
    var typ := Strip(r.typ);
    if acct in RevenueAccounts || typ == "Revenue" {
      revenue := Add(revenue, acct, amt);
    } else if acct in CogsAccounts || (typ == "Expense" && acct in CogsAccounts) {
      cogs := Add(cogs, acct, amt);
    } else if typ == "Expense" {
      if acct in OperatingAccounts {
        operating := Add(operating, acct, amt);
      } else {
        operating := Add(operating, acct, amt);
      }
    } else {
      if typ == "Revenue" {
        otherIncome := Add(otherIncome, acct, amt);
      } else {
        otherExpense := Add(otherExpense, acct, amt);
      }
    }
  }

  /** The accrual pass: Revenue accruals into the revenue map, Expense accruals into the operating map. */
  method AccrueIncome(revenue0: Lines, operating0: Lines, accs: seq<Accrual>)
    returns (revenue: Lines, operating: Lines)
    ensures revenue == Accrue(revenue0, accs, "Revenue")
    ensures operating == Accrue(operating0, accs, "Expense")
  {
    revenue, operating := revenue0, operating0;
    var j := 0;
    while j < |accs|
      invariant 0 <= j <= |accs|
      invariant revenue == Accrue(revenue0, accs[..j], "Revenue")
      invariant operating == Accrue(operating0, accs[..j], "Expense")
    {
      var a := accs[j];
      var affects := Strip(a.affects);
      var acct := OrDefault(a.account, "Accrual");
      var amt := SafeFloat(a.amount);
      ghost var before := accs[..j];
      assert accs[..j + 1][..j] == before;
      assert Accrue(revenue0, accs[..j + 1], "Revenue") ==
        (if affects == "Revenue" then Add(revenue, acct, amt) else revenue);
      assert Accrue(operating0, accs[..j + 1], "Expense") ==
        (if affects == "Expense" then Add(operating, acct, amt) else operating);
      if affects == "Revenue" {
        revenue := Add(revenue, acct, amt);
      } else if affects == "Expense" {
        operating := Add(operating, acct, amt);
      }
      j := j + 1;
    }
    assert accs[..j] == accs;
  }

  /**
   * Builds the statement as the source does: one pass over the transactions
   * updating five maps, one pass over the accruals, then depreciation and totals.
   */
  method ComputeIncomeStatement(ts: seq<Transaction>, accs: seq<Accrual>, assets: seq<DepreciableAsset>,
                                taxManual: Option<real>) returns (s: IncomeStatement)
    ensures s == IncomeStatementOf(ts, accs, assets, taxManual)
  {
    var revenue, cogs, operating, otherIncome, otherExpense := PostTransactions(ts);
    if |accs| > 0 {
      revenue, operating := AccrueIncome(revenue, operating, accs);
    }
    assert revenue == Accrue(Posted(ts, Revenue), accs, "Revenue");
    assert operating == Accrue(Posted(ts, Operating), accs, "Expense");

    var deprTotal := 0.0;
    if |assets| > 0 {
      deprTotal := DepreciationTotal(assets);
    }
    assert deprTotal == DepreciationTotal(assets);
    if deprTotal != 0.0 {
      operating := Add(operating, DepreciationLine, deprTotal);
    }
    assert operating == WithDepreciation(Accrue(Posted(ts, Operating), accs, "Expense"), deprTotal);

    var totals := TotalsOf(revenue, cogs, operating, otherIncome, otherExpense, SafeFloat(taxManual), deprTotal);
    s := IncomeStatement(revenue, cogs, operating, otherIncome, otherExpense, totals);
  }

  /**
   * Net income straight from the inputs: revenue transactions and accruals,
   * less COGS, operating transactions, expense accruals, the depreciation
   * total, other-expense transactions and the tax.
   */
  lemma NetIncomeFromInputs(ts: seq<Transaction>, accs: seq<Accrual>, assets: seq<DepreciableAsset>,
                            taxManual: Option<real>)
    ensures IncomeStatementOf(ts, accs, assets, taxManual).totals.netIncome ==
      BucketSum(ts, Revenue) + AccrualTotal(accs, "Revenue")
      - BucketSum(ts, Cogs)
      - BucketSum(ts, Operating) - AccrualTotal(accs, "Expense") - DepreciationTotal(assets)
      - BucketSum(ts, OtherExpense)
      - SafeFloat(taxManual)
  {
    PostedTotal(ts, Revenue);
    PostedTotal(ts, Cogs);
    PostedTotal(ts, Operating);
    PostedTotal(ts, OtherExpense);
    NoOtherIncome(ts);
    AccrueTotal(Posted(ts, Revenue), accs, "Revenue");
    AccrueTotal(Posted(ts, Operating), accs, "Expense");
  }

  /**
   * The depreciation line of the operating map holds the operating
   * transactions and expense accruals booked under that name plus the
   * depreciation total.
   */
  lemma DepreciationLineAmount(ts: seq<Transaction>, accs: seq<Accrual>, assets: seq<DepreciableAsset>,
                               taxManual: Option<real>)
    ensures Get(IncomeStatementOf(ts, accs, assets, taxManual).operatingLines, DepreciationLine) ==
      AccountSum(ts, Operating, DepreciationLine) + AccrualSum(accs, "Expense", DepreciationLine)
      + DepreciationTotal(assets)
  {
    PostedGet(ts, Operating, DepreciationLine);
    AccrueGet(Posted(ts, Operating), accs, "Expense", DepreciationLine);
  }
}
