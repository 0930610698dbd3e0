/**
 * The report run: the income statement, the balance sheet fed its net
 * income, the depreciation journal and the cash-flow statement, computed
 * from one set of merged inputs.
 */
module Reports {
  import opened Records
  import opened Depreciation
  import opened Income
  import opened Balance
  import opened CashFlow

  /** The merged tables and the two manual figures a report run reads. */
  datatype Inputs = Inputs(
    transactions: seq<Transaction>,
    balanceBegin: seq<BalanceLine>, balanceEnd: seq<BalanceLine>,
    accruals: seq<Accrual>, depreciation: seq<DepreciableAsset>,
    investing: seq<CashEntry>, financing: seq<CashEntry>,
    retainedBegin: real, incomeTax: Option<real>)

  datatype Statements = Statements(
    income: IncomeStatement, balance: BalanceSheet, journal: seq<JournalRow>, cashFlow: CashFlowStatement)

  /**
   * The run as written: cash from operations starts from income before tax,
   * adds the depreciation total and adjusts by the working-capital changes.
   */
  function StatementsAsWritten(inp: Inputs, base: int): (s: Statements)
    ensures var names := AllAccounts(inp.balanceBegin, inp.balanceEnd);
      s.cashFlow.cashFromOperations ==
        s.income.totals.incomeBeforeTax + DepreciationTotal(inp.depreciation)
        - AssetChanges(names, inp.balanceBegin, inp.balanceEnd)
        + LiabilityChanges(names, inp.balanceBegin, inp.balanceEnd)
  {
    var income := IncomeStatementOf(inp.transactions, inp.accruals, inp.depreciation, inp.incomeTax);
    OperationsFormula(income.totals.incomeBeforeTax, income.totals.depreciationTotal,
                      inp.balanceBegin, inp.balanceEnd, inp.investing, inp.financing);
    Statements(
      income,
      BalanceSheetOf(inp.balanceEnd, inp.accruals, inp.depreciation, inp.retainedBegin, income.totals.netIncome),
      Journal(inp.depreciation, base),
      CashFlowOf(income.totals.incomeBeforeTax, income.totals.depreciationTotal,
                 inp.balanceBegin, inp.balanceEnd, inp.investing, inp.financing))
  }

  /** The run as intended: cash from operations starts from net income, like the balance sheet. */
  function StatementsOf(inp: Inputs, base: int): (s: Statements)
    ensures var names := AllAccounts(inp.balanceBegin, inp.balanceEnd);
      s.cashFlow.cashFromOperations ==
        s.income.totals.netIncome + DepreciationTotal(inp.depreciation)
        - AssetChanges(names, inp.balanceBegin, inp.balanceEnd)
        + LiabilityChanges(names, inp.balanceBegin, inp.balanceEnd)
  {
    var income := IncomeStatementOf(inp.transactions, inp.accruals, inp.depreciation, inp.incomeTax);
    OperationsFormula(income.totals.netIncome, income.totals.depreciationTotal,
                      inp.balanceBegin, inp.balanceEnd, inp.investing, inp.financing);
    Statements(
      income,
      BalanceSheetOf(inp.balanceEnd, inp.accruals, inp.depreciation, inp.retainedBegin, income.totals.netIncome),
      Journal(inp.depreciation, base),
      CashFlowOf(income.totals.netIncome, income.totals.depreciationTotal,
                 inp.balanceBegin, inp.balanceEnd, inp.investing, inp.financing))
  }

  /** The run, statement by statement, each built by its own procedure. */
  method GenerateStatements(inp: Inputs, base: int) returns (s: Statements)
    ensures s == StatementsOf(inp, base)
  {
    var income := ComputeIncomeStatement(inp.transactions, inp.accruals, inp.depreciation, inp.incomeTax);
    var balance := ComputeBalanceSheet(inp.balanceEnd, inp.accruals, inp.depreciation, inp.retainedBegin,
                                       income.totals.netIncome);
    var journal := GenerateJournal(inp.depreciation, base);
    var cashFlow := CashFlowIndirect(income.totals.netIncome, income.totals.depreciationTotal,
                                     inp.balanceBegin, inp.balanceEnd, inp.investing, inp.financing);
    s := Statements(income, balance, journal, cashFlow);
  }

  /**
   * In the intended run the profit the balance sheet adds to retained
   * earnings is the figure cash from operations starts from: operations are
   * that profit plus depreciation, less the working-capital asset changes,
   * plus the working-capital liability changes.
   */
  lemma OperationsFromRetainedProfit(inp: Inputs, base: int)
    ensures var s := StatementsOf(inp, base);
      var names := AllAccounts(inp.balanceBegin, inp.balanceEnd);
      s.cashFlow.cashFromOperations ==
        (s.balance.endingRetained - inp.retainedBegin) + DepreciationTotal(inp.depreciation)
        - AssetChanges(names, inp.balanceBegin, inp.balanceEnd)
        + LiabilityChanges(names, inp.balanceBegin, inp.balanceEnd)
  {
    var income := IncomeStatementOf(inp.transactions, inp.accruals, inp.depreciation, inp.incomeTax);
    BalanceSheetTotals(inp.balanceEnd, inp.accruals, inp.depreciation, inp.retainedBegin, income.totals.netIncome);
    OperationsFormula(income.totals.netIncome, income.totals.depreciationTotal,
                      inp.balanceBegin, inp.balanceEnd, inp.investing, inp.financing);
  }

  /**
   * As written, cash from operations and the net change in cash exceed the
   * intended figures by exactly the income tax; everything else agrees.
   */
  lemma AsWrittenOverstatesByTax(inp: Inputs, base: int)
    ensures var w, s := StatementsAsWritten(inp, base), StatementsOf(inp, base);
      && w.income == s.income && w.balance == s.balance && w.journal == s.journal
      && w.cashFlow.cashFromOperations == s.cashFlow.cashFromOperations + SafeFloat(inp.incomeTax)
      && w.cashFlow.netChange == s.cashFlow.netChange + SafeFloat(inp.incomeTax)
      && w.cashFlow.working == s.cashFlow.working
  {
  }

  /**
   * A run with no rows at all and an income tax of 30: the balance sheet
   * retains a loss of 30, yet as written cash from operations is 0 instead
   * of -30.
   */
  lemma TaxLeftInOperations(inp: Inputs, base: int)
    requires |inp.transactions| == 0 && |inp.accruals| == 0 && |inp.depreciation| == 0
    requires |inp.balanceBegin| == 0 && |inp.balanceEnd| == 0
    requires inp.retainedBegin == 0.0 && inp.incomeTax == Some(30.0)
    ensures StatementsOf(inp, base).balance.endingRetained == -30.0
    ensures StatementsOf(inp, base).cashFlow.cashFromOperations == -30.0
    ensures StatementsAsWritten(inp, base).cashFlow.cashFromOperations == 0.0
  {
    NetIncomeFromInputs(inp.transactions, inp.accruals, inp.depreciation, inp.incomeTax);
    OperationsFromRetainedProfit(inp, base);
    AsWrittenOverstatesByTax(inp, base);
  }
}
