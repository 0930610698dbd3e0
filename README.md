# Financial statement engine

A Dafny model of the computation core of the Financial Statement Generator,
a Flask application that turns a ledger of transactions, balance snapshots,
accruals, depreciable assets and investing/financing entries into an income
statement, a balance sheet, a depreciation journal and an indirect cash-flow
statement. All of that logic lives in `financial_statements_app.py`, and the
model follows it function by function:

- `records.dfy`: the input records. `safe_float` becomes `SafeFloat` over an
  `Option<real>`, where `None` means "does not parse". Python's `x or default`
  on a text field becomes `OrDefault`.
- `text.dfy`: the `str` operations the engine uses. These are `lower()`,
  `strip()`, the substring test `k in s`, `any(...)` over a keyword list,
  `sorted(set(...))` under Python's string order, and `str(int)`.
- `ledger.dfy`: account lines. A Python dict of account to amount is a
  `seq<Line>` with distinct names, updated by `Add`. A pandas table is a
  `seq<Line>` that may repeat a name, updated by the masked updates
  `UpdateOrAppend` and `OverwriteOrAppend`.
- `classifier.dfy`: the first-match bucket rule of the income statement, the
  three name sets, and the four keyword heuristics of the balance sheet.
- `income.dfy`: `compute_income_statement`. The transaction loop and the
  accrual loop are methods, each proved equal to a fold. The depreciation
  line is three statements of `ComputeIncomeStatement`, proved equal to
  `WithDepreciation`. The totals chain is a function.
- `balance.dfy`: `compute_balance_sheet`. It covers the split by Type,
  balance accruals, the accumulated-depreciation contra line, the
  current / non-current / other classes and the retained-earnings
  roll-forward.
- `depreciation.dfy`: the straight-line expense formula of the manual-entry
  form, the depreciation total, and `generate_depreciation_journal` as a
  nested loop.
- `cashflow.dfy`: `cash_flow_statement_indirect`. It has the working-capital
  pass over the sorted account names, the investing and financing totals, and
  the two cash scans that stop at the first match.
- `reports.dfy`: the report run of the generate routes. The balance sheet is
  fed the income statement's net income, and the cash-flow statement is fed a
  starting income figure and the depreciation total.

Amounts are exact `real`s. The loops of the source are `method`s with loop
invariants. Each is proved equal to a specification function, and the
properties the source promises are proved about those functions as lemmas.

## Model

| member | source | states |
|---|---|---|
| Records.SafeFloat | financial_statements_app.py:34-38 | a parsable field gives its number, anything else gives 0.0 |
| Records.OrDefault | financial_statements_app.py:92 | an empty name takes the default, any other is kept |
| Text.Lower | financial_statements_app.py:210 | same length, each character lower-cased |
| Text.Strip | financial_statements_app.py:94 | the result is no longer than the input and neither starts nor ends with whitespace |
| Text.StripInfix | financial_statements_app.py:94 | the stripped text is an infix of the input and everything cut from either end is whitespace |
| Text.BetweenBlanks | financial_statements_app.py:94 | a suffix preceded only by whitespace, cut back to a prefix followed only by whitespace, is an infix of the original between two blank runs |
| Text.StripIdempotent | financial_statements_app.py:94 | stripping twice equals stripping once |
| Text.Contains | financial_statements_app.py:211 | `k in s` holds iff `k` occurs at some index of `s` |
| Text.ContainsInfix | financial_statements_app.py:217 | whatever occurs inside an occurrence of `k` also occurs in `s` |
| Text.ContainsAny | financial_statements_app.py:211 | `any(k in s for k in keys)` holds iff some key of the list occurs in `s` |
| Text.Insert | financial_statements_app.py:293 | inserting into an ascending list keeps it ascending and adds exactly the new name |
| Text.SortedDistinct | financial_statements_app.py:293 | `sorted(set(names))` is strictly ascending under Python's order and holds exactly the names of the input |
| Text.BeforeTotal | financial_statements_app.py:293 | any two different strings are ordered one way or the other |
| Text.BeforeTransitive | financial_statements_app.py:293 | the string order is transitive |
| Text.IntToString | financial_statements_app.py:278 | `str(i)`: the decimal digits, with a leading minus for a negative number |
| Text.NatToStringRoundTrip | financial_statements_app.py:278 | reading back the digits of the year gives the year |
| Ledger.Get | financial_statements_app.py:97 | `d.get(k, 0.0)` is the amount of the first line named k, and 0 for an absent account |
| Ledger.DistinctGet | financial_statements_app.py:97 | in a dict (distinct names) every stored line's amount is what `get` returns for its account |
| Ledger.Add | financial_statements_app.py:97 | `d[k] = d.get(k, 0.0) + x`: k's amount grows by x and every other account keeps its amount; the total grows by x; k is appended when new, else the length is kept; names stay distinct |
| Ledger.AddToEvery | financial_statements_app.py:190 | every row named k grows by x and every other row keeps its name and amount |
| Ledger.SetEvery | financial_statements_app.py:238 | every row named k now holds v and every other row keeps its name and amount |
| Ledger.AddToEveryTotal | financial_statements_app.py:190 | the table total grows by x once per row named k |
| Ledger.SetEveryTotal | financial_statements_app.py:238 | the table total trades the k rows' sum for v once per such row |
| Ledger.UniqueAddIsAddToEvery | financial_statements_app.py:189-190 | on a table with distinct names the masked add equals the dict update |
| Ledger.UpdateOrAppend | financial_statements_app.py:189-192 | the table keeps its length when k is present and grows by one row when k is absent; every existing row keeps its account in place |
| Ledger.OverwriteOrAppend | financial_statements_app.py:237-240 | the table keeps its length when k is present and grows by one row when k is absent; every existing row keeps its account in place |
| Ledger.UpdateOrAppendRows | financial_statements_app.py:189-192 | update-or-append touches every row named k, leaves the others in place, appends exactly one row when k is absent, and k is present afterwards |
| Ledger.UpdateOrAppendTotal | financial_statements_app.py:189-192 | the total grows by x per matching row, or by x once when k is appended |
| Ledger.UpdateOrAppendOnDistinct | financial_statements_app.py:189-192 | on a table with distinct names, update-or-append equals the dict update |
| Ledger.OverwriteOrAppendRows | financial_statements_app.py:237-240 | every row named k holds v (overwritten, not added to), other rows are unchanged, one row is appended only when k is absent |
| Ledger.OverwriteOrAppendTotal | financial_statements_app.py:237-242 | the total after overwrite-or-append, in both cases |
| Ledger.OverwriteOrAppendIdempotent | financial_statements_app.py:237-240 | overwriting twice with the same value equals overwriting once |
| Classifier.Classify | financial_statements_app.py:96-113 | the first-match rule never chooses other income: every Revenue-typed line is taken by the first test, so the branch at line 110 is dead |
| Classifier.ClassifyRule | financial_statements_app.py:96-113 | each bucket's exact condition: revenue by name or type, then COGS by name, then operating by Expense type, else other expense; OPERATING_ACCOUNTS plays no part |
| Classifier.IsCurrentAsset | financial_statements_app.py:209-211 | holds iff one of the six current-asset keywords occurs in the lower-cased name |
| Classifier.IsNoncurrentAsset | financial_statements_app.py:212-214 | holds iff one of the nine non-current-asset keywords occurs in the lower-cased name |
| Classifier.IsCurrentLiability | financial_statements_app.py:215-217 | holds iff one of the six current-liability keywords occurs in the lower-cased name |
| Classifier.IsNoncurrentLiability | financial_statements_app.py:218-220 | holds iff one of the five non-current-liability keywords occurs in the lower-cased name |
| Classifier.AssetClass | financial_statements_app.py:222 | current iff a current-asset keyword matches; non-current iff none does but a non-current keyword matches; other otherwise |
| Classifier.LiabilityClass | financial_statements_app.py:223 | the same for liabilities with their two keyword lists |
| Classifier.TaxPayableRedundant | financial_statements_app.py:217 | "tax payable" decides nothing: the current-liability test equals the test without it |
| Classifier.NotCurrentAsset | financial_statements_app.py:211 | a name whose lower-case form lacks both 'i' and 's' matches no current-asset keyword |
| Classifier.NotCurrentLiability | financial_statements_app.py:217 | a name whose lower-case form lacks 'a', 'i' and 's' matches no current-liability keyword |
| Classifier.NotNoncurrentAsset | financial_statements_app.py:214 | a name whose lower-case form lacks 'p', 'i' and '-' matches no non-current-asset keyword |
| Classifier.LongTermSpaceAsset | financial_statements_app.py:214 | an asset whose name is "long term" itself (with a space) falls to Other |
| Classifier.LongTermSpaceLiability | financial_statements_app.py:220 | a liability whose name is "long term" itself is non-current |
| Classifier.LongTermHyphenAsset | financial_statements_app.py:214 | an asset whose name is "long-term" itself is non-current |
| Classifier.LongTermHyphenLiability | financial_statements_app.py:220 | a liability whose name is "long-term" itself is non-current |
| Classifier.LongTermSpellings | financial_statements_app.py:214-220 | for every name: "long term" in it makes a liability non-current, "long-term" makes an asset or a liability non-current, and "long term" is no asset keyword |
| Depreciation.StraightLineExpense | financial_statements_app.py:750-753 | the expense is never negative; it is 0 when cost does not exceed salvage; a non-positive life counts as one period, so the expense is the whole depreciable base |
| Depreciation.StraightLineQuotient | financial_statements_app.py:753 | dividing the base by a positive life keeps its sign, and multiplying back gives the base |
| Depreciation.StraightLineSpread | financial_statements_app.py:750-753 | over a positive life, the expense times the life is exactly the depreciable base max(0, cost − salvage) |
| Depreciation.DepreciationTotal | financial_statements_app.py:132 | the expense column with unparsable entries read as 0: not negative when no entry is, and 0 when no entry parses |
| Depreciation.OnePeriodJournal | financial_statements_app.py:261-280 | when every asset's life is a single period, the journal debits exactly the depreciation total the statements read |
| Depreciation.Narration.Rendered | financial_statements_app.py:278 | the narration starts "Straight-line depreciation for ", then the asset name, then " - year ", and the year reads back from the digits that follow |
| Depreciation.Periods | financial_statements_app.py:270 | `int(max(1, life))`: at least 1, exactly 1 for a life up to 1, otherwise the whole part of the life |
| Depreciation.AssetRows | financial_statements_app.py:271-279 | n rows, row i being period base+i with the asset's expense |
| Depreciation.Journal | financial_statements_app.py:267-279 | one row per period of every asset; each debits "Depreciation Expense", credits "Accumulated Depreciation", and debits equal credits |
| Depreciation.GenerateJournal | financial_statements_app.py:261-280 | the nested loop builds exactly the journal; an empty asset list gives an empty journal |
| Depreciation.AppendSchedule | financial_statements_app.py:271-279 | the inner loop appends exactly the asset's schedule, one row per period, after the rows already written |
| Depreciation.JournalRowAt | financial_statements_app.py:267-279 | row i of asset k sits after the rows of the assets before it, with period base+i and that asset's expense and name |
| Depreciation.DebitTotalConcat | financial_statements_app.py:272-279 | the debit total of two journals joined is the sum of their debit totals |
| Depreciation.RepeatedProduct | financial_statements_app.py:271-277 | an amount added n times is n times the amount |
| Depreciation.AssetRowsDebits | financial_statements_app.py:271-277 | an asset's rows debit its expense once per period |
| Depreciation.JournalDebits | financial_statements_app.py:267-279 | the journal's debits are each asset's expense times its number of periods |
| Depreciation.PeriodsOfWholeLife | financial_statements_app.py:270 | a whole-number life of at least one year gives exactly that many periods |
| Depreciation.WholeLifeRecovers | financial_statements_app.py:750-753 | the straight-line expense of a whole-number life, repeated once per year, is the depreciable base |
| Depreciation.ScheduleRecoversBase | financial_statements_app.py:750-753 | an asset with a whole life of at least one year and the straight-line expense of that life is debited exactly its depreciable base over its schedule |
| Income.Posted | financial_statements_app.py:91-113 | a bucket map has distinct account names |
| Income.PostedGet | financial_statements_app.py:91-113 | each account's entry in a bucket is the sum of that account's transactions classified there |
| Income.PostedTotal | financial_statements_app.py:141-146 | a bucket map totals the amounts of its transactions |
| Income.PostedHas | financial_statements_app.py:91-113 | a bucket has an entry exactly for the accounts of transactions classified there |
| Income.BucketsConserve | financial_statements_app.py:91-113 | every transaction lands in exactly one bucket: the bucket totals add up to the sum of all amounts |
| Income.NoOtherIncome | financial_statements_app.py:107-110 | the other-income map is always empty |
| Income.Accrue | financial_statements_app.py:116-125 | accruing keeps the names distinct |
| Income.AccrueGet | financial_statements_app.py:116-125 | each account grows by exactly its own accruals for that target |
| Income.AccrueTotal | financial_statements_app.py:116-125 | the map total grows by the accruals for that target |
| Income.AccrueIgnores | financial_statements_app.py:121-125 | accruals for any other Affects value leave the map unchanged |
| Income.WithDepreciation | financial_statements_app.py:127-138 | "Depreciation Expense" grows by exactly the depreciation total; every other account is unchanged; the total grows by it; nothing changes when it is 0 |
| Income.TotalsOf | financial_statements_app.py:140-150 | each total is the sum of its map; gross profit, operating income, net other income (other income less other expense), income before tax and net income follow the chain; net income in closed form |
| Income.IncomeStatementOf | financial_statements_app.py:71-171 | the five maps have one line per account; the other-income map is empty, so net other income is minus the other-expense total; the tax is the parsed manual figure and the depreciation total is carried into the totals |
| Income.PostTransactions | financial_statements_app.py:91-113 | the transaction loop builds exactly the five bucket maps |
| Income.PostOne | financial_statements_app.py:92-113 | one transaction's amount is added under its account to exactly the map of its bucket, and the other four maps are unchanged |
| Income.AccrueIncome | financial_statements_app.py:116-125 | the accrual loop builds exactly the accrued revenue and operating maps |
| Income.ComputeIncomeStatement | financial_statements_app.py:71-171 | the procedure computes exactly the specified statement |
| Income.NetIncomeFromInputs | financial_statements_app.py:140-150 | net income from the inputs: revenue and revenue accruals, less COGS, operating, expense accruals, depreciation, other expense and tax |
| Income.DepreciationLineAmount | financial_statements_app.py:127-138 | the "Depreciation Expense" line is what was booked under that name plus the depreciation total |
| Balance.RowsOfType | financial_statements_app.py:180-182 | the table holds one row per snapshot line of the exact Type, in snapshot order, repeated lines included: the lines of the labelled rows |
| Balance.RowsOfTypeMembers | financial_statements_app.py:180-182 | a table holds a row for exactly the snapshot lines of its exact Type |
| Balance.Partition | financial_statements_app.py:180-182 | the three tables together have at most as many rows as the snapshot, and exactly as many when every Type is Asset, Liability or Equity |
| Balance.ApplyBalanceAccruals | financial_statements_app.py:184-202 | the accrual pass never removes or renames a row: each table keeps its accounts in place and can only grow |
| Balance.ApplyBalanceAccrual | financial_statements_app.py:186-202 | a balance accrual update-or-appends in the table its BalanceType names; the other tables, and all tables for an unknown BalanceType or a non-balance accrual, are unchanged |
| Balance.BalanceAccrualsIgnore | financial_statements_app.py:186-202 | accruals that target no table leave all three tables as they were |
| Balance.WithContra | financial_statements_app.py:204-206 | the contra line is appended only for a non-zero accumulated depreciation, and the asset total drops by exactly that amount |
| Balance.OfClass | financial_statements_app.py:225-231 | a class holds only rows of that class, each taken from the table |
| Balance.ClassPartition | financial_statements_app.py:222-231 | the three classes together are a permutation of the table |
| Balance.OfClassTotalStep | financial_statements_app.py:225-233 | one more row adds its amount to its own class total only |
| Balance.ClassTotals | financial_statements_app.py:225-234 | the three class totals add up to the table total |
| Balance.RollForward | financial_statements_app.py:236-240 | afterwards some row is "Retained Earnings", and every such row holds retained_begin + net_income |
| Balance.RollForwardEffect | financial_statements_app.py:236-242 | after the roll-forward, every "Retained Earnings" row holds retained_begin + net_income; other rows are unchanged; one is appended only if none existed; rolling again changes nothing |
| Balance.ApplyAccruals | financial_statements_app.py:184-202 | the accrual loop computes exactly the specified tables |
| Balance.RollRetainedForward | financial_statements_app.py:236-240 | the roll-forward procedure computes exactly the specified equity table |
| Balance.AppendContra | financial_statements_app.py:205-206 | the in-place append yields exactly the table with its contra line |
| Balance.AssembleSheet | financial_statements_app.py:204-258 | the steps after the accrual pass (contra line, roll-forward, then classes and totals) compute exactly the specified sheet of the accrued tables |
| Balance.ComputeBalanceSheet | financial_statements_app.py:175-259 | the procedure computes exactly the specified balance sheet |
| Balance.BalanceSheetOf | financial_statements_app.py:175-259 | total assets is the sum of the three asset class totals, total liabilities the sum of the three liability class totals, and the equity table has a "Retained Earnings" row |
| Balance.BalanceSheetTotals | financial_statements_app.py:204-242 | total assets is the accrued asset total less accumulated depreciation and also the sum of the class totals; likewise for liabilities; ending retained earnings is begin + net income; total equity is summed after the roll-forward |
| Balance.BalanceSheetClasses | financial_statements_app.py:222-231 | the asset classes are a permutation of the assets, and likewise for liabilities |
| Balance.LabelledRowsOfType | financial_statements_app.py:180-182 | each kept row carries as label its snapshot position, where the line has the exact Type and the same account and amount; labels strictly increase |
| Balance.LabelledRowsCover | financial_statements_app.py:180-182 | every snapshot line of the Type is kept: its position is one of the labels |
| Balance.SetAtLength | financial_statements_app.py:206 | `t.loc[len(t)] = row`: when no row carries the label `len(t)` the row is appended under it; when one does, the length is kept and exactly the rows with that label are replaced |
| Balance.AppendAtLength | financial_statements_app.py:180-206 | on a table cut from a snapshot by Type, setting label `len(t)` appends exactly when the snapshot line at position `len(t)` is absent or of another Type; otherwise that line's row is replaced in place |
| Balance.LabelsSkipGap | financial_statements_app.py:180 | a snapshot of a line of the Type, one of another Type and one of the Type is labelled 0 and 2, and its table holds those two lines |
| Balance.ContraReplacesAsset | financial_statements_app.py:180-206 | for any snapshot of an asset, a line of another Type and a second asset, with non-zero accumulated depreciation, the contra line as written replaces the second asset, so total assets is the first asset less the depreciation |
| Balance.ContraKeepsAssets | financial_statements_app.py:204-206 | on the same snapshot the intended table keeps both assets: total assets is both amounts less the depreciation |
| CashFlow.Names | financial_statements_app.py:291-293 | the account column of a snapshot, in order |
| CashFlow.AllAccounts | financial_statements_app.py:293 | strictly ascending, and it holds exactly the names of both snapshots |
| CashFlow.Occurrences | financial_statements_app.py:295-296 | the count is the number of rows carrying the name; it is zero iff no row carries it |
| CashFlow.FirstAmount | financial_statements_app.py:295-296 | the amount of the first row with that name |
| CashFlow.SnapshotAmount | financial_statements_app.py:295-296 | the amount of the only row with that name; 0 when the name is absent or repeated |
| CashFlow.UniqueRow | financial_statements_app.py:295-296 | when exactly one row has the name, no two rows carry it |
| CashFlow.TwoRowsNamed | financial_statements_app.py:295-296 | two rows with the same name make it occur at least twice, so its lookup reads 0 |
| CashFlow.Change | financial_statements_app.py:295-297 | ending less beginning amount when each side has one row of the name; the ending amount alone, or minus the beginning amount alone, when only that side has one; 0 when neither has |
| CashFlow.IsWorkingAsset | financial_statements_app.py:298-299 | holds iff receivable, inventory or prepaid occurs in the lower-cased name |
| CashFlow.IsWorkingLiability | financial_statements_app.py:298-302 | holds iff payable, accrued or tax payable occurs in the lower-cased name |
| CashFlow.WorkingAccountsAreCurrent | financial_statements_app.py:299-302 | a name with receivable, inventory or prepaid is also a current asset under the balance sheet's test, and one with payable, accrued or tax payable a current liability |
| CashFlow.WorkingTaxPayableRedundant | financial_statements_app.py:302 | "tax payable" decides nothing in the liability test |
| CashFlow.WorkingEntries | financial_statements_app.py:294-304 | each entry is a working-capital account of the walk and carries that account's change; its label says asset iff the asset keywords match, and liability iff only the liability keywords match |
| CashFlow.WorkingEntriesCover | financial_statements_app.py:294-304 | an account has an entry iff it is in the walk and matches the asset or the liability keywords |
| CashFlow.EntryAccounts | financial_statements_app.py:301-304 | the accounts of the entries, in order |
| CashFlow.WorkingEntriesOrdered | financial_statements_app.py:293-304 | over an ascending walk the entries are in strictly ascending account order, so at most one entry per account, each from the walk |
| CashFlow.AscendingSnoc | financial_statements_app.py:293-304 | appending a name above all others keeps a list ascending |
| CashFlow.AdjustmentIsChanges | financial_statements_app.py:288-304 | the entries adjust operations by the liability changes less the asset changes |
| CashFlow.CashTotal | financial_statements_app.py:306-307 | the sum of the entries is not negative when no entry is, and not positive when no entry is positive |
| CashFlow.CashTotalConcat | financial_statements_app.py:306-307 | the total of two lists joined is the sum of their totals |
| CashFlow.IsCash | financial_statements_app.py:314 | a row whose name contains "cash" is a current asset under the balance sheet's test |
| CashFlow.FirstCash | financial_statements_app.py:311-318 | the amount of the first row whose name contains "cash" in any case, or 0 when there is none |
| CashFlow.ScanCash | financial_statements_app.py:309-318 | the scan that stops at the first match returns exactly that amount |
| CashFlow.WorkingCapital | financial_statements_app.py:294-304 | the loop records exactly the working entries and moves ops by their adjustment |
| CashFlow.CashFlowIndirect | financial_statements_app.py:282-330 | the procedure computes exactly the specified statement |
| CashFlow.CashFlowOf | financial_statements_app.py:282-330 | operations are the starting figure plus depreciation plus the working-capital adjustment; investing and financing are their cash totals; beginning and ending cash are the first cash rows of the snapshots; the net change is operations plus investing plus financing; the working entries are in strictly ascending account order, each a working-capital account of one of the two snapshots |
| CashFlow.OperationsFormula | financial_statements_app.py:288-320 | operations = start + depreciation − asset changes + liability changes, where a change is ending − beginning and a missing side counts as 0; net change = operations + investing + financing |
| Reports.StatementsAsWritten | financial_statements_app.py:826 | as written, cash from operations starts from income before tax, adds the depreciation total, subtracts the asset changes and adds the liability changes |
| Reports.StatementsOf | financial_statements_app.py:822-826 | as intended, cash from operations starts from net income, adds the depreciation total, subtracts the asset changes and adds the liability changes |
| Reports.GenerateStatements | financial_statements_app.py:822-826 | the run computes the intended statements, with the cash flow starting from net income |
| Reports.OperationsFromRetainedProfit | financial_statements_app.py:822-826 | in the intended run, cash from operations starts from exactly the profit the balance sheet retains |
| Reports.AsWrittenOverstatesByTax | financial_statements_app.py:826 | as written, operations and net change exceed the intended figures by exactly the income tax, and everything else agrees |
| Reports.TaxLeftInOperations | financial_statements_app.py:956 | with no rows and a tax of 30, as written operations are 0 while the retained loss and the intended operations are −30 |

## Left out

- Not modelled: the Flask routes, templates and flash messages, the
  process-wide `manual_data` store, CSV upload and `pd.read_csv`,
  `ensure_df_columns`, and the PDF and Excel rendering. They are request
  handling, storage and presentation. The two generate routes appear only as
  the report run in `reports.dfy`.
- The default start year `datetime.now().year` is read from the clock. The
  journal and the report run take the base year as a parameter instead.
- Amounts are exact reals. IEEE-754 rounding, NaN and infinities are not
  modelled. A field that does not parse is `None`, which `SafeFloat` reads
  as 0.
- A missing text field that reads as None is the empty string, so
  `x or default` is `OrDefault`; the cash-flow account sort is the exception
  (next item). A balance accrual with no account name is posted under the
  empty name. A text cell holding NaN is not modelled. NaN is truthy, so
  `r.get('Account') or 'Unknown'` (line 92) would keep NaN as a key, and the
  `.strip()` of Type (line 94) and of Affects (line 118), the name tests
  (lines 210-219) and the cash scans (lines 314, 318) would raise
  AttributeError on it.
- A balance snapshot whose Account column was missing holds None accounts
  (line 45). Next to named rows, `sorted(set(...))` at line 293 then raises
  TypeError, because None and a string do not compare. The model reads such
  an account as "" and sorts it first, so it produces a statement there.
- `lower()` is modelled for ASCII letters only. `strip()` is modelled for
  the whitespace characters below U+0100 only.
- Balance-snapshot amounts and investing/financing amounts are plain
  numbers. The source sums them without `safe_float`.
- The Type filter keeps only the (Account, Amount) columns, as in the source.
  The `Class` column the source adds to the asset and liability tables is not
  stored. The class of a row is `AssetClass`/`LiabilityClass` of its name.
- A journal row's narration is kept as its asset name and year.
  `Narration.Rendered` renders it as the f-string does.
- `BalanceType` is always present once the accrual table has its columns, so
  the `r.get('BalanceType', 'Asset')` default is never used. It is not
  modelled.
- Cash-flow lookups with a repeated account name follow pandas. `.get`
  returns a Series, `float()` of it fails, and `safe_float` gives 0.
  `SnapshotAmount` is therefore 0 for a name that is absent or repeated, so
  the model does not require unique names.
- Depreciation.StraightLineExpense: the form parsing around the formula is
  left out, and the cost, salvage and life arrive as numbers.
- Balance.ComputeBalanceSheet: the table update at `len(t)` is modelled as a
  plain append. Its as-written label behaviour appears only in
  `Balance.SetAtLength`, `Balance.AppendAtLength` and
  `Balance.ContraReplacesAsset` (see Findings).
- Reports.GenerateStatements: the run computes the intended statements. The
  cash-flow call as written is `Reports.StatementsAsWritten` (see Findings).

## Findings

| source | as written | input that shows it | evidently intended | confidence | as-written member | corrected member |
|---|---|---|---|---|---|---|
| financial_statements_app.py:206 (also 192, 197, 202, 240) | `assets.loc[len(assets)] = [...]` sets the index label `len(assets)`. After the Type filter the rows keep their snapshot labels, so a row that already carries that label is overwritten instead of a new row being appended | ending snapshot Cash 100 (Asset), Bank Loan 70 (Liability), Inventory 50 (Asset), accumulated depreciation 10: Inventory is replaced by the contra line and total assets is 90 | append a row, so total assets is 140 | high, not executed | Balance.ContraReplacesAsset | Balance.ContraKeepsAssets |
| financial_statements_app.py:826 (also 956) | the cash-flow statement starts from `income_before_tax` | no rows and an income tax of 30: cash from operations is 0 while the balance sheet retains a loss of 30 | start from `net_income`, the figure the balance sheet rolls into retained earnings | medium, not executed | Reports.AsWrittenOverstatesByTax | Reports.OperationsFromRetainedProfit |
