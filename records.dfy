/** The input records the engine reads, and the lenient coercions it applies to them. */
module Records {

  /** A raw numeric field: `None` stands for a value that does not parse as a number. */
  datatype Option<+T> = None | Some(value: T)

  /** `safe_float`: the parsed number, or 0.0 when the field does not parse. */
  function SafeFloat(x: Option<real>): (r: real)
    ensures x.Some? ==> r == x.value
    ensures x.None? ==> r == 0.0
  {
    match x
    case Some(v) => v
    case None => 0.0
  }

  /** Python's `value or default` on a text field: a missing (empty) value takes the default. */
  function OrDefault(value: string, default: string): (r: string)
    ensures value != "" ==> r == value
    ensures value == "" ==> r == default
  {
    if value == "" then default else value
  }

  /** A ledger transaction. `typ` is the raw Type column (Revenue, Expense, ... or anything). */
  datatype Transaction = Transaction(
    date: string, account: string, category: string, amount: Option<real>, typ: string)

  /** A period-end balance line of the beginning or ending snapshot; its amount is already numeric. */
  datatype BalanceLine = BalanceLine(account: string, amount: real, typ: string)

  /** An accrual adjustment; `balanceType` only matters when `affects` is "Balance". */
  datatype Accrual = Accrual(account: string, amount: Option<real>, affects: string, balanceType: string)

  /** A depreciable asset; `expense` is the per-period depreciation expense column. */
  datatype DepreciableAsset = DepreciableAsset(
    name: string, cost: Option<real>, salvage: Option<real>, lifeYears: Option<real>, expense: Option<real>)

  /** An investing or financing cash entry (inflow positive, outflow negative). */
  datatype CashEntry = CashEntry(account: string, amount: real)
}
