/**
 * Straight-line depreciation: the per-period expense of a manually entered
 * asset, the depreciation total both statements read, and the journal of
 * balanced debit/credit rows, one per period of each asset's life.
 */
module Depreciation {
  import opened Records
  import opened Text

  /**
   * The straight-line expense of one period: the depreciable base
   * `cost - salvage` spread over `life` periods, never negative; a life that
   * is not positive is read as a single period.
   */
  function StraightLineExpense(cost: real, salvage: real, life: real): (r: real)
    ensures r >= 0.0
    ensures cost <= salvage ==> r == 0.0
    ensures life <= 0.0 ==> r == (if cost > salvage then cost - salvage else 0.0)
  {
    var divisor := if life > 0.0 then life else 1.0;
    var q := (cost - salvage) / divisor;
    assert q > 0.0 <==> cost > salvage by { StraightLineQuotient(cost, salvage, divisor); }
    if q > 0.0 then q else 0.0
  }

  /** The quotient of the base by a positive divisor has the sign of the base and times the divisor gives it back. */
  lemma StraightLineQuotient(cost: real, salvage: real, divisor: real)
    requires divisor > 0.0
    ensures ((cost - salvage) / divisor) * divisor == cost - salvage
    ensures (cost - salvage) / divisor > 0.0 <==> cost > salvage
  {
    var q := (cost - salvage) / divisor;
    assert q * divisor == cost - salvage;
    if cost > salvage { assert q * divisor > 0.0; } else { assert q * divisor <= 0.0; }
  }

  /** Over a positive life the per-period expense, times the life, is the depreciable base. */
  lemma StraightLineSpread(cost: real, salvage: real, life: real)
    requires life > 0.0
    ensures StraightLineExpense(cost, salvage, life) * life == (if cost > salvage then cost - salvage else 0.0)
  {
    StraightLineQuotient(cost, salvage, life);
  }

  /**
   * The expense column summed with every unparsable entry read as 0: not
   * negative when no entry is, 0 when no entry parses.
   */
  function DepreciationTotal(assets: seq<DepreciableAsset>): (r: real)
    ensures (forall i :: 0 <= i < |assets| ==> SafeFloat(assets[i].expense) >= 0.0) ==> r >= 0.0
    ensures (forall i :: 0 <= i < |assets| ==> assets[i].expense.None?) ==> r == 0.0
  {
    if assets == [] then 0.0
    else DepreciationTotal(assets[..|assets| - 1]) + SafeFloat(assets[|assets| - 1].expense)
  }

  /**
   * The number of journal periods of an asset: its life, at least 1,
   * truncated to a whole number.
   */
  function Periods(lifeYears: Option<real>): (n: nat)
    ensures n >= 1
    ensures SafeFloat(lifeYears) <= 1.0 ==> n == 1
    ensures SafeFloat(lifeYears) >= 1.0 ==> n as real <= SafeFloat(lifeYears) < n as real + 1.0
  {
    var life := SafeFloat(lifeYears);
    var m := if 1.0 < life then life else 1.0;
    m.Floor
  }

  const NarrationLead := "Straight-line depreciation for "
  const YearLead := " - year "

  /**
   * The narration of a journal row, kept as its two parts; `Rendered` writes
   * it the way the row's Narration column is written, and the asset name and
   * a non-negative year can be read back from the text.
   */
  datatype Narration = Narration(asset: string, year: int) {
    function Rendered(): (r: string)
      ensures |r| >= |NarrationLead| + |asset| + |YearLead|
      ensures r[..|NarrationLead|] == NarrationLead
      ensures r[|NarrationLead|..|NarrationLead| + |asset|] == asset
      ensures r[|NarrationLead| + |asset|..|NarrationLead| + |asset| + |YearLead|] == YearLead
      ensures year >= 0 ==> DigitsValue(r[|NarrationLead| + |asset| + |YearLead|..]) == year
    {
      var r := NarrationLead + asset + YearLead + IntToString(year);
      var n := |NarrationLead| + |asset| + |YearLead|;
      assert r[..n] == NarrationLead + asset + YearLead && r[n..] == IntToString(year);
      assert (NarrationLead + asset + YearLead)[..|NarrationLead|] == NarrationLead;
      assert (NarrationLead + asset + YearLead)[|NarrationLead|..|NarrationLead| + |asset|] == asset;
      if year >= 0 then (NatToStringRoundTrip(year); r) else r
    }
  }

  datatype JournalRow = JournalRow(
    period: int,
    debitAccount: string, debitAmount: real,
    creditAccount: string, creditAmount: real,
    narration: Narration)

  const DebitAccount := "Depreciation Expense"
  const CreditAccount := "Accumulated Depreciation"

  /** Row `i` of an asset's schedule: its expense debited and credited in year `base + i`. */
  function AssetRow(a: DepreciableAsset, base: int, i: nat): JournalRow {
    var depr := SafeFloat(a.expense);
    JournalRow(base + i, DebitAccount, depr, CreditAccount, depr, Narration(OrDefault(a.name, "Asset"), base + i))
  }

  /** The first `n` rows of an asset's schedule, one per consecutive year from `base`. */
  function AssetRows(a: DepreciableAsset, base: int, n: nat): (rows: seq<JournalRow>)
    ensures |rows| == n
    ensures forall i :: 0 <= i < n ==> rows[i] == AssetRow(a, base, i)
  {
    if n == 0 then [] else AssetRows(a, base, n - 1) + [AssetRow(a, base, n - 1)]
  }

  /** The number of rows the journal holds for `assets`. */
  function PeriodSum(assets: seq<DepreciableAsset>): nat {
    if assets == [] then 0
    else PeriodSum(assets[..|assets| - 1]) + Periods(assets[|assets| - 1].lifeYears)
  }

  /** The journal: the schedules of the assets, one after another in input order. */
  function Journal(assets: seq<DepreciableAsset>, base: int): (js: seq<JournalRow>)
    ensures |js| == PeriodSum(assets)
    ensures forall r :: r in js ==>
      r.debitAccount == DebitAccount && r.creditAccount == CreditAccount && r.debitAmount == r.creditAmount
  {
    if assets == [] then []
    else
      var a := assets[|assets| - 1];
      Journal(assets[..|assets| - 1], base) + AssetRows(a, base, Periods(a.lifeYears))
  }

  /** Builds the journal with the source's nested loop: assets outside, periods inside. */
  method GenerateJournal(assets: seq<DepreciableAsset>, base: int) returns (js: seq<JournalRow>)
    ensures js == Journal(assets, base)
    ensures assets == [] ==> js == []
  {
    js := [];
    if |assets| == 0 {
      return;
    }
    var k := 0;
    while k < |assets|
      invariant 0 <= k <= |assets|
      invariant js == Journal(assets[..k], base)
    {
      assert assets[..k + 1][..k] == assets[..k];
      js := AppendSchedule(js, assets[k], base);
      k := k + 1;
    }
    assert assets[..k] == assets;
  }

  /** The inner loop: one row per period of asset `a`, appended to `js0`. */
  method AppendSchedule(js0: seq<JournalRow>, a: DepreciableAsset, base: int) returns (js: seq<JournalRow>)
    ensures js == js0 + AssetRows(a, base, Periods(a.lifeYears))
  {
    js := js0;
    var asset := OrDefault(a.name, "Asset");
    var depr := SafeFloat(a.expense);
    var life := Periods(a.lifeYears);
    var i := 0;
    while i < life
      invariant 0 <= i <= life
      invariant js == js0 + AssetRows(a, base, i)
    {
      js := js + [JournalRow(base + i, DebitAccount, depr, CreditAccount, depr, Narration(asset, base + i))];
      i := i + 1;
    }
  }

  /**
   * Row `i` of asset `k`'s schedule sits right after the rows of the assets
   * before it: period `base + i`, that asset's expense on both sides.
   */
  lemma {:induction false} JournalRowAt(assets: seq<DepreciableAsset>, base: int, k: nat, i: nat)
    requires k < |assets| && i < Periods(assets[k].lifeYears)
    ensures PeriodSum(assets[..k]) + i < |Journal(assets, base)|
    ensures Journal(assets, base)[PeriodSum(assets[..k]) + i] == AssetRow(assets[k], base, i)
  {
    var n := |assets| - 1;
    var init := assets[..n];
    if k == n {
      assert assets[..k] == init;
    } else {
      assert init[..k] == assets[..k];
      assert init[k] == assets[k];
      JournalRowAt(init, base, k, i);
    }
  }

  /** The debit column of a journal, summed. */
  function DebitTotal(js: seq<JournalRow>): real {
    if js == [] then 0.0 else DebitTotal(js[..|js| - 1]) + js[|js| - 1].debitAmount
  }

  lemma {:induction false} DebitTotalConcat(a: seq<JournalRow>, b: seq<JournalRow>)
    ensures DebitTotal(a + b) == DebitTotal(a) + DebitTotal(b)
    decreases |b|
  {
    if b == [] {
      assert a + b == a;
    } else {
      assert (a + b)[..|a + b| - 1] == a + b[..|b| - 1];
      DebitTotalConcat(a, b[..|b| - 1]);
    }
  }

  /** `x` added up `n` times. */
  function Repeated(n: nat, x: real): real {
    if n == 0 then 0.0 else Repeated(n - 1, x) + x
  }

  lemma {:induction false} RepeatedProduct(n: nat, x: real)
    ensures Repeated(n, x) == n as real * x
  {
    if n > 0 {
      RepeatedProduct(n - 1, x);
      assert n as real * x == (n - 1) as real * x + x;
    }
  }

  /** An asset's schedule debits its expense once per period. */
  lemma {:induction false} AssetRowsDebits(a: DepreciableAsset, base: int, n: nat)
    ensures DebitTotal(AssetRows(a, base, n)) == Repeated(n, SafeFloat(a.expense))
  {
    if n > 0 {
      var rows := AssetRows(a, base, n);
      assert rows[..n - 1] == AssetRows(a, base, n - 1);
      AssetRowsDebits(a, base, n - 1);
    }
  }

  /** The journal's debits are each asset's expense times its number of periods. */
  function ScheduledExpense(assets: seq<DepreciableAsset>): real {
    if assets == [] then 0.0
    else
      var a := assets[|assets| - 1];
      ScheduledExpense(assets[..|assets| - 1]) + Repeated(Periods(a.lifeYears), SafeFloat(a.expense))
  }

  lemma {:induction false} JournalDebits(assets: seq<DepreciableAsset>, base: int)
    ensures DebitTotal(Journal(assets, base)) == ScheduledExpense(assets)
  {
    if assets != [] {
      var a := assets[|assets| - 1];
      var init := assets[..|assets| - 1];
      var n := Periods(a.lifeYears);
      var rows := AssetRows(a, base, n);
      assert Journal(assets, base) == Journal(init, base) + rows;
      JournalDebits(init, base);
      DebitTotalConcat(Journal(init, base), rows);
      AssetRowsDebits(a, base, n);
    }
  }

  /**
   * When every asset's life is a single period, the journal debits exactly
   * the depreciation total the statements read.
   */
  lemma {:induction false} OnePeriodJournal(assets: seq<DepreciableAsset>, base: int)
    requires forall i :: 0 <= i < |assets| ==> Periods(assets[i].lifeYears) == 1
    ensures DebitTotal(Journal(assets, base)) == DepreciationTotal(assets)
  {
    JournalDebits(assets, base);
    OnePeriodScheduled(assets);
  }

  lemma {:induction false} OnePeriodScheduled(assets: seq<DepreciableAsset>)
    requires forall i :: 0 <= i < |assets| ==> Periods(assets[i].lifeYears) == 1
    ensures ScheduledExpense(assets) == DepreciationTotal(assets)
  {
    if assets != [] {
      var init := assets[..|assets| - 1];
      assert forall i :: 0 <= i < |init| ==> init[i] == assets[i];
      OnePeriodScheduled(init);
      var a := assets[|assets| - 1];
      assert Periods(a.lifeYears) == 1;
      assert Repeated(1, SafeFloat(a.expense)) == Repeated(0, SafeFloat(a.expense)) + SafeFloat(a.expense);
    }
  }

  /**
   * An asset entered with a whole-number life of at least one year and the
   * straight-line expense of that life has a schedule whose debits add up to
   * exactly its depreciable base.
   */
  lemma ScheduleRecoversBase(a: DepreciableAsset, base: int, cost: real, salvage: real, life: nat)
    requires life >= 1
    requires a.lifeYears == Some(life as real)
    requires a.expense == Some(StraightLineExpense(cost, salvage, life as real))
    ensures DebitTotal(AssetRows(a, base, Periods(a.lifeYears))) == (if cost > salvage then cost - salvage else 0.0)
  {
    var r := StraightLineExpense(cost, salvage, life as real);
    assert Periods(a.lifeYears) == life by { PeriodsOfWholeLife(life); }
    assert DebitTotal(AssetRows(a, base, life)) == Repeated(life, r) by { AssetRowsDebits(a, base, life); }
    WholeLifeRecovers(life, cost, salvage);
  }

  /** The straight-line expense of a whole-number life, repeated once per year, is the depreciable base. */
  lemma WholeLifeRecovers(life: nat, cost: real, salvage: real)
    requires life >= 1
    ensures Repeated(life, StraightLineExpense(cost, salvage, life as real)) == (if cost > salvage then cost - salvage else 0.0)
  {
    var r := StraightLineExpense(cost, salvage, life as real);
    StraightLineSpread(cost, salvage, life as real);
    RepeatedProduct(life, r);
    assert life as real * r == r * life as real;
  }

  /** A whole-number life of at least one year gives exactly that many periods. */
  lemma PeriodsOfWholeLife(life: nat)
    requires life >= 1
    ensures Periods(Some(life as real)) == life
  {
    assert SafeFloat(Some(life as real)) == life as real;
  }
}
