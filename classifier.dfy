/**
 * The account classifier: the first-match rule that sends a transaction to an
 * income-statement bucket, and the keyword heuristics that sort balance-sheet
 * lines into current, non-current and other.
 */
module Classifier {
  import opened Text

  const RevenueAccounts: set<string> := {"Sales", "Service Income"}
  const CogsAccounts: set<string> := {"COGS"}
  /** Listed for future use: no branch of the rule depends on it (see `ClassifyRule`). */
  const OperatingAccounts: set<string> := {"Rent", "Salaries"}

  datatype Bucket = Revenue | Cogs | Operating | OtherIncome | OtherExpense

  /**
   * The bucket of a transaction with account name `account` and stripped type
   * `typ`, tried in the source's order. The other-income branch is kept as
   * written although the first test already takes every Revenue-typed line,
   * so other income is never chosen.
   */
  function Classify(account: string, typ: string): (b: Bucket)
    ensures b != OtherIncome
  {
    if account in RevenueAccounts || typ == "Revenue" then Revenue
    else if account in CogsAccounts || (typ == "Expense" && account in CogsAccounts) then Cogs
    else if typ == "Expense" then
      (if account in OperatingAccounts then Operating else Operating)
    else if typ == "Revenue" then OtherIncome
    else OtherExpense
  }

  /**
   * The rule, stated bucket by bucket without reference to the order of the
   * tests: revenue by name or type, then COGS by name, then operating by type,
   * everything else other expense. Membership in `OperatingAccounts` plays no part.
   */
  lemma ClassifyRule(account: string, typ: string)
    ensures Classify(account, typ) == Revenue <==> account in RevenueAccounts || typ == "Revenue"
    ensures Classify(account, typ) == Cogs <==>
      account !in RevenueAccounts && typ != "Revenue" && account in CogsAccounts
    ensures Classify(account, typ) == Operating <==>
      account !in RevenueAccounts && account !in CogsAccounts && typ == "Expense"
    ensures Classify(account, typ) == OtherExpense <==>
      account !in RevenueAccounts && account !in CogsAccounts && typ != "Revenue" && typ != "Expense"
  {
  }

  // ---------------------------------------------------------------- balance-sheet heuristics

  const CurrentAssetKeys: seq<string> :=
    ["cash", "receivable", "inventory", "prepaid", "short-term", "short term"]
  /** Note: "long-term" without its "long term" spelling. */
  const NoncurrentAssetKeys: seq<string> :=
    ["property", "plant", "equipment", "ppe", "building", "machinery", "long-term", "intangible", "goodwill"]
  const CurrentLiabilityKeys: seq<string> :=
    ["payable", "accrued", "current portion", "tax payable", "short-term", "short term"]
  const NoncurrentLiabilityKeys: seq<string> :=
    ["loan", "bond", "mortgage", "long-term", "long term"]

  /** Some current-asset keyword occurs in the lower-cased name. */
  predicate IsCurrentAsset(name: string): (r: bool)
    ensures r <==> exists k :: k in CurrentAssetKeys && Contains(Lower(name), k)
  {
    ContainsAny(Lower(name), CurrentAssetKeys)
  }

  /** Some non-current-asset keyword occurs in the lower-cased name. */
  predicate IsNoncurrentAsset(name: string): (r: bool)
    ensures r <==> exists k :: k in NoncurrentAssetKeys && Contains(Lower(name), k)
  {
    ContainsAny(Lower(name), NoncurrentAssetKeys)
  }

  /** Some current-liability keyword occurs in the lower-cased name. */
  predicate IsCurrentLiability(name: string): (r: bool)
    ensures r <==> exists k :: k in CurrentLiabilityKeys && Contains(Lower(name), k)
  {
    ContainsAny(Lower(name), CurrentLiabilityKeys)
  }

  /** Some non-current-liability keyword occurs in the lower-cased name. */
  predicate IsNoncurrentLiability(name: string): (r: bool)
    ensures r <==> exists k :: k in NoncurrentLiabilityKeys && Contains(Lower(name), k)
  {
    ContainsAny(Lower(name), NoncurrentLiabilityKeys)
  }

  datatype Class = Current | Noncurrent | Other

  /** The class of an asset line: current is tested first, other is the default. */
  function AssetClass(name: string): (c: Class)
    ensures c == Current <==> IsCurrentAsset(name)
    ensures c == Noncurrent <==> !IsCurrentAsset(name) && IsNoncurrentAsset(name)
    ensures c == Other <==> !IsCurrentAsset(name) && !IsNoncurrentAsset(name)
  {
    if IsCurrentAsset(name) then Current
    else if IsNoncurrentAsset(name) then Noncurrent
    else Other
  }

  /** The class of a liability line: current is tested first, other is the default. */
  function LiabilityClass(name: string): (c: Class)
    ensures c == Current <==> IsCurrentLiability(name)
    ensures c == Noncurrent <==> !IsCurrentLiability(name) && IsNoncurrentLiability(name)
    ensures c == Other <==> !IsCurrentLiability(name) && !IsNoncurrentLiability(name)
  {
    if IsCurrentLiability(name) then Current
    else if IsNoncurrentLiability(name) then Noncurrent
    else Other
  }

  /**
   * The "tax payable" keyword never decides anything: every name containing it
   * also contains "payable", so the liability test is the same without it.
   */
  lemma TaxPayableRedundant(name: string)
    ensures Contains(Lower(name), "tax payable") ==> Contains(Lower(name), "payable")
    ensures IsCurrentLiability(name) <==>
      ContainsAny(Lower(name), ["payable", "accrued", "current portion", "short-term", "short term"])
  {
    var n := Lower(name);
    if Contains(n, "tax payable") {
      ContainsInfix(n, "tax payable", 4, 7);
      assert "tax payable"[4..11] == "payable";
    }
  }

  /** A name whose lower-case form has neither i nor s is not a current asset. */
  lemma NotCurrentAsset(name: string)
    requires 'i' !in Lower(name) && 's' !in Lower(name)
    ensures !IsCurrentAsset(name)
  {
    var n := Lower(name);
    forall k | k in CurrentAssetKeys ensures !Contains(n, k) {
      if k == "receivable" || k == "inventory" || k == "prepaid" { MissingChar(n, k, 'i'); }
      else { MissingChar(n, k, 's'); }
    }
  }

  /** A name whose lower-case form has none of a, i and s is not a current liability. */
  lemma NotCurrentLiability(name: string)
    requires 'a' !in Lower(name) && 'i' !in Lower(name) && 's' !in Lower(name)
    ensures !IsCurrentLiability(name)
  {
    var n := Lower(name);
    forall k | k in CurrentLiabilityKeys ensures !Contains(n, k) {
      if k == "current portion" { MissingChar(n, k, 'i'); }
      else if k == "short-term" || k == "short term" { MissingChar(n, k, 's'); }
      else { MissingChar(n, k, 'a'); }
    }
  }

  /** A name whose lower-case form has none of p, i and - is not a non-current asset. */
  lemma NotNoncurrentAsset(name: string)
    requires 'p' !in Lower(name) && 'i' !in Lower(name) && '-' !in Lower(name)
    ensures !IsNoncurrentAsset(name)
  {
    var n := Lower(name);
    forall k | k in NoncurrentAssetKeys ensures !Contains(n, k) {
      if k == "property" || k == "plant" || k == "equipment" || k == "ppe" { MissingChar(n, k, 'p'); }
      else if k == "long-term" { MissingChar(n, k, '-'); }
      else { MissingChar(n, k, 'i'); }
    }
  }

  // The asset list spells only "long-term"; the liability list has both spellings.

  /**
   * For every name: "long term" anywhere in it makes a liability non-current,
   * "long-term" makes an asset or a liability non-current, and "long term" is
   * no asset keyword, so it alone never makes an asset non-current.
   */
  lemma LongTermSpellings(name: string)
    ensures Contains(Lower(name), "long term") ==> IsNoncurrentLiability(name)
    ensures Contains(Lower(name), "long-term") ==> IsNoncurrentAsset(name) && IsNoncurrentLiability(name)
    ensures "long term" !in NoncurrentAssetKeys && "long term" !in CurrentAssetKeys
  {
    assert "long term" == NoncurrentLiabilityKeys[4];
    assert "long-term" == NoncurrentLiabilityKeys[3];
    assert "long-term" == NoncurrentAssetKeys[6];
  }

  /** The two spellings are already lower case. */
  lemma LongTermLower()
    ensures Lower("long term") == "long term" && Lower("long-term") == "long-term"
  {
    LowerOfLower("long term");
    LowerOfLower("long-term");
  }

  /** Neither spelling has an a, i or s; the spaced one has no p or hyphen either. */
  lemma LongTermLetters()
    ensures 'a' !in "long term" && 'i' !in "long term" && 's' !in "long term" && 'p' !in "long term"
    ensures '-' !in "long term"
    ensures 'a' !in "long-term" && 'i' !in "long-term" && 's' !in "long-term"
  {
  }

  /** Spelled with a space, "long term" leaves an asset other. */
  lemma LongTermSpaceAsset(name: string)
    requires name == "long term"
    ensures AssetClass(name) == Other
  {
    LongTermLower();
    LongTermLetters();
    NotCurrentAsset(name);
    NotNoncurrentAsset(name);
  }

  /** Spelled with a space, "long term" still makes a liability non-current. */
  lemma LongTermSpaceLiability(name: string)
    requires name == "long term"
    ensures LiabilityClass(name) == Noncurrent
  {
    LongTermLower();
    LongTermLetters();
    NotCurrentLiability(name);
    ContainsSelf(name);
    LongTermSpellings(name);
  }

  /** Spelled with a hyphen, "long-term" makes an asset non-current. */
  lemma LongTermHyphenAsset(name: string)
    requires name == "long-term"
    ensures AssetClass(name) == Noncurrent
  {
    LongTermLower();
    LongTermLetters();
    NotCurrentAsset(name);
    ContainsSelf(name);
    LongTermSpellings(name);
  }

  /** Spelled with a hyphen, "long-term" makes a liability non-current. */
  lemma LongTermHyphenLiability(name: string)
    requires name == "long-term"
    ensures LiabilityClass(name) == Noncurrent
  {
    LongTermLower();
    LongTermLetters();
    NotCurrentLiability(name);
    ContainsSelf(name);
    LongTermSpellings(name);
  }
}
