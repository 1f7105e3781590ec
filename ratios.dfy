/**
 * The ratio engine of the dashboard: `calculate_ratios` reads the most recent
 * period of the balance sheet and the income statement, substitutes a fixed
 * default for every missing line item, and derives eleven ratios, each guarded
 * so that a zero denominator yields 0.
 *
 * Amounts are real numbers; a present line item is assumed never to be NaN.
 */
module Ratios {
  import opened Wrappers

  /** One reporting period of a statement: line-item name to amount. */
  type Column = map<string, real>

  /**
   * A statement: its reporting periods, most recent first. All periods share
   * one row index, as the columns of a data frame do.
   */
  type Statement = s: seq<Column> | forall i | 0 <= i < |s| :: s[i].Keys == s[0].Keys

  /**
   * `DataFrame.empty`: the frame has no periods or no line items, which is to
   * say that no period holds any amount.
   */
  predicate IsEmpty(s: Statement): (e: bool)
    ensures e <==> forall i | 0 <= i < |s| :: s[i] == map[]
  {
    |s| == 0 || |s[0]| == 0
  }

  /** What one fetch delivers: the three statements of one company. */
  datatype StatementSet = StatementSet(
    incomeStatement: Statement,
    balanceSheet: Statement,
    cashFlow: Statement)

  // The line-item names the engine looks up.
  const NetIncomeItem: string := "Net Income"
  const RevenueItem: string := "Total Revenue"
  const TotalAssetsItem: string := "Total Assets"
  const TotalEquityItem: string := "Total Stockholder Equity"
  const CurrentAssetsItem: string := "Current Assets"
  const CurrentLiabilitiesItem: string := "Current Liabilities"
  const CashItem: string := "Cash And Cash Equivalents"
  const InventoryItem: string := "Inventory"
  const TotalDebtItem: string := "Total Debt"
  const TotalLiabilitiesItem: string := "Total Liabilities Net Minority Interest"
  const OperatingIncomeItem: string := "Operating Income"

  /** `Series.get(name, default)`: the amount of a line item, or the default when it is missing. */
  function Get(col: Column, name: string, default: real): (v: real)
    ensures name in col ==> v == col[name]
    ensures name !in col ==> v == default
  {
    if name in col then col[name] else default
  }

  /** The eleven amounts the engine reads from the latest period. */
  datatype LineItems = LineItems(
    netIncome: real,
    revenue: real,
    totalAssets: real,
    totalEquity: real,
    currentAssets: real,
    currentLiabilities: real,
    cash: real,
    inventory: real,
    totalDebt: real,
    totalLiabilities: real,
    operatingIncome: real)

  /**
   * The line items of the latest balance-sheet and income-statement periods,
   * with 0 as the default of a would-be numerator and 1 as the default of a
   * would-be denominator.
   */
  function LatestItems(bs: Column, inc: Column): (li: LineItems)
    ensures NetIncomeItem in inc ==> li.netIncome == inc[NetIncomeItem]
    ensures NetIncomeItem !in inc ==> li.netIncome == 0.0
    ensures RevenueItem in inc ==> li.revenue == inc[RevenueItem]
    ensures RevenueItem !in inc ==> li.revenue == 1.0
    ensures TotalAssetsItem in bs ==> li.totalAssets == bs[TotalAssetsItem]
    ensures TotalAssetsItem !in bs ==> li.totalAssets == 1.0
    ensures TotalEquityItem in bs ==> li.totalEquity == bs[TotalEquityItem]
    ensures TotalEquityItem !in bs ==> li.totalEquity == 1.0
    ensures CurrentAssetsItem in bs ==> li.currentAssets == bs[CurrentAssetsItem]
    ensures CurrentAssetsItem !in bs ==> li.currentAssets == 0.0
    ensures CurrentLiabilitiesItem in bs ==> li.currentLiabilities == bs[CurrentLiabilitiesItem]
    ensures CurrentLiabilitiesItem !in bs ==> li.currentLiabilities == 1.0
    ensures CashItem in bs ==> li.cash == bs[CashItem]
    ensures CashItem !in bs ==> li.cash == 0.0
    ensures InventoryItem in bs ==> li.inventory == bs[InventoryItem]
    ensures InventoryItem !in bs ==> li.inventory == 0.0
    ensures TotalDebtItem in bs ==> li.totalDebt == bs[TotalDebtItem]
    ensures TotalDebtItem !in bs ==> li.totalDebt == 0.0
    ensures TotalLiabilitiesItem in bs ==> li.totalLiabilities == bs[TotalLiabilitiesItem]
    ensures TotalLiabilitiesItem !in bs ==> li.totalLiabilities == 0.0
    ensures OperatingIncomeItem in inc ==> li.operatingIncome == inc[OperatingIncomeItem]
    ensures OperatingIncomeItem !in inc ==> li.operatingIncome == 0.0
  {
    LineItems(
      netIncome := Get(inc, NetIncomeItem, 0.0),
      revenue := Get(inc, RevenueItem, 1.0),
      totalAssets := Get(bs, TotalAssetsItem, 1.0),
      totalEquity := Get(bs, TotalEquityItem, 1.0),
      currentAssets := Get(bs, CurrentAssetsItem, 0.0),
      currentLiabilities := Get(bs, CurrentLiabilitiesItem, 1.0),
      cash := Get(bs, CashItem, 0.0),
      inventory := Get(bs, InventoryItem, 0.0),
      totalDebt := Get(bs, TotalDebtItem, 0.0),
      totalLiabilities := Get(bs, TotalLiabilitiesItem, 0.0),
      operatingIncome := Get(inc, OperatingIncomeItem, 0.0))
  }

  /** The result dictionary of `calculate_ratios`, one field per key. */
  datatype RatioSet = RatioSet(
    netProfitMargin: real,
    roa: real,
    roe: real,
    currentRatio: real,
    quickRatio: real,
    cashRatio: real,
    debtToEquity: real,
    debtToAssets: real,
    equityMultiplier: real,
    assetTurnover: real,
    operatingMargin: real)

  /** The dictionary's keys, in the order the engine inserts them. */
  const RatioNames: seq<string> := [
    "Net Profit Margin", "ROA", "ROE",
    "Current Ratio", "Quick Ratio", "Cash Ratio",
    "Debt to Equity", "Debt to Assets", "Equity Multiplier",
    "Asset Turnover", "Operating Margin"]

  /** `ratios[name]`, or None for a name that is not a key. */
  function Lookup(r: RatioSet, name: string): (v: Option<real>)
    ensures v.Some? <==> name in RatioNames
    ensures name == "Net Profit Margin" ==> v == Some(r.netProfitMargin)
    ensures name == "ROA" ==> v == Some(r.roa)
    ensures name == "ROE" ==> v == Some(r.roe)
    ensures name == "Current Ratio" ==> v == Some(r.currentRatio)
    ensures name == "Quick Ratio" ==> v == Some(r.quickRatio)
    ensures name == "Cash Ratio" ==> v == Some(r.cashRatio)
    ensures name == "Debt to Equity" ==> v == Some(r.debtToEquity)
    ensures name == "Debt to Assets" ==> v == Some(r.debtToAssets)
    ensures name == "Equity Multiplier" ==> v == Some(r.equityMultiplier)
    ensures name == "Asset Turnover" ==> v == Some(r.assetTurnover)
    ensures name == "Operating Margin" ==> v == Some(r.operatingMargin)
  {
    if name == "Net Profit Margin" then Some(r.netProfitMargin)
    else if name == "ROA" then Some(r.roa)
    else if name == "ROE" then Some(r.roe)
    else if name == "Current Ratio" then Some(r.currentRatio)
    else if name == "Quick Ratio" then Some(r.quickRatio)
    else if name == "Cash Ratio" then Some(r.cashRatio)
    else if name == "Debt to Equity" then Some(r.debtToEquity)
    else if name == "Debt to Assets" then Some(r.debtToAssets)
    else if name == "Equity Multiplier" then Some(r.equityMultiplier)
    else if name == "Asset Turnover" then Some(r.assetTurnover)
    else if name == "Operating Margin" then Some(r.operatingMargin)
    else None
  }

  /** q is n divided by d, or 0 when d is 0. */
  predicate IsGuardedQuotient(q: real, n: real, d: real) {
    if d != 0.0 then q * d == n else q == 0.0
  }

  /** `n / d if d != 0 else 0` */
  function GuardedRatio(n: real, d: real): (q: real)
    ensures IsGuardedQuotient(q, n, d)
  {
    if d != 0.0 then n / d else 0.0
  }

  /** `n / d * 100 if d != 0 else 0` */
  function GuardedPercent(n: real, d: real): (p: real)
    ensures IsGuardedQuotient(p, n * 100.0, d)
  {
    if d != 0.0 then n / d * 100.0 else 0.0
  }

  /** The eleven ratios as the dashboard defines them over the line items. */
  predicate Derives(r: RatioSet, li: LineItems) {
    && IsGuardedQuotient(r.netProfitMargin, li.netIncome * 100.0, li.revenue)
    && IsGuardedQuotient(r.roa, li.netIncome * 100.0, li.totalAssets)
    && IsGuardedQuotient(r.roe, li.netIncome * 100.0, li.totalEquity)
    && IsGuardedQuotient(r.currentRatio, li.currentAssets, li.currentLiabilities)
    && IsGuardedQuotient(r.quickRatio, li.currentAssets - li.inventory, li.currentLiabilities)
    && IsGuardedQuotient(r.cashRatio, li.cash, li.currentLiabilities)
    && IsGuardedQuotient(r.debtToEquity, li.totalDebt, li.totalEquity)
    && IsGuardedQuotient(r.debtToAssets, li.totalDebt, li.totalAssets)
    && IsGuardedQuotient(r.equityMultiplier, li.totalAssets, li.totalEquity)
    && IsGuardedQuotient(r.assetTurnover, li.revenue, li.totalAssets)
    && IsGuardedQuotient(r.operatingMargin, li.operatingIncome * 100.0, li.revenue)
  }

  /** The ratio block of `calculate_ratios`, from the extracted line items. */
  function RatiosOf(li: LineItems): (r: RatioSet)
    ensures Derives(r, li)
  {
    RatioSet(
      netProfitMargin := GuardedPercent(li.netIncome, li.revenue),
      roa := GuardedPercent(li.netIncome, li.totalAssets),
      roe := GuardedPercent(li.netIncome, li.totalEquity),
      currentRatio := GuardedRatio(li.currentAssets, li.currentLiabilities),
      quickRatio := GuardedRatio(li.currentAssets - li.inventory, li.currentLiabilities),
      cashRatio := GuardedRatio(li.cash, li.currentLiabilities),
      debtToEquity := GuardedRatio(li.totalDebt, li.totalEquity),
      debtToAssets := GuardedRatio(li.totalDebt, li.totalAssets),
      equityMultiplier := GuardedRatio(li.totalAssets, li.totalEquity),
      assetTurnover := GuardedRatio(li.revenue, li.totalAssets),
      operatingMargin := GuardedPercent(li.operatingIncome, li.revenue))
  }

  /**
   * `calculate_ratios(data)`: None when the balance sheet or the income
   * statement is empty; otherwise the eleven ratios of the latest period.
   * The cash-flow statement is read but never used.
   */
  function CalculateRatios(data: StatementSet): (r: Option<RatioSet>)
    ensures r.None? <==> IsEmpty(data.balanceSheet) || IsEmpty(data.incomeStatement)
    ensures r.Some? ==> Derives(r.value, LatestItems(data.balanceSheet[0], data.incomeStatement[0]))
  {
    if IsEmpty(data.balanceSheet) || IsEmpty(data.incomeStatement) then None
    else Some(RatiosOf(LatestItems(data.balanceSheet[0], data.incomeStatement[0])))
  }

  // ---------------------------------------------------------------------------
  // Properties

  /** A guarded quotient is determined by its numerator and denominator. */
  lemma QuotientUnique(q1: real, q2: real, n: real, d: real)
    requires IsGuardedQuotient(q1, n, d) && IsGuardedQuotient(q2, n, d)
    ensures q1 == q2
  {
  }

  /** The ratio definitions leave no freedom: one set of line items, one set of ratios. */
  lemma DerivesUnique(r1: RatioSet, r2: RatioSet, li: LineItems)
    requires Derives(r1, li) && Derives(r2, li)
    ensures r1 == r2
  {
    QuotientUnique(r1.netProfitMargin, r2.netProfitMargin, li.netIncome * 100.0, li.revenue);
    QuotientUnique(r1.roa, r2.roa, li.netIncome * 100.0, li.totalAssets);
    QuotientUnique(r1.roe, r2.roe, li.netIncome * 100.0, li.totalEquity);
    QuotientUnique(r1.currentRatio, r2.currentRatio, li.currentAssets, li.currentLiabilities);
    QuotientUnique(r1.quickRatio, r2.quickRatio, li.currentAssets - li.inventory, li.currentLiabilities);
    QuotientUnique(r1.cashRatio, r2.cashRatio, li.cash, li.currentLiabilities);
    QuotientUnique(r1.debtToEquity, r2.debtToEquity, li.totalDebt, li.totalEquity);
    QuotientUnique(r1.debtToAssets, r2.debtToAssets, li.totalDebt, li.totalAssets);
    QuotientUnique(r1.equityMultiplier, r2.equityMultiplier, li.totalAssets, li.totalEquity);
    QuotientUnique(r1.assetTurnover, r2.assetTurnover, li.revenue, li.totalAssets);
    QuotientUnique(r1.operatingMargin, r2.operatingMargin, li.operatingIncome * 100.0, li.revenue);
  }

  /** The result has exactly the eleven keys, and they are distinct. */
  lemma RatioKeys(r: RatioSet)
    ensures |RatioNames| == 11
    ensures forall i, j | 0 <= i < j < |RatioNames| :: RatioNames[i] != RatioNames[j]
    ensures forall name :: Lookup(r, name).Some? <==> name in RatioNames
  {
  }

  /** Whether ratios are produced depends on the balance sheet and income statement only. */
  lemma CashFlowIrrelevant(inc: Statement, bs: Statement, cf1: Statement, cf2: Statement)
    ensures CalculateRatios(StatementSet(inc, bs, cf1)) == CalculateRatios(StatementSet(inc, bs, cf2))
    ensures IsEmpty(bs) || IsEmpty(inc) <==> CalculateRatios(StatementSet(inc, bs, cf1)).None?
  {
  }

  /**
   * A missing equity figure counts as 1: ROE is net income times 100, the
   * equity multiplier is total assets and debt to equity is total debt.
   */
  lemma MissingEquity(data: StatementSet)
    requires !IsEmpty(data.balanceSheet) && !IsEmpty(data.incomeStatement)
    requires TotalEquityItem !in data.balanceSheet[0]
    ensures var r := CalculateRatios(data).value;
            var li := LatestItems(data.balanceSheet[0], data.incomeStatement[0]);
            r.roe == li.netIncome * 100.0 && r.equityMultiplier == li.totalAssets
            && r.debtToEquity == li.totalDebt
  {
  }

  /**
   * A missing revenue figure counts as 1: both margins are their numerator
   * times 100, and asset turnover is 1 over total assets.
   */
  lemma MissingRevenue(data: StatementSet)
    requires !IsEmpty(data.balanceSheet) && !IsEmpty(data.incomeStatement)
    requires RevenueItem !in data.incomeStatement[0]
    ensures var r := CalculateRatios(data).value;
            var li := LatestItems(data.balanceSheet[0], data.incomeStatement[0]);
            r.netProfitMargin == li.netIncome * 100.0
            && r.operatingMargin == li.operatingIncome * 100.0
            && IsGuardedQuotient(r.assetTurnover, 1.0, li.totalAssets)
  {
  }

  /** A missing current-liabilities figure counts as 1: each liquidity ratio is its numerator. */
  lemma MissingCurrentLiabilities(data: StatementSet)
    requires !IsEmpty(data.balanceSheet) && !IsEmpty(data.incomeStatement)
    requires CurrentLiabilitiesItem !in data.balanceSheet[0]
    ensures var r := CalculateRatios(data).value;
            var li := LatestItems(data.balanceSheet[0], data.incomeStatement[0]);
            r.currentRatio == li.currentAssets && r.quickRatio == li.currentAssets - li.inventory
            && r.cashRatio == li.cash
  {
  }

  /**
   * A missing total-assets figure counts as 1: ROA is net income times 100,
   * debt to assets is total debt and asset turnover is revenue.
   */
  lemma MissingTotalAssets(data: StatementSet)
    requires !IsEmpty(data.balanceSheet) && !IsEmpty(data.incomeStatement)
    requires TotalAssetsItem !in data.balanceSheet[0]
    ensures var r := CalculateRatios(data).value;
            var li := LatestItems(data.balanceSheet[0], data.incomeStatement[0]);
            r.roa == li.netIncome * 100.0 && r.debtToAssets == li.totalDebt
            && r.assetTurnover == li.revenue
  {
  }

  /** A missing net income counts as 0, and so do the three returns on it. */
  lemma MissingNetIncome(data: StatementSet)
    requires !IsEmpty(data.balanceSheet) && !IsEmpty(data.incomeStatement)
    requires NetIncomeItem !in data.incomeStatement[0]
    ensures var r := CalculateRatios(data).value;
            r.netProfitMargin == 0.0 && r.roa == 0.0 && r.roe == 0.0
  {
  }

  /** Every ratio over a zero denominator is exactly 0. */
  lemma ZeroDenominators(li: LineItems)
    ensures var r := RatiosOf(li);
            && (li.revenue == 0.0 ==> r.netProfitMargin == 0.0 && r.operatingMargin == 0.0)
            && (li.totalAssets == 0.0 ==> r.roa == 0.0 && r.debtToAssets == 0.0 && r.assetTurnover == 0.0)
            && (li.totalEquity == 0.0 ==> r.roe == 0.0 && r.debtToEquity == 0.0 && r.equityMultiplier == 0.0)
            && (li.currentLiabilities == 0.0 ==> r.currentRatio == 0.0 && r.quickRatio == 0.0 && r.cashRatio == 0.0)
  {
  }

  /**
   * With positive current liabilities, the quick ratio is at most the current
   * ratio exactly when inventory is not negative.
   */
  lemma QuickAtMostCurrent(li: LineItems)
    requires li.currentLiabilities > 0.0
    ensures var r := RatiosOf(li);
            r.quickRatio <= r.currentRatio <==> li.inventory >= 0.0
  {
  }

  /** The DuPont identity: ROE is ROA times the equity multiplier whenever assets are not 0. */
  lemma DuPontReturnOnEquity(li: LineItems)
    requires li.totalAssets != 0.0
    ensures var r := RatiosOf(li); r.roe == r.roa * r.equityMultiplier
  {
  }

  /** ROA is net profit margin times asset turnover whenever revenue and assets are not 0. */
  lemma DuPontReturnOnAssets(li: LineItems)
    requires li.revenue != 0.0 && li.totalAssets != 0.0
    ensures var r := RatiosOf(li); r.roa == r.netProfitMargin * r.assetTurnover
  {
  }

  /** Debt to equity is debt to assets times the equity multiplier whenever assets are not 0. */
  lemma LeverageIdentity(li: LineItems)
    requires li.totalAssets != 0.0
    ensures var r := RatiosOf(li); r.debtToEquity == r.debtToAssets * r.equityMultiplier
  {
  }

  /** Revenue 1e9 and net income 1e8 give a net profit margin of 10. */
  lemma NetMarginExample(li: LineItems)
    requires li.revenue == 1000000000.0 && li.netIncome == 100000000.0
    ensures RatiosOf(li).netProfitMargin == 10.0
  {
  }

  /** Current assets 500, inventory 200, current liabilities 250 give 2.0 and 1.2. */
  lemma LiquidityExample(li: LineItems)
    requires li.currentAssets == 500.0 && li.inventory == 200.0 && li.currentLiabilities == 250.0
    ensures RatiosOf(li).currentRatio == 2.0 && RatiosOf(li).quickRatio == 1.2
  {
  }
}
