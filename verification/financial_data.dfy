/** Derivation of the credit-rating classifier's input features from a
    company's financial statements (get_Data.py). The statements and the
    `info` record are supplied by the caller instead of being fetched. */
module FinancialData {
  import opened Outcomes

  /** One financial statement as a table: its row labels and one column per
      fiscal year, in the provider's column order. A row label absent from a
      column's map is a missing value (NaN). */
  datatype Frame = Frame(index: set<string>, columns: seq<map<string, real>>)

  /** `df.empty`: a table with no rows or no columns, that is, one holding no
      cell at all. */
  function IsEmpty(df: Frame): (b: bool)
    ensures b <==> |df.index| * |df.columns| == 0
  {
    |df.index| == 0 || |df.columns| == 0
  }

  /** `get_latest_two_years`: a missing or empty table gives `{}`; otherwise
      the column at position 1, as a row-to-value mapping with missing values
      replaced by 0. A table with a single column has no position 1. */
  function GetLatestTwoYears(df: Option<Frame>): (r: Result<map<string, real>>)
    ensures (df.None? || IsEmpty(df.value)) ==> r == Ok(map[])
    ensures r.Err? <==> df.Some? && !IsEmpty(df.value) && |df.value.columns| < 2
    ensures r.Err? ==> r.error == IndexOutOfRange
    ensures r.Ok? && df.Some? && !IsEmpty(df.value) ==>
      && r.value.Keys == df.value.index
      && (forall k :: k in df.value.index && k in df.value.columns[1] ==> r.value[k] == df.value.columns[1][k])
      && (forall k :: k in df.value.index && k !in df.value.columns[1] ==> r.value[k] == 0.0)
  {
    match df
    case None => Ok(map[])
    case Some(frame) =>
      if IsEmpty(frame) then Ok(map[])
      else if |frame.columns| < 2 then Err(IndexOutOfRange)
      else
        var year := frame.columns[1];
        Ok(map k | k in frame.index :: if k in year then year[k] else 0.0)
  }

  /** A statement entry: a number, or a nested dictionary (given by its values
      in order). */
  datatype Cell = Scalar(v: real) | Nested(values: seq<real>)

  /** The first argument of `get_value`, which may or may not be a dictionary. */
  datatype Container = Dict(entries: map<string, Cell>) | NotADict

  /** `get_value`: a defaulting lookup. Anything but a dictionary, or a
      missing key, reads as 0; a nested dictionary reads as its first value,
      and an empty nested dictionary has none (`list(...)[0]` raises). */
  function GetValue(df: Container, key: string): (r: Result<real>)
    ensures (df.NotADict? || key !in df.entries) ==> r == Ok(0.0)
    ensures df.Dict? && key in df.entries && df.entries[key].Scalar? ==> r == Ok(df.entries[key].v)
    ensures df.Dict? && key in df.entries && df.entries[key].Nested? ==>
      (r.Ok? <==> |df.entries[key].values| > 0) &&
      (r.Ok? ==> r.value == df.entries[key].values[0])
    ensures r.Err? ==> r.error == IndexOutOfRange
  {
    if df.Dict? && key in df.entries then
      match df.entries[key]
      case Nested(values) => if |values| == 0 then Err(IndexOutOfRange) else Ok(values[0])
      case Scalar(v) => Ok(v)
    else Ok(0.0)
  }

  /** The dictionary `to_dict()` produces from one column. On it `get_value`
      never fails and is a lookup with default 0. */
  function AsContainer(column: map<string, real>): (df: Container)
    ensures forall key :: GetValue(df, key) == Ok(if key in column then column[key] else 0.0)
  {
    Dict(map k | k in column :: Scalar(column[k]))
  }

  /** `get_value`'s number, or 0 where it would raise. */
  function Read(df: Container, key: string): real
  {
    match GetValue(df, key)
    case Ok(v) => v
    case Err(_) => 0.0
  }

  /** Every key in `keys` can be read from `df` without raising. */
  predicate Readable(df: Container, keys: seq<string>)
  {
    forall k :: k in keys ==> GetValue(df, k).Ok?
  }

  const BalanceSheetKeys: seq<string> := [
    "Total Assets", "Cash And Cash Equivalents", "Long Term Debt",
    "Total Liabilities Net Minority Interest", "Retained Earnings",
    "Ordinary Shares Number", "Inventory", "Common Stock Equity"]

  const IncomeStatementKeys: seq<string> := [
    "Total Revenue", "Gross Profit", "EBIT", "Interest Expense",
    "Comprehensive Income Net Of Tax"]

  const CashflowKeys: seq<string> := ["Operating Cash Flow", "Financing Cash Flow"]

  /** The result of `get_financial_statements`. `info` maps a field to a
      number or to Python's None. */
  datatype Statements = Statements(
    incomeStatement: Container,
    balanceSheet: Container,
    cashflow: Container,
    info: map<string, Option<real>>)

  /** `get_financial_statements` once the provider's tables are in hand. */
  function GetFinancialStatements(
    financials: Option<Frame>, balanceSheet: Option<Frame>, cashflow: Option<Frame>,
    info: map<string, Option<real>>): (r: Result<Statements>)
    ensures r.Ok? <==>
      GetLatestTwoYears(financials).Ok? && GetLatestTwoYears(balanceSheet).Ok? && GetLatestTwoYears(cashflow).Ok?
    ensures r.Ok? ==>
      && r.value.incomeStatement == AsContainer(GetLatestTwoYears(financials).value)
      && r.value.balanceSheet == AsContainer(GetLatestTwoYears(balanceSheet).value)
      && r.value.cashflow == AsContainer(GetLatestTwoYears(cashflow).value)
      && r.value.info == info
  {
    var income :- GetLatestTwoYears(financials);
    var balance :- GetLatestTwoYears(balanceSheet);
    var cash :- GetLatestTwoYears(cashflow);
    Ok(Statements(AsContainer(income), AsContainer(balance), AsContainer(cash), info))
  }

  /** `info.get(key, 0)`. Followed by `or 0`, a missing key, None and 0 all
      read as 0. */
  function InfoGet(info: map<string, Option<real>>, key: string): (r: Option<real>)
    ensures OrZero(r) == (if key in info && info[key].Some? then info[key].value else 0.0)
  {
    if key in info then info[key] else Some(0.0)
  }

  /** Python truthiness of a number or None. */
  predicate Truthy(x: Option<real>)
  {
    x.Some? && x.value != 0.0
  }

  /** `x or 0`: a number is kept as it is (0 or 0 is still 0), and only None
      becomes 0. */
  function OrZero(x: Option<real>): (r: real)
    ensures r == (if x.Some? then x.value else 0.0)
  {
    if Truthy(x) then x.value else 0.0
  }

  /** `numerator / denominator if denominator else 0`. */
  function Ratio(numerator: real, denominator: real): (r: real)
    ensures denominator == 0.0 ==> r == 0.0
    ensures denominator != 0.0 ==> r * denominator == numerator
  {
    if denominator != 0.0 then numerator / denominator else 0.0
  }

  /** The 27-entry record `get_financial_data` returns; `Feature` gives
      the key each field is stored under. */
  datatype Features = Features(
    assetsTotal: real,
    cash: real,
    debtInCurrentLiabilities: real,
    longTermDebt: real,
    earningsBeforeInterest: real,
    grossProfit: real,
    liabilitiesTotal: real,
    retainedEarnings: real,
    totalDebtToTotalAsset: real,
    totalAssetToTotalLiabilities: real,
    ebitToTotalAsset: real,
    grossProfitToRevenue: real,
    ebitToRevenue: real,
    salesTurnoverNet: real,
    stockholdersEquity: real,
    interestExpense: real,
    marketValue: real,
    bookValuePerShare: real,
    commonEquityLiquidation: real,
    comprehensiveIncome: real,
    employees: real,
    inventoriesTotal: real,
    earningsPerShareFromOperations: real,
    revenueTotal: real,
    operatingCashFlow: real,
    financingCashFlow: real,
    netCashFlow: real)

  /** The keys of the returned dictionary. */
  datatype Column =
      AssetsTotal | Cash | DebtInCurrentLiabilities | LongTermDebt | EarningsBeforeInterest
    | GrossProfit | LiabilitiesTotal | RetainedEarnings | TotalDebtToTotalAsset
    | TotalAssetToTotalLiabilities | EbitToTotalAsset | GrossProfitToRevenue | EbitToRevenue
    | SalesTurnoverNet | StockholdersEquity | InterestExpense | MarketValue | BookValuePerShare
    | CommonEquityLiquidation | ComprehensiveIncome | Employees | InventoriesTotal
    | EarningsPerShareFromOperations | RevenueTotal | OperatingCashFlow | FinancingCashFlow
    | NetCashFlow
  {
    /** The position of the key in the dictionary's insertion order. */
    function Index(): (i: nat)
      ensures i < |FeatureNames|
    {
      match this
      case AssetsTotal => 0
      case Cash => 1
      case DebtInCurrentLiabilities => 2
      case LongTermDebt => 3
      case EarningsBeforeInterest => 4
      case GrossProfit => 5
      case LiabilitiesTotal => 6
      case RetainedEarnings => 7
      case TotalDebtToTotalAsset => 8
      case TotalAssetToTotalLiabilities => 9
      case EbitToTotalAsset => 10
      case GrossProfitToRevenue => 11
      case EbitToRevenue => 12
      case SalesTurnoverNet => 13
      case StockholdersEquity => 14
      case InterestExpense => 15
      case MarketValue => 16
      case BookValuePerShare => 17
      case CommonEquityLiquidation => 18
      case ComprehensiveIncome => 19
      case Employees => 20
      case InventoriesTotal => 21
      case EarningsPerShareFromOperations => 22
      case RevenueTotal => 23
      case OperatingCashFlow => 24
      case FinancingCashFlow => 25
      case NetCashFlow => 26
    }

    /** The key as the dictionary spells it. */
    function Name(): string
    {
      FeatureNames[Index()]
    }
  }

  /** The keys as the dictionary spells them, in insertion order. */
  const FeatureNames: seq<string> := [
    "Assets - Total", "Cash", "Debt in Current Liabilities - Total",
    "Long-Term Debt - Total", "Earnings Before Interest", "Gross Profit (Loss)",
    "Liabilities - Total", "Retained Earnings", "Total debt/total asset",
    "Total asset/total liabilities", "EBTI/total asset", "Gross profit/revenue",
    "EBTI/Revenue", "Sales/Turnover (Net)", "Stockholders Equity - Total",
    "Interest and Related Expense - Total", "Market Value - Total - Fiscal",
    "Book Value Per Share", "Common Equity - Liquidation Value",
    "Comprehensive Income - Parent", "Employees", "Inventories - Total",
    "Earnings Per Share from Operations", "Revenue - Total",
    "Operating Activities - Net Cash Flow", "Financing Activities - Net Cash Flow",
    "Net Cash Flow"]

  /** The value the dictionary `get_financial_data` returns holds under `key`. */
  function Feature(f: Features, key: Column): real
  {
    match key
    case AssetsTotal => f.assetsTotal
    case Cash => f.cash
    case DebtInCurrentLiabilities => f.debtInCurrentLiabilities
    case LongTermDebt => f.longTermDebt
    case EarningsBeforeInterest => f.earningsBeforeInterest
    case GrossProfit => f.grossProfit
    case LiabilitiesTotal => f.liabilitiesTotal
    case RetainedEarnings => f.retainedEarnings
    case TotalDebtToTotalAsset => f.totalDebtToTotalAsset
    case TotalAssetToTotalLiabilities => f.totalAssetToTotalLiabilities
    case EbitToTotalAsset => f.ebitToTotalAsset
    case GrossProfitToRevenue => f.grossProfitToRevenue
    case EbitToRevenue => f.ebitToRevenue
    case SalesTurnoverNet => f.salesTurnoverNet
    case StockholdersEquity => f.stockholdersEquity
    case InterestExpense => f.interestExpense
    case MarketValue => f.marketValue
    case BookValuePerShare => f.bookValuePerShare
    case CommonEquityLiquidation => f.commonEquityLiquidation
    case ComprehensiveIncome => f.comprehensiveIncome
    case Employees => f.employees
    case InventoriesTotal => f.inventoriesTotal
    case EarningsPerShareFromOperations => f.earningsPerShareFromOperations
    case RevenueTotal => f.revenueTotal
    case OperatingCashFlow => f.operatingCashFlow
    case FinancingCashFlow => f.financingCashFlow
    case NetCashFlow => f.netCashFlow
  }

  /** The dictionary as the one-row table the classifier receives: its 27
      columns in insertion order, each named as the dictionary spells its key
      and holding the dictionary's value under that key. */
  function Columns(f: Features): (cols: seq<(string, real)>)
    ensures |cols| == |FeatureNames|
    ensures forall key: Column :: cols[key.Index()] == (key.Name(), Feature(f, key))
  {
    var values := [
      f.assetsTotal, f.cash, f.debtInCurrentLiabilities, f.longTermDebt,
      f.earningsBeforeInterest, f.grossProfit, f.liabilitiesTotal, f.retainedEarnings,
      f.totalDebtToTotalAsset, f.totalAssetToTotalLiabilities, f.ebitToTotalAsset,
      f.grossProfitToRevenue, f.ebitToRevenue, f.salesTurnoverNet, f.stockholdersEquity,
      f.interestExpense, f.marketValue, f.bookValuePerShare, f.commonEquityLiquidation,
      f.comprehensiveIncome, f.employees, f.inventoriesTotal,
      f.earningsPerShareFromOperations, f.revenueTotal, f.operatingCashFlow,
      f.financingCashFlow, f.netCashFlow];
    seq(|FeatureNames|, i requires 0 <= i < |FeatureNames| => (FeatureNames[i], values[i]))
  }

  /** The output has exactly 27 keys, no two spelt alike. */
  lemma FeatureNamesDistinct()
    ensures |FeatureNames| == 27
    ensures forall i, j :: 0 <= i < j < |FeatureNames| ==> FeatureNames[i] != FeatureNames[j]
  {
  }

  /** Different keys are spelt differently. */
  lemma ColumnNamesDistinct(a: Column, b: Column)
    ensures a.Name() == b.Name() <==> a == b
  {
    if a.Name() == b.Name() {
      FeatureNamesDistinct();
      var i, j := a.Index(), b.Index();
      assert FeatureNames[i] == FeatureNames[j];
      assert i == j;
      IndexDistinct(a, b);
    }
  }

  /** Different keys sit at different positions. */
  lemma IndexDistinct(a: Column, b: Column)
    ensures a.Index() == b.Index() ==> a == b
  {
  }

  /** `get_financial_data` once the statements are in hand. */
  function GetFinancialData(st: Statements): (r: Result<Features>)
    ensures r.Ok? <==>
      Readable(st.balanceSheet, BalanceSheetKeys) && Readable(st.incomeStatement, IncomeStatementKeys) &&
      Readable(st.cashflow, CashflowKeys)
    ensures r.Err? ==> r.error == IndexOutOfRange
    // where each field comes from
    ensures r.Ok? ==>
      var f, bs, is_, cf, info := r.value, st.balanceSheet, st.incomeStatement, st.cashflow, st.info;
      && f.assetsTotal == Read(bs, "Total Assets")
      && f.cash == Read(bs, "Cash And Cash Equivalents")
      && f.longTermDebt == Read(bs, "Long Term Debt")
      && f.liabilitiesTotal == Read(bs, "Total Liabilities Net Minority Interest")
      && f.retainedEarnings == Read(bs, "Retained Earnings")
      && f.stockholdersEquity == Read(bs, "Ordinary Shares Number")
      && f.inventoriesTotal == Read(bs, "Inventory")
      && f.commonEquityLiquidation == Read(bs, "Common Stock Equity")
      && f.revenueTotal == Read(is_, "Total Revenue")
      && f.grossProfit == Read(is_, "Gross Profit")
      && f.earningsBeforeInterest == Read(is_, "EBIT")
      && f.interestExpense == Read(is_, "Interest Expense")
      && f.comprehensiveIncome == Read(is_, "Comprehensive Income Net Of Tax")
      && f.operatingCashFlow == Read(cf, "Operating Cash Flow")
      && f.financingCashFlow == Read(cf, "Financing Cash Flow")
      && f.marketValue == OrZero(InfoGet(info, "marketCap"))
      && f.bookValuePerShare == OrZero(InfoGet(info, "bookValue"))
      && f.employees == OrZero(InfoGet(info, "fullTimeEmployees"))
    // how the derived fields relate to the others
    ensures r.Ok? ==>
      var f := r.value;
      && f.netCashFlow == f.operatingCashFlow + f.financingCashFlow
      && f.debtInCurrentLiabilities == f.liabilitiesTotal - f.longTermDebt
      && f.salesTurnoverNet == f.revenueTotal
      && f.totalDebtToTotalAsset == Ratio(f.liabilitiesTotal, f.assetsTotal)
      && f.totalAssetToTotalLiabilities == Ratio(f.assetsTotal, f.liabilitiesTotal)
      && f.ebitToTotalAsset == Ratio(f.earningsBeforeInterest, f.assetsTotal)
      && f.grossProfitToRevenue == Ratio(f.grossProfit, f.revenueTotal)
      && f.ebitToRevenue == Ratio(f.earningsBeforeInterest, f.revenueTotal)
      && f.earningsPerShareFromOperations == Ratio(f.operatingCashFlow, OrZero(InfoGet(st.info, "sharesOutstanding")))
  {
    var bs, is_, cf, info := st.balanceSheet, st.incomeStatement, st.cashflow, st.info;
    if !(Readable(bs, BalanceSheetKeys) && Readable(is_, IncomeStatementKeys) && Readable(cf, CashflowKeys)) then
      Err(IndexOutOfRange)
    else
      var totalAssets := Read(bs, "Total Assets");
      var cash := Read(bs, "Cash And Cash Equivalents");
      var longTermDebt := Read(bs, "Long Term Debt");
      var totalLiabilities := Read(bs, "Total Liabilities Net Minority Interest");
      var retainedEarnings := Read(bs, "Retained Earnings");
      var stockholdersEquity := Read(bs, "Ordinary Shares Number");
      var inventoriesTotal := Read(bs, "Inventory");
      var revenueTotal := Read(is_, "Total Revenue");
      var grossProfit := Read(is_, "Gross Profit");
      var ebit := Read(is_, "EBIT");
      var interestExpense := Read(is_, "Interest Expense");
      var operatingCashFlow := Read(cf, "Operating Cash Flow");
      var financingCashFlow := Read(cf, "Financing Cash Flow");
      var commonEquityLiquidation := Read(bs, "Common Stock Equity");
      var comprehensiveIncomeParent := Read(is_, "Comprehensive Income Net Of Tax");

      var marketValueTotal := InfoGet(info, "marketCap");
      var bookValuePerShare := InfoGet(info, "bookValue");
      var employees := InfoGet(info, "fullTimeEmployees");
      var sharesOutstanding := InfoGet(info, "sharesOutstanding");

      var netCashFlow := operatingCashFlow + financingCashFlow;

      var debtCurrentLiabilities := totalLiabilities - longTermDebt;
      var totalDebt := longTermDebt + debtCurrentLiabilities;
      var totalDebtToTotalAssets := if totalAssets != 0.0 then totalDebt / totalAssets else 0.0;
      var totalAssetsToTotalLiabilities := if totalLiabilities != 0.0 then totalAssets / totalLiabilities else 0.0;
      var ebitToTotalAssets := if totalAssets != 0.0 then ebit / totalAssets else 0.0;
      var grossProfitToRevenue := if revenueTotal != 0.0 then grossProfit / revenueTotal else 0.0;
      var ebitToRevenue := if revenueTotal != 0.0 then ebit / revenueTotal else 0.0;
      var earningsPerShareOperations :=
        if Truthy(sharesOutstanding) then operatingCashFlow / sharesOutstanding.value else 0.0;

      Ok(Features(
        totalAssets, cash, debtCurrentLiabilities, longTermDebt, ebit, grossProfit,
        totalLiabilities, retainedEarnings, totalDebtToTotalAssets, totalAssetsToTotalLiabilities,
        ebitToTotalAssets, grossProfitToRevenue, ebitToRevenue, revenueTotal, stockholdersEquity,
        interestExpense, OrZero(marketValueTotal), OrZero(bookValuePerShare),
        commonEquityLiquidation, comprehensiveIncomeParent, OrZero(employees), inventoriesTotal,
        earningsPerShareOperations, revenueTotal, operatingCashFlow, financingCashFlow, netCashFlow))
  }

  /** Read by key, the returned dictionary repeats revenue as sales, gives the
      net cash flow as the sum of the two flows, the current debt as
      liabilities less long-term debt, and the debt and EBIT ratios over the
      columns they are computed from. */
  lemma DerivedColumns(st: Statements)
    requires GetFinancialData(st).Ok?
    ensures
      var f := GetFinancialData(st).value;
      && Feature(f, SalesTurnoverNet) == Feature(f, RevenueTotal)
      && Feature(f, NetCashFlow) == Feature(f, OperatingCashFlow) + Feature(f, FinancingCashFlow)
      && Feature(f, DebtInCurrentLiabilities) == Feature(f, LiabilitiesTotal) - Feature(f, LongTermDebt)
      && Feature(f, TotalDebtToTotalAsset) == Ratio(Feature(f, LiabilitiesTotal), Feature(f, AssetsTotal))
      && Feature(f, EbitToRevenue) == Ratio(Feature(f, EarningsBeforeInterest), Feature(f, RevenueTotal))
  {
    DerivedKeys(GetFinancialData(st).value);
  }

  /** The keys `DerivedColumns` reads, each holding its own field. */
  lemma DerivedKeys(f: Features)
    ensures Feature(f, SalesTurnoverNet) == f.salesTurnoverNet && Feature(f, RevenueTotal) == f.revenueTotal
    ensures Feature(f, NetCashFlow) == f.netCashFlow
    ensures Feature(f, OperatingCashFlow) == f.operatingCashFlow && Feature(f, FinancingCashFlow) == f.financingCashFlow
    ensures Feature(f, DebtInCurrentLiabilities) == f.debtInCurrentLiabilities
    ensures Feature(f, LiabilitiesTotal) == f.liabilitiesTotal && Feature(f, LongTermDebt) == f.longTermDebt
    ensures Feature(f, TotalDebtToTotalAsset) == f.totalDebtToTotalAsset && Feature(f, AssetsTotal) == f.assetsTotal
    ensures Feature(f, EbitToRevenue) == f.ebitToRevenue && Feature(f, EarningsBeforeInterest) == f.earningsBeforeInterest
  {
  }

  /** `get_financial_data` never raises on statements produced by
      `get_financial_statements`. */
  lemma FinancialDataFromStatements(
    financials: Option<Frame>, balanceSheet: Option<Frame>, cashflow: Option<Frame>,
    info: map<string, Option<real>>)
    requires GetFinancialStatements(financials, balanceSheet, cashflow, info).Ok?
    ensures GetFinancialData(GetFinancialStatements(financials, balanceSheet, cashflow, info).value).Ok?
  {
  }

  /** The feature row the classifier is given: the statements' latest-but-one
      columns run through `get_financial_data`. It fails exactly when one of
      the statements has a single column. */
  function StatementFeatures(
    financials: Option<Frame>, balanceSheet: Option<Frame>, cashflow: Option<Frame>,
    info: map<string, Option<real>>): (r: Result<Features>)
    ensures r.Ok? <==> GetFinancialStatements(financials, balanceSheet, cashflow, info).Ok?
    ensures r.Err? ==> r.error == IndexOutOfRange
  {
    var st :- GetFinancialStatements(financials, balanceSheet, cashflow, info);
    FinancialDataFromStatements(financials, balanceSheet, cashflow, info);
    GetFinancialData(st)
  }
}
