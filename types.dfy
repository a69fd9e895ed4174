/** The records of src/types/index.ts. */
module Types {
  import opened Wrappers

  datatype FileFormat = FH | ColumnType2 | Unknown

  datatype ShareType = Dollar | Units

  datatype VisualizationType = Bar | Treemap | Sankey

  datatype FileStatus = Parsing | Validating | Ready | Warning | Error

  datatype ExportFormat = Png | Pdf | Both

  datatype PageTheme = Light | Dark

  /** One brokerage's row in a market file (`BrokerageData`). */
  datatype Brokerage = Brokerage(
    rank: real,
    name: string,
    originalName: string,
    dollarVolume: real,
    marketShareDollar: real,
    marketShareUnits: real,
    totalSales: real,
    avgPrice: real,
    daysOnMarket: real,
    pricePerSqFt: real,
    saleToListRatio: real,
    percentChange: real,
    isSothebys: bool)

  /**
   * One entry of a market's `warnings`. The source's texts embed numbers
   * printed with `toFixed(1)`; here the number itself is kept.
   */
  datatype Advisory =
    | HomeBrandMissing
    | NoViewAvailable
    | DollarShareExceeds(name: string, share: real)
    | UnitShareExceeds(name: string, share: real)

  /** The assembled result for one file (`MarketData`, plus the `chartTitle` the store adds). */
  datatype MarketData = MarketData(
    id: string,
    fileName: string,
    marketName: string,
    format: FileFormat,
    brokerages: seq<Brokerage>,
    sothebysData: Option<Brokerage>,
    isRlsirFirstByDollar: bool,
    isRlsirFirstByUnits: bool,
    availableViews: seq<ShareType>,
    totalMarketDollar: real,
    totalMarketUnits: real,
    status: FileStatus,
    warnings: seq<Advisory>,
    errors: seq<string>,
    processedAt: int,
    chartTitle: Option<string>)

  /** Usable for a report: not an error and at least one view available. */
  predicate IsUsable(m: MarketData)
  {
    m.status != Error && |m.availableViews| > 0
  }
}

/** The tables of src/lib/constants.ts that the ingestion pipeline reads. */
module Constants {

  /**
   * SOTHEBYS_PATTERNS, each written as the words of a case-insensitive
   * `w0\s*w1\s*…`: `/sotheby/i`, `/rlsir/i` and `/russ\s*lyon/i`.
   */
  const SOTHEBYS_PATTERNS: seq<seq<string>> := [["sotheby"], ["rlsir"], ["russ", "lyon"]]

  /** SOTHEBYS_DISPLAY_NAME, `Russ Lyon Sotheby's International Realty`, kept in three parts around its `Sotheby`. */
  const SOTHEBYS_DISPLAY_NAME: string := DISPLAY_NAME_LEAD + DISPLAY_NAME_BRAND + DISPLAY_NAME_REST

  const DISPLAY_NAME_LEAD: string := "Russ Lyon "
  const DISPLAY_NAME_BRAND: string := "Sotheby"
  const DISPLAY_NAME_REST: string := "'s International Realty"

  // FH_COLUMNS
  const FH_RANK: nat := 0
  const FH_BRAND: nat := 1
  const FH_DOLLAR_VOLUME: nat := 2
  const FH_PERCENT_CHANGE: nat := 3
  const FH_MARKET_SHARE_DOLLAR: nat := 6
  const FH_TOTAL_SALES: nat := 8
  const FH_MARKET_SHARE_UNITS: nat := 12
  const FH_AVG_PRICE: nat := 14
  const FH_SALE_TO_LIST_RATIO: nat := 15
  const FH_DAYS_ON_MARKET: nat := 16
  const FH_PRICE_PER_SQFT: nat := 17

  // CT2_COLUMNS (fileProcessor.ts writes these indices out literally)
  const CT2_BRAND: nat := 1
  const CT2_DOLLAR_VOLUME: nat := 3
  const CT2_TOTAL_SALES: nat := 6
  const CT2_MKT_PERCENT: nat := 8
  const CT2_DAYS_ON_MARKET: nat := 9
  const CT2_AVG_PRICE: nat := 10
  const CT2_PRICE_PER_SQFT: nat := 11
  const CT2_SALE_TO_LIST_RATIO: nat := 12
}
