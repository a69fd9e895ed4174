/**
 * `processFile` and `createErrorResult` of src/lib/fileProcessor.ts, after
 * the workbook has been decoded: the error path, the layout dispatch, the
 * ordering and re-ranking, the home-brand look-up, the available views,
 * the validation warnings, the totals and the status rule.
 */
module FileProcessor {
  import opened Wrappers
  import opened Numeric
  import opened Types
  import opened Names
  import opened FormatDetection
  import opened RowParsing
  import opened Ranking

  /**
   * What decoding the first sheet gave: its non-blank rows, or the value
   * thrown while reading it (`Some(m)` for an `Error` with message `m`,
   * `None` for anything else).
   */
  datatype SheetInput =
    | Decoded(rows: seq<seq<Cell>>)
    | Thrown(message: Option<string>)

  const NO_DATA_ROWS: string := "File has no data rows"
  const UNRECOGNIZED_FORMAT: string := "Unrecognized file format. Expected FH or ColumnType2 headers."
  const NO_VALID_DATA: string := "No valid brokerage data found"
  const UNKNOWN_ERROR: string := "Unknown error processing file"

  /** The shape of every failed file: one error, nothing else. */
  predicate IsErrorRecord(m: MarketData)
  {
    && m.status == Error
    && |m.errors| == 1
    && m.format == Unknown
    && m.brokerages == []
    && m.sothebysData == None
    && !m.isRlsirFirstByDollar && !m.isRlsirFirstByUnits
    && m.availableViews == []
    && m.totalMarketDollar == 0.0 && m.totalMarketUnits == 0.0
    && m.warnings == []
  }

  /** `createErrorResult`: a record for a failed file, carrying exactly the one error. */
  function CreateErrorResult(id: string, fileName: string, marketName: string, error: string, processedAt: int): (m: MarketData)
    ensures IsErrorRecord(m) && m.errors == [error]
    ensures m.id == id && m.fileName == fileName && m.marketName == marketName && m.processedAt == processedAt
    ensures !IsUsable(m)
  {
    MarketData(
      id := id,
      fileName := fileName,
      marketName := marketName,
      format := Unknown,
      brokerages := [],
      sothebysData := None,
      isRlsirFirstByDollar := false,
      isRlsirFirstByUnits := false,
      availableViews := [],
      totalMarketDollar := 0.0,
      totalMarketUnits := 0.0,
      status := Error,
      warnings := [],
      errors := [error],
      processedAt := processedAt,
      chartTitle := None)
  }

  /** The brokerages of the data rows, by the parser of the detected layout. */
  function ParseRows(format: FileFormat, dataRows: seq<seq<Cell>>): seq<Brokerage>
    requires format != Unknown
  {
    if format == FH then ParseFHRows(dataRows) else CT2Records(dataRows, TotalDollarVolume(dataRows))
  }

  /** `brokerages.find(b => b.isSothebys) ?? null`: the first home-brand record. */
  function FindHome(bs: seq<Brokerage>): (r: Option<Brokerage>)
    ensures r.None? <==> forall i :: 0 <= i < |bs| ==> !bs[i].isSothebys
    ensures r.Some? ==> exists i :: 0 <= i < |bs| && bs[i] == r.value && r.value.isSothebys &&
                                    forall j :: 0 <= j < i ==> !bs[j].isSothebys
  {
    if |bs| == 0 then None
    else if bs[0].isSothebys then Some(bs[0])
    else
      var r := FindHome(bs[1..]);
      assert forall i :: 0 < i < |bs| ==> bs[i] == bs[1..][i - 1];
      r
  }

  /** `sortedBy[0]?.isSothebys ?? false`: the record with the largest share of type `t` is the home brand. */
  function IsHomeFirstBy(bs: seq<Brokerage>, t: ShareType): bool
  {
    |bs| > 0 && SortDesc(bs, ShareKey(t))[0].isSothebys
  }

  /** The views a chart can show: `'dollar'` then `'units'`, each when the home brand leads it. */
  function AvailableViews(byDollar: bool, byUnits: bool): (views: seq<ShareType>)
    ensures Dollar in views <==> byDollar
    ensures Units in views <==> byUnits
    ensures views == [] <==> !byDollar && !byUnits
    ensures |views| <= 2 && (byDollar ==> views[0] == Dollar)
  {
    (if byDollar then [Dollar] else []) + (if byUnits then [Units] else [])
  }

  /** The validation warnings one record raises: a share above 100, dollar first. */
  function RecordWarnings(b: Brokerage): seq<Advisory>
  {
    (if b.marketShareDollar > 100.0 then [DollarShareExceeds(b.name, b.marketShareDollar)] else []) +
    (if b.marketShareUnits > 100.0 then [UnitShareExceeds(b.name, b.marketShareUnits)] else [])
  }

  /** The validation warnings of all records, in record order (the `forEach` of the validation step). */
  function ShareWarnings(bs: seq<Brokerage>): seq<Advisory>
  {
    if |bs| == 0 then [] else ShareWarnings(bs[..|bs| - 1]) + RecordWarnings(bs[|bs| - 1])
  }

  /** `errors.length > 0 ? 'error' : warnings.length > 0 ? 'warning' : 'ready'`. */
  function StatusOf(errors: seq<string>, warnings: seq<Advisory>): (s: FileStatus)
    ensures s == Error <==> errors != []
    ensures s == Ready <==> errors == [] && warnings == []
    ensures s == Error || s == Warning || s == Ready
  {
    if |errors| > 0 then Error else if |warnings| > 0 then Warning else Ready
  }

  function DollarVolumeOf(b: Brokerage): real { b.dollarVolume }

  function TotalSalesOf(b: Brokerage): real { b.totalSales }

  /** `bs.reduce((sum, b) => sum + f(b), 0)`. */
  function Sum<T>(s: seq<T>, f: T -> real): real
  {
    if |s| == 0 then 0.0 else Sum(s[..|s| - 1], f) + f(s[|s| - 1])
  }

  /** The warnings raised before validation: the missing home brand, then the empty view list. */
  function LeadWarnings(home: Option<Brokerage>, views: seq<ShareType>): seq<Advisory>
  {
    (if home.None? then [HomeBrandMissing] else []) + (if views == [] then [NoViewAvailable] else [])
  }

  /**
   * The record of a file whose brokerages were parsed, sorted and ranked:
   * the warnings are the missing home brand, the empty view list and the
   * shares above 100, in that order.
   */
  function Report(id: string, fileName: string, marketName: string, format: FileFormat,
                  bs: seq<Brokerage>, processedAt: int): MarketData
  {
    var home := FindHome(bs);
    var byDollar := IsHomeFirstBy(bs, Dollar);
    var byUnits := IsHomeFirstBy(bs, Units);
    var views := AvailableViews(byDollar, byUnits);
    var warnings := LeadWarnings(home, views) + ShareWarnings(bs);
    MarketData(
      id := id,
      fileName := fileName,
      marketName := marketName,
      format := format,
      brokerages := bs,
      sothebysData := home,
      isRlsirFirstByDollar := byDollar,
      isRlsirFirstByUnits := byUnits,
      availableViews := views,
      totalMarketDollar := Sum(bs, DollarVolumeOf),
      totalMarketUnits := Sum(bs, TotalSalesOf),
      status := StatusOf([], warnings),
      warnings := warnings,
      errors := [],
      processedAt := processedAt,
      chartTitle := None)
  }

  /** The layout the cleaned header row names. */
  function HeaderFormat(rows: seq<seq<Cell>>): FileFormat
    requires rows != []
  {
    DetectFormat(CleanHeaders(rows[0]))
  }

  /**
   * The error `processFile` reports for a sheet, if any: what was thrown,
   * then a sheet without data rows, an unknown layout, no usable record.
   */
  function Failure(input: SheetInput): (e: Option<string>)
    ensures e.None? ==> && input.Decoded? && |input.rows| >= 2 && HeaderFormat(input.rows) != Unknown
                        && ParseRows(HeaderFormat(input.rows), input.rows[1..]) != []
  {
    match input
    case Thrown(message) => Some(message.GetOr(UNKNOWN_ERROR))
    case Decoded(rows) =>
      if |rows| < 2 then Some(NO_DATA_ROWS)
      else if HeaderFormat(rows) == Unknown then Some(UNRECOGNIZED_FORMAT)
      else if |ParseRows(HeaderFormat(rows), rows[1..])| == 0 then Some(NO_VALID_DATA)
      else None
  }

  /** The record `processFile` returns for a file, as a function of its name and decoded sheet. */
  function Outcome(id: string, fileName: string, input: SheetInput, processedAt: int): MarketData
  {
    var marketName := DeriveMarketName(fileName);
    match Failure(input)
    case Some(error) => CreateErrorResult(id, fileName, marketName, error, processedAt)
    case None =>
      var format := HeaderFormat(input.rows);
      var parsed := ParseRows(format, input.rows[1..]);
      Report(id, fileName, marketName, format, Ranked(SortDesc(parsed, ShareKey(Dollar))), processedAt)
  }

  lemma ShareWarningsStep(bs: seq<Brokerage>, i: nat)
    requires i < |bs|
    ensures ShareWarnings(bs[..i + 1]) == ShareWarnings(bs[..i]) + RecordWarnings(bs[i])
  {
    assert bs[..i + 1][..i] == bs[..i];
  }

  /** Sorts the records by dollar share, largest first, and numbers them 1..N in that order. */
  method RankByDollar(brokerages: seq<Brokerage>) returns (ranked: seq<Brokerage>)
    ensures ranked == Ranked(SortDesc(brokerages, ShareKey(Dollar)))
  {
    var sorted := SortDesc(brokerages, ShareKey(Dollar));
    var records := new Brokerage[|sorted|](i requires 0 <= i < |sorted| => sorted[i]);
    ReassignRanks(records);
    ranked := records[..];
  }

  /** The validation step: appends, record by record, a warning for each share above 100. */
  method ValidateShares(brokerages: seq<Brokerage>, warnings0: seq<Advisory>) returns (warnings: seq<Advisory>)
    ensures warnings == warnings0 + ShareWarnings(brokerages)
  {
    warnings := warnings0;
    for i := 0 to |brokerages|
      invariant warnings == warnings0 + ShareWarnings(brokerages[..i])
    {
      var b := brokerages[i];
      ShareWarningsStep(brokerages, i);
      if b.marketShareDollar > 100.0 {
        warnings := warnings + [DollarShareExceeds(b.name, b.marketShareDollar)];
      }
      if b.marketShareUnits > 100.0 {
        warnings := warnings + [UnitShareExceeds(b.name, b.marketShareUnits)];
      }
    }
    assert brokerages[..|brokerages|] == brokerages;
  }

  /** The success path of `processFile`, from the ranked records to the returned record. */
  method Summarise(id: string, fileName: string, marketName: string, format: FileFormat,
                   brokerages: seq<Brokerage>, processedAt: int) returns (m: MarketData)
    ensures m == Report(id, fileName, marketName, format, brokerages, processedAt)
  {
    var warnings: seq<Advisory> := [];
    var errors: seq<string> := [];

    var sothebysData := FindHome(brokerages);
    if sothebysData.None? {
      warnings := warnings + [HomeBrandMissing];
    }

    var isRlsirFirstByDollar := IsHomeFirstBy(brokerages, Dollar);
    var isRlsirFirstByUnits := IsHomeFirstBy(brokerages, Units);
    var availableViews: seq<ShareType> := [];
    if isRlsirFirstByDollar {
      availableViews := availableViews + [Dollar];
    }
    if isRlsirFirstByUnits {
      availableViews := availableViews + [Units];
    }
    if |availableViews| == 0 {
      warnings := warnings + [NoViewAvailable];
    }
    assert availableViews == AvailableViews(isRlsirFirstByDollar, isRlsirFirstByUnits);
    assert warnings == LeadWarnings(sothebysData, availableViews);

    warnings := ValidateShares(brokerages, warnings);

    var totalMarketDollar := Sum(brokerages, DollarVolumeOf);
    var totalMarketUnits := Sum(brokerages, TotalSalesOf);

    m := MarketData(
      id := id,
      fileName := fileName,
      marketName := marketName,
      format := format,
      brokerages := brokerages,
      sothebysData := sothebysData,
      isRlsirFirstByDollar := isRlsirFirstByDollar,
      isRlsirFirstByUnits := isRlsirFirstByUnits,
      availableViews := availableViews,
      totalMarketDollar := totalMarketDollar,
      totalMarketUnits := totalMarketUnits,
      status := StatusOf(errors, warnings),
      warnings := warnings,
      errors := errors,
      processedAt := processedAt,
      chartTitle := None);
  }

  /**
   * `processFile` after the sheet is decoded. The id and the time stamp
   * are given; a thrown exception arrives as `Thrown`.
   */
  method ProcessFile(id: string, fileName: string, input: SheetInput, processedAt: int) returns (m: MarketData)
    ensures m == Outcome(id, fileName, input, processedAt)
  {
    var marketName := DeriveMarketName(fileName);
    if input.Thrown? {
      var message := input.message.GetOr(UNKNOWN_ERROR);
      return CreateErrorResult(id, fileName, marketName, message, processedAt);
    }
    var rawData := input.rows;
    if |rawData| < 2 {
      return CreateErrorResult(id, fileName, marketName, NO_DATA_ROWS, processedAt);
    }

    var headers := CleanHeaders(rawData[0]);
    var format := DetectFormat(headers);
    if format == Unknown {
      return CreateErrorResult(id, fileName, marketName, UNRECOGNIZED_FORMAT, processedAt);
    }

    var dataRows := rawData[1..];
    var brokerages: seq<Brokerage>;
    if format == FH {
      brokerages := ParseFHRows(dataRows);
    } else {
      brokerages := ParseColumnType2Rows(dataRows);
    }
    if |brokerages| == 0 {
      return CreateErrorResult(id, fileName, marketName, NO_VALID_DATA, processedAt);
    }

    brokerages := RankByDollar(brokerages);
    m := Summarise(id, fileName, marketName, format, brokerages, processedAt);
  }

  // ---------------------------------------------------------------------
  // Properties of the outcome

  /** Only failures raise an error, and a failure yields the error record carrying its message. */
  lemma OutcomeErrors(id: string, fileName: string, input: SheetInput, processedAt: int)
    ensures var m := Outcome(id, fileName, input, processedAt);
      && (m.status == Error <==> Failure(input).Some?)
      && (m.status == Error <==> m.errors != [])
      && (Failure(input).Some? ==> m.errors == [Failure(input).value] && IsErrorRecord(m) && !IsUsable(m))
  {
  }

  /** The error of each failure names its cause. */
  lemma FailureMessages(input: SheetInput)
    ensures input.Thrown? ==> Failure(input) == Some(input.message.GetOr(UNKNOWN_ERROR))
    ensures input.Decoded? && |input.rows| < 2 ==> Failure(input) == Some(NO_DATA_ROWS)
    ensures input.Decoded? && |input.rows| >= 2 && HeaderFormat(input.rows) == Unknown ==>
      Failure(input) == Some(UNRECOGNIZED_FORMAT)
    ensures input.Decoded? && |input.rows| >= 2 && HeaderFormat(input.rows) != Unknown ==>
      (Failure(input) == Some(NO_VALID_DATA) <==> ParseRows(HeaderFormat(input.rows), input.rows[1..]) == [])
  {
  }

  /**
   * Sorting by dollar share and re-ranking keeps the parsed records, reorders
   * them largest share first, numbers them 1..N and leaves the totals as they were.
   */
  lemma RankByDollarKeepsRecords(parsed: seq<Brokerage>)
    ensures var sorted := SortDesc(parsed, ShareKey(Dollar));
      var bs := Ranked(sorted);
      && multiset(sorted) == multiset(parsed)
      && SortedDesc(bs, ShareKey(Dollar))
      && |bs| == |parsed|
      && (forall i :: 0 <= i < |bs| ==> bs[i] == sorted[i].(rank := (i + 1) as real))
      && Sum(bs, DollarVolumeOf) == Sum(parsed, DollarVolumeOf)
      && Sum(bs, TotalSalesOf) == Sum(parsed, TotalSalesOf)
  {
    var sorted := SortDesc(parsed, ShareKey(Dollar));
    SortDescPermutes(parsed, ShareKey(Dollar));
    SortDescSorted(parsed, ShareKey(Dollar));
    RankedKeepsOrder(sorted, Dollar);
    SumPointwise(Ranked(sorted), sorted, DollarVolumeOf);
    SumPointwise(Ranked(sorted), sorted, TotalSalesOf);
    SumSortDesc(parsed, ShareKey(Dollar), DollarVolumeOf);
    SumSortDesc(parsed, ShareKey(Dollar), TotalSalesOf);
  }

  /**
   * For records sorted by dollar share, the dollar view is offered exactly
   * when the home brand is the first record; the unit view exactly when the
   * home brand is the earliest of the records with the largest unit share.
   */
  lemma ViewsFollowTheLeader(id: string, fileName: string, marketName: string, format: FileFormat,
                             bs: seq<Brokerage>, processedAt: int)
    requires bs != [] && SortedDesc(bs, ShareKey(Dollar))
    ensures var m := Report(id, fileName, marketName, format, bs, processedAt);
      && (Dollar in m.availableViews <==> bs[0].isSothebys)
      && (Units in m.availableViews <==> bs[FirstMax(bs, ShareKey(Units))].isSothebys)
      && (m.isRlsirFirstByDollar <==> Dollar in m.availableViews)
      && (m.isRlsirFirstByUnits <==> Units in m.availableViews)
      && (m.availableViews != [] ==> m.sothebysData.Some?)
      && (Dollar in m.availableViews ==> m.availableViews[0] == Dollar)
  {
    SortSortedIsIdentity(bs, ShareKey(Dollar));
    SortDescHeadIsFirstMax(bs, ShareKey(Units));
    var k := FirstMax(bs, ShareKey(Units));
    assert IsHomeFirstBy(bs, Dollar) ==> bs[0].isSothebys;
    assert IsHomeFirstBy(bs, Units) ==> bs[k].isSothebys;
  }

  /** A ready record has the home brand, a view to show and no share above 100. */
  lemma ReadyIsUsable(id: string, fileName: string, marketName: string, format: FileFormat,
                      bs: seq<Brokerage>, processedAt: int)
    ensures var m := Report(id, fileName, marketName, format, bs, processedAt);
      m.status == Ready ==>
        && IsUsable(m)
        && m.sothebysData.Some? && m.sothebysData.value.isSothebys && m.sothebysData.value in bs
        && (forall i :: 0 <= i < |bs| ==> bs[i].marketShareDollar <= 100.0 && bs[i].marketShareUnits <= 100.0)
  {
    ShareWarningsEmpty(bs);
  }

  /**
   * The warnings of a report say what is wrong before validation: the
   * missing home brand and the missing views; no error is ever raised.
   */
  lemma WarningsExplainStatus(id: string, fileName: string, marketName: string, format: FileFormat,
                              bs: seq<Brokerage>, processedAt: int)
    ensures var m := Report(id, fileName, marketName, format, bs, processedAt);
      && m.errors == [] && m.status != Error
      && (m.status == Ready <==> m.warnings == [])
      && (HomeBrandMissing in m.warnings <==> forall i :: 0 <= i < |bs| ==> !bs[i].isSothebys)
      && (NoViewAvailable in m.warnings <==> m.availableViews == [])
  {
    var m := Report(id, fileName, marketName, format, bs, processedAt);
    var lead := LeadWarnings(m.sothebysData, m.availableViews);
    var shares := ShareWarnings(bs);
    ShareWarningsExactly(bs);
    LeadWarningsMembers(m.sothebysData, m.availableViews);
    assert m.warnings == lead + shares;
    assert HomeBrandMissing !in shares && NoViewAvailable !in shares;
  }

  lemma LeadWarningsMembers(home: Option<Brokerage>, views: seq<ShareType>)
    ensures HomeBrandMissing in LeadWarnings(home, views) <==> home.None?
    ensures NoViewAvailable in LeadWarnings(home, views) <==> views == []
  {
  }

  /** Every share above 100 in a report's records has its warning. */
  lemma WarningsFlagShares(id: string, fileName: string, marketName: string, format: FileFormat,
                           bs: seq<Brokerage>, processedAt: int)
    ensures var m := Report(id, fileName, marketName, format, bs, processedAt);
      && (forall i :: 0 <= i < |bs| && bs[i].marketShareDollar > 100.0 ==>
            DollarShareExceeds(bs[i].name, bs[i].marketShareDollar) in m.warnings)
      && (forall i :: 0 <= i < |bs| && bs[i].marketShareUnits > 100.0 ==>
            UnitShareExceeds(bs[i].name, bs[i].marketShareUnits) in m.warnings)
  {
    var m := Report(id, fileName, marketName, format, bs, processedAt);
    ShareWarningsExactly(bs);
    assert m.warnings == LeadWarnings(m.sothebysData, m.availableViews) + ShareWarnings(bs);
  }

  /** The validation step reports a warning for every share above 100, and nothing else. */
  lemma {:induction false} ShareWarningsExactly(bs: seq<Brokerage>)
    ensures forall i :: 0 <= i < |bs| && bs[i].marketShareDollar > 100.0 ==>
      DollarShareExceeds(bs[i].name, bs[i].marketShareDollar) in ShareWarnings(bs)
    ensures forall i :: 0 <= i < |bs| && bs[i].marketShareUnits > 100.0 ==>
      UnitShareExceeds(bs[i].name, bs[i].marketShareUnits) in ShareWarnings(bs)
    ensures forall a :: a in ShareWarnings(bs) ==> a.DollarShareExceeds? || a.UnitShareExceeds?
    decreases |bs|
  {
    if bs != [] {
      var init := bs[..|bs| - 1];
      ShareWarningsExactly(init);
      assert forall i :: 0 <= i < |init| ==> init[i] == bs[i];
    }
  }

  /** The validation step is silent exactly when no share exceeds 100. */
  lemma {:induction false} ShareWarningsEmpty(bs: seq<Brokerage>)
    ensures ShareWarnings(bs) == [] <==>
      forall i :: 0 <= i < |bs| ==> bs[i].marketShareDollar <= 100.0 && bs[i].marketShareUnits <= 100.0
    decreases |bs|
  {
    if bs != [] {
      var init := bs[..|bs| - 1];
      ShareWarningsEmpty(init);
      assert forall i :: 0 <= i < |init| ==> init[i] == bs[i];
    }
  }

  // ---------------------------------------------------------------------
  // Sums do not depend on the order of the records

  lemma {:induction false} SumCons<T>(x: T, s: seq<T>, f: T -> real)
    ensures Sum([x] + s, f) == f(x) + Sum(s, f)
    decreases |s|
  {
    if s != [] {
      var init := s[..|s| - 1];
      assert ([x] + s)[..|s|] == [x] + init;
      SumCons(x, init, f);
    }
  }

  lemma {:induction false} SumInsert<T>(x: T, s: seq<T>, key: T -> real, f: T -> real)
    ensures Sum(Insert(x, s, key), f) == Sum(s, f) + f(x)
    decreases |s|
  {
    if |s| == 0 || key(s[0]) < key(x) {
      SumCons(x, s, f);
    } else {
      SumCons(s[0], Insert(x, s[1..], key), f);
      SumInsert(x, s[1..], key, f);
      SumCons(s[0], s[1..], f);
      assert [s[0]] + s[1..] == s;
    }
  }

  /** Sorting does not change a sum. */
  lemma {:induction false} SumSortDesc<T>(s: seq<T>, key: T -> real, f: T -> real)
    ensures Sum(SortDesc(s, key), f) == Sum(s, f)
    decreases |s|
  {
    if s != [] {
      SumInsert(s[|s| - 1], SortDesc(s[..|s| - 1], key), key, f);
      SumSortDesc(s[..|s| - 1], key, f);
    }
  }

  /** Sequences that agree on `f` element by element have the same sum. */
  lemma {:induction false} SumPointwise<T>(a: seq<T>, b: seq<T>, f: T -> real)
    requires |a| == |b|
    requires forall i :: 0 <= i < |a| ==> f(a[i]) == f(b[i])
    ensures Sum(a, f) == Sum(b, f)
    decreases |a|
  {
    if a != [] {
      SumPointwise(a[..|a| - 1], b[..|b| - 1], f);
    }
  }
}
