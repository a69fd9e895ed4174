/**
 * The two layout-specific row parsers of src/lib/fileProcessor.ts:
 * `parseFHRow` (one FH row, pure) and `parseColumnType2Rows` (all
 * ColumnType2 rows, two accumulating loops).
 */
module RowParsing {
  import opened Wrappers
  import opened Text
  import opened Numeric
  import opened Types
  import opened Constants
  import opened Names

  /** `String(row[col] ?? '').trim()`: the brand text of a row. */
  function BrandAt(row: seq<Cell>, col: nat): (brand: string)
    ensures brand == [] || (!IsSpace(brand[0]) && !IsSpace(brand[|brand| - 1]))
  {
    Trim(CellText(CellAt(row, col)))
  }

  /** `safeFloat(row[col])`. */
  function ValueAt(row: seq<Cell>, col: nat): real
  {
    SafeFloat(CellAt(row, col))
  }

  /** A kept brand is shown under the fixed display name exactly when it is the home brand, and as it is otherwise. */
  lemma DisplayNameOfBrand(brand: string)
    requires brand == [] || (!IsSpace(brand[0]) && !IsSpace(brand[|brand| - 1]))
    ensures IsSothebys(brand) ==> NormalizeName(brand) == SOTHEBYS_DISPLAY_NAME
    ensures !IsSothebys(brand) ==> NormalizeName(brand) == brand && NormalizeName(brand) != SOTHEBYS_DISPLAY_NAME
  {
    TrimOfTrimmed(brand);
    DisplayNameIsHomeBrand();
  }

  /** The record `parseFHRow` builds from a row, read from the FH_COLUMNS positions. */
  function FHRecord(row: seq<Cell>): Brokerage
  {
    var brand := BrandAt(row, FH_BRAND);
    Brokerage(
      rank := ValueAt(row, FH_RANK),
      name := NormalizeName(brand),
      originalName := brand,
      dollarVolume := ValueAt(row, FH_DOLLAR_VOLUME),
      marketShareDollar := NormalizePercentage(ValueAt(row, FH_MARKET_SHARE_DOLLAR), true),
      marketShareUnits := NormalizePercentage(ValueAt(row, FH_MARKET_SHARE_UNITS), true),
      totalSales := ValueAt(row, FH_TOTAL_SALES),
      avgPrice := ValueAt(row, FH_AVG_PRICE),
      daysOnMarket := ValueAt(row, FH_DAYS_ON_MARKET),
      pricePerSqFt := ValueAt(row, FH_PRICE_PER_SQFT),
      saleToListRatio := NormalizePercentage(ValueAt(row, FH_SALE_TO_LIST_RATIO), true) / 100.0,
      percentChange := ValueAt(row, FH_PERCENT_CHANGE),
      isSothebys := IsSothebys(brand))
  }

  /**
   * `parseFHRow`: no record for a blank brand or for a row whose dollar
   * share, unit share and dollar volume are all 0 (a share is 0 after
   * normalisation exactly when it was 0 before); otherwise the row's record.
   */
  function ParseFHRow(row: seq<Cell>): (r: Option<Brokerage>)
    ensures r.None? <==>
      BrandAt(row, FH_BRAND) == [] ||
      (ValueAt(row, FH_MARKET_SHARE_DOLLAR) == 0.0 && ValueAt(row, FH_MARKET_SHARE_UNITS) == 0.0 &&
       ValueAt(row, FH_DOLLAR_VOLUME) == 0.0)
    ensures r.Some? ==> r.value == FHRecord(row)
  {
    var brand := BrandAt(row, FH_BRAND);
    if brand == [] then None
    else
      var dollarVolume := ValueAt(row, FH_DOLLAR_VOLUME);
      var rawShareDollar := ValueAt(row, FH_MARKET_SHARE_DOLLAR);
      var rawShareUnits := ValueAt(row, FH_MARKET_SHARE_UNITS);
      var marketShareDollar := NormalizePercentage(rawShareDollar, true);
      var marketShareUnits := NormalizePercentage(rawShareUnits, true);
      NormalizeZero(rawShareDollar, true);
      NormalizeZero(rawShareUnits, true);
      if marketShareDollar == 0.0 && marketShareUnits == 0.0 && dollarVolume == 0.0 then None
      else Some(FHRecord(row))
  }

  /**
   * An FH record keeps the trimmed brand as its original name, carries the
   * fixed display name exactly when the brand is the home brand, and holds
   * both shares and the sale-to-list ratio on the percent scale.
   */
  lemma FHRecordFields(row: seq<Cell>)
    requires BrandAt(row, FH_BRAND) != []
    ensures var b, brand := FHRecord(row), BrandAt(row, FH_BRAND);
      && b.originalName == brand
      && b.isSothebys == IsSothebys(brand)
      && (b.isSothebys <==> b.name == SOTHEBYS_DISPLAY_NAME)
      && (!b.isSothebys ==> b.name == brand)
      && (0.0 < ValueAt(row, FH_MARKET_SHARE_DOLLAR) < 1.0 ==> b.marketShareDollar == ValueAt(row, FH_MARKET_SHARE_DOLLAR) * 100.0)
      && (!(0.0 < ValueAt(row, FH_MARKET_SHARE_DOLLAR) < 1.0) ==> b.marketShareDollar == ValueAt(row, FH_MARKET_SHARE_DOLLAR))
      && (0.0 < ValueAt(row, FH_MARKET_SHARE_UNITS) < 1.0 ==> b.marketShareUnits == ValueAt(row, FH_MARKET_SHARE_UNITS) * 100.0)
      && (!(0.0 < ValueAt(row, FH_MARKET_SHARE_UNITS) < 1.0) ==> b.marketShareUnits == ValueAt(row, FH_MARKET_SHARE_UNITS))
      && (0.0 < ValueAt(row, FH_SALE_TO_LIST_RATIO) < 1.0 ==> b.saleToListRatio == ValueAt(row, FH_SALE_TO_LIST_RATIO))
      && (!(0.0 < ValueAt(row, FH_SALE_TO_LIST_RATIO) < 1.0) ==> b.saleToListRatio == ValueAt(row, FH_SALE_TO_LIST_RATIO) / 100.0)
  {
    DisplayNameOfBrand(BrandAt(row, FH_BRAND));
  }

  /** A record that names a brand, trimmed, and flags it exactly when it is the home brand. */
  predicate NamedRecord(b: Brokerage)
  {
    b.originalName != [] && !IsSpace(b.originalName[0]) && !IsSpace(b.originalName[|b.originalName| - 1]) &&
    b.isSothebys == IsSothebys(b.originalName)
  }

  lemma FHRowNamed(row: seq<Cell>)
    requires ParseFHRow(row).Some?
    ensures NamedRecord(ParseFHRow(row).value)
  {
    FHRecordFields(row);
  }

  /**
   * `dataRows.map(parseFHRow).filter(b => b !== null)`: every record names
   * a trimmed brand and flags it exactly when it is the home brand.
   */
  function ParseFHRows(rows: seq<seq<Cell>>): (bs: seq<Brokerage>)
    ensures |bs| <= |rows|
    ensures forall b :: b in bs ==> NamedRecord(b)
  {
    if rows == [] then []
    else
      match ParseFHRow(rows[0])
      case None => ParseFHRows(rows[1..])
      case Some(b) =>
        FHRowNamed(rows[0]);
        [b] + ParseFHRows(rows[1..])
  }

  /** Rows are parsed independently and kept in input order. */
  lemma {:induction false} ParseFHRowsAppend(xs: seq<seq<Cell>>, ys: seq<seq<Cell>>)
    ensures ParseFHRows(xs + ys) == ParseFHRows(xs) + ParseFHRows(ys)
    decreases |xs|
  {
    if xs == [] {
      assert xs + ys == ys;
    } else {
      assert (xs + ys)[0] == xs[0];
      assert (xs + ys)[1..] == xs[1..] + ys;
      ParseFHRowsAppend(xs[1..], ys);
    }
  }

  /** The sum of column D over `rows`, blank brands included (the first loop of `parseColumnType2Rows`). */
  function TotalDollarVolume(rows: seq<seq<Cell>>): real
  {
    if rows == [] then 0.0
    else TotalDollarVolume(rows[..|rows| - 1]) + ValueAt(rows[|rows| - 1], CT2_DOLLAR_VOLUME)
  }

  /** A ColumnType2 dollar share: the row's part of the total volume, in percent, or 0 without a positive total. */
  function CT2DollarShare(volume: real, total: real): real
  {
    if total > 0.0 then volume / total * 100.0 else 0.0
  }

  /** The record the second loop of `parseColumnType2Rows` pushes for a row, with the given rank. */
  function CT2Record(row: seq<Cell>, total: real, rank: nat): Brokerage
  {
    var brand := BrandAt(row, CT2_BRAND);
    Brokerage(
      rank := rank as real,
      name := NormalizeName(brand),
      originalName := brand,
      dollarVolume := ValueAt(row, CT2_DOLLAR_VOLUME),
      marketShareDollar := CT2DollarShare(ValueAt(row, CT2_DOLLAR_VOLUME), total),
      marketShareUnits := NormalizePercentage(ValueAt(row, CT2_MKT_PERCENT), false),
      totalSales := ValueAt(row, CT2_TOTAL_SALES),
      avgPrice := ValueAt(row, CT2_AVG_PRICE),
      daysOnMarket := ValueAt(row, CT2_DAYS_ON_MARKET),
      pricePerSqFt := ValueAt(row, CT2_PRICE_PER_SQFT),
      saleToListRatio := NormalizePercentage(ValueAt(row, CT2_SALE_TO_LIST_RATIO), false) / 100.0,
      percentChange := 0.0,
      isSothebys := IsSothebys(brand))
  }

  /**
   * Whether the second loop pushes a record for a row: it must name a brand
   * and have a non-zero dollar or unit share.
   */
  predicate CT2Keeps(row: seq<Cell>, total: real)
  {
    BrandAt(row, CT2_BRAND) != [] &&
    !(CT2DollarShare(ValueAt(row, CT2_DOLLAR_VOLUME), total) == 0.0 &&
      NormalizePercentage(ValueAt(row, CT2_MKT_PERCENT), false) == 0.0)
  }

  /** A row is dropped exactly when its brand is blank or its volume share and its raw column-I value are both 0. */
  lemma CT2KeepsExactly(row: seq<Cell>, total: real)
    ensures !CT2Keeps(row, total) <==>
      BrandAt(row, CT2_BRAND) == [] ||
      (CT2DollarShare(ValueAt(row, CT2_DOLLAR_VOLUME), total) == 0.0 && ValueAt(row, CT2_MKT_PERCENT) == 0.0)
    ensures total > 0.0 && BrandAt(row, CT2_BRAND) != [] && ValueAt(row, CT2_DOLLAR_VOLUME) != 0.0 ==> CT2Keeps(row, total)
  {
    NormalizeZero(ValueAt(row, CT2_MKT_PERCENT), false);
    if total > 0.0 && ValueAt(row, CT2_DOLLAR_VOLUME) != 0.0 {
      NonZeroPercent(ValueAt(row, CT2_DOLLAR_VOLUME), total);
    }
  }

  lemma NonZeroPercent(v: real, t: real)
    requires t > 0.0 && v != 0.0
    ensures v / t * 100.0 != 0.0
  {
  }

  /**
   * A ColumnType2 record keeps the trimmed brand as its original name,
   * carries the fixed display name exactly when the brand is the home brand,
   * has no percent change, and holds its volume's part of a positive total
   * in percent as its dollar share.
   */
  lemma CT2RecordFields(row: seq<Cell>, total: real, rank: nat)
    requires BrandAt(row, CT2_BRAND) != []
    ensures var b, brand := CT2Record(row, total, rank), BrandAt(row, CT2_BRAND);
      && b.rank == rank as real
      && b.originalName == brand
      && b.isSothebys == IsSothebys(brand)
      && (b.isSothebys <==> b.name == SOTHEBYS_DISPLAY_NAME)
      && (!b.isSothebys ==> b.name == brand)
      && b.percentChange == 0.0
      && (total > 0.0 ==> b.marketShareDollar == b.dollarVolume / total * 100.0)
      && (total <= 0.0 ==> b.marketShareDollar == 0.0)
      && (0.0 < ValueAt(row, CT2_MKT_PERCENT) < 1.0 ==> b.marketShareUnits == ValueAt(row, CT2_MKT_PERCENT) * 100.0)
      && (!(0.0 < ValueAt(row, CT2_MKT_PERCENT) < 1.0) ==> b.marketShareUnits == ValueAt(row, CT2_MKT_PERCENT))
  {
    DisplayNameOfBrand(BrandAt(row, CT2_BRAND));
  }

  /** The records the second loop has pushed after the rows of `rows`, each ranked by its position. */
  function CT2Records(rows: seq<seq<Cell>>, total: real): (bs: seq<Brokerage>)
    ensures |bs| <= |rows|
  {
    if rows == [] then []
    else
      var prev := CT2Records(rows[..|rows| - 1], total);
      var row := rows[|rows| - 1];
      if CT2Keeps(row, total) then prev + [CT2Record(row, total, |prev| + 1)] else prev
  }

  /** Kept ColumnType2 rows are ranked 1, 2, … in input order. */
  lemma {:induction false} CT2RanksConsecutive(rows: seq<seq<Cell>>, total: real)
    ensures forall i :: 0 <= i < |CT2Records(rows, total)| ==> CT2Records(rows, total)[i].rank == (i + 1) as real
    decreases |rows|
  {
    if rows != [] {
      CT2RanksConsecutive(rows[..|rows| - 1], total);
    }
  }

  lemma TotalDollarVolumeStep(rows: seq<seq<Cell>>, i: nat)
    requires i < |rows|
    ensures TotalDollarVolume(rows[..i + 1]) == TotalDollarVolume(rows[..i]) + ValueAt(rows[i], CT2_DOLLAR_VOLUME)
  {
    assert rows[..i + 1][..i] == rows[..i];
  }

  /** One turn of the second loop: the row's record, if it is kept, is pushed after those of the rows before it. */
  lemma CT2RecordsStep(rows: seq<seq<Cell>>, i: nat, total: real, prev: seq<Brokerage>)
    requires i < |rows| && prev == CT2Records(rows[..i], total)
    ensures BrandAt(rows[i], CT2_BRAND) == [] ==> CT2Records(rows[..i + 1], total) == prev
    ensures BrandAt(rows[i], CT2_BRAND) != [] ==>
      var dropped := CT2DollarShare(ValueAt(rows[i], CT2_DOLLAR_VOLUME), total) == 0.0 &&
                     NormalizePercentage(ValueAt(rows[i], CT2_MKT_PERCENT), false) == 0.0;
      CT2Records(rows[..i + 1], total) == if dropped then prev else prev + [CT2Record(rows[i], total, |prev| + 1)]
  {
    assert rows[..i + 1][..i] == rows[..i];
  }

  /** The first loop of `parseColumnType2Rows`: column D summed over every row. */
  method SumDollarVolume(rows: seq<seq<Cell>>) returns (totalDollarVolume: real)
    ensures totalDollarVolume == TotalDollarVolume(rows)
  {
    totalDollarVolume := 0.0;
    for i := 0 to |rows|
      invariant totalDollarVolume == TotalDollarVolume(rows[..i])
    {
      TotalDollarVolumeStep(rows, i);
      totalDollarVolume := totalDollarVolume + ValueAt(rows[i], CT2_DOLLAR_VOLUME);
    }
    assert rows[..|rows|] == rows;
  }

  /**
   * `parseColumnType2Rows`: the first loop sums column D over every row,
   * the second pushes each row's record, ranked by the records before it.
   */
  method ParseColumnType2Rows(rows: seq<seq<Cell>>) returns (brokerages: seq<Brokerage>)
    ensures brokerages == CT2Records(rows, TotalDollarVolume(rows))
    ensures forall i :: 0 <= i < |brokerages| ==> brokerages[i].rank == (i + 1) as real
  {
    var totalDollarVolume := SumDollarVolume(rows);
    brokerages := [];
    for i := 0 to |rows|
      invariant brokerages == CT2Records(rows[..i], totalDollarVolume)
    {
      var row := rows[i];
      CT2RecordsStep(rows, i, totalDollarVolume, brokerages);
      var brand := BrandAt(row, CT2_BRAND);
      if brand != [] {
        var marketShareUnits := NormalizePercentage(ValueAt(row, CT2_MKT_PERCENT), false);
        var marketShareDollar := CT2DollarShare(ValueAt(row, CT2_DOLLAR_VOLUME), totalDollarVolume);
        if !(marketShareDollar == 0.0 && marketShareUnits == 0.0) {
          brokerages := brokerages + [CT2Record(row, totalDollarVolume, |brokerages| + 1)];
        }
      }
    }
    assert rows[..|rows|] == rows;
    CT2RanksConsecutive(rows, totalDollarVolume);
  }

  /** The dollar volume of the rows with a brand. */
  function NamedVolume(rows: seq<seq<Cell>>): real
  {
    if rows == [] then 0.0 else NamedVolume(rows[..|rows| - 1]) + AddedVolume(rows[|rows| - 1])
  }

  function SumDollarShares(bs: seq<Brokerage>): real
  {
    if bs == [] then 0.0 else SumDollarShares(bs[..|bs| - 1]) + bs[|bs| - 1].marketShareDollar
  }

  /** The dollar volume a row adds to the branded volume. */
  function AddedVolume(row: seq<Cell>): real
  {
    if BrandAt(row, CT2_BRAND) == [] then 0.0 else ValueAt(row, CT2_DOLLAR_VOLUME)
  }

  /** The dollar share a row adds to the sum of the records' shares. */
  function AddedShare(row: seq<Cell>, total: real): real
  {
    if BrandAt(row, CT2_BRAND) == [] then 0.0 else CT2DollarShare(ValueAt(row, CT2_DOLLAR_VOLUME), total)
  }

  lemma AddedShareIsPercent(row: seq<Cell>, total: real)
    requires total > 0.0
    ensures AddedShare(row, total) == AddedVolume(row) / total * 100.0
  {
    if BrandAt(row, CT2_BRAND) == [] {
      PercentOfNothing(total);
    }
  }

  /** A row adds its share when it names a brand (a dropped row's share is 0), else nothing. */
  lemma CT2SumStep(rows: seq<seq<Cell>>, total: real)
    requires rows != []
    ensures SumDollarShares(CT2Records(rows, total)) ==
      SumDollarShares(CT2Records(rows[..|rows| - 1], total)) + AddedShare(rows[|rows| - 1], total)
  {
    var prev := CT2Records(rows[..|rows| - 1], total);
    var row := rows[|rows| - 1];
    CT2KeepsExactly(row, total);
    if CT2Keeps(row, total) {
      var bs := prev + [CT2Record(row, total, |prev| + 1)];
      assert bs[..|bs| - 1] == prev;
    }
  }

  /** The shares the rows add, summed without building the records. */
  function SharesAdded(rows: seq<seq<Cell>>, total: real): real
  {
    if rows == [] then 0.0 else SharesAdded(rows[..|rows| - 1], total) + AddedShare(rows[|rows| - 1], total)
  }

  lemma {:induction false} SumIsSharesAdded(rows: seq<seq<Cell>>, total: real)
    ensures SumDollarShares(CT2Records(rows, total)) == SharesAdded(rows, total)
    decreases |rows|
  {
    if rows != [] {
      SumIsSharesAdded(rows[..|rows| - 1], total);
      CT2SumStep(rows, total);
    }
  }

  /** Percentages of one total add up like the amounts they are taken of. */
  lemma PercentOfSum(s: real, s0: real, share: real, v: real, v0: real, added: real, t: real)
    requires t > 0.0 && s == s0 + share && v == v0 + added
    requires s0 == v0 / t * 100.0 && share == added / t * 100.0
    ensures s == v / t * 100.0
  {
  }

  lemma PercentOfNothing(t: real)
    requires t > 0.0
    ensures 0.0 / t * 100.0 == 0.0
  {
  }

  lemma {:induction false} SharesAddedIsPercent(rows: seq<seq<Cell>>, total: real)
    requires total > 0.0
    ensures SharesAdded(rows, total) == NamedVolume(rows) / total * 100.0
    decreases |rows|
  {
    if rows == [] {
      PercentOfNothing(total);
    } else {
      var init, last := rows[..|rows| - 1], rows[|rows| - 1];
      SharesAddedIsPercent(init, total);
      AddedShareIsPercent(last, total);
      PercentOfSum(SharesAdded(rows, total), SharesAdded(init, total), AddedShare(last, total),
                   NamedVolume(rows), NamedVolume(init), AddedVolume(last), total);
    }
  }

  /**
   * With a positive total, the ColumnType2 dollar shares add up to the
   * branded rows' part of the total volume, in percent.
   */
  lemma CT2DollarSharesSum(rows: seq<seq<Cell>>, total: real)
    requires total > 0.0
    ensures SumDollarShares(CT2Records(rows, total)) == NamedVolume(rows) / total * 100.0
  {
    SumIsSharesAdded(rows, total);
    SharesAddedIsPercent(rows, total);
  }

  lemma {:induction false} NamedVolumeAllBranded(rows: seq<seq<Cell>>)
    requires forall i :: 0 <= i < |rows| ==> BrandAt(rows[i], CT2_BRAND) != []
    ensures NamedVolume(rows) == TotalDollarVolume(rows)
    decreases |rows|
  {
    if rows != [] {
      NamedVolumeAllBranded(rows[..|rows| - 1]);
    }
  }

  /** When every row names a brand and the total is positive, the dollar shares add up to 100. */
  lemma CT2DollarSharesComplete(rows: seq<seq<Cell>>)
    requires forall i :: 0 <= i < |rows| ==> BrandAt(rows[i], CT2_BRAND) != []
    requires TotalDollarVolume(rows) > 0.0
    ensures SumDollarShares(CT2Records(rows, TotalDollarVolume(rows))) == 100.0
  {
    var total := TotalDollarVolume(rows);
    CT2DollarSharesSum(rows, total);
    NamedVolumeAllBranded(rows);
    WholeIsHundredPercent(total);
  }

  lemma WholeIsHundredPercent(t: real)
    requires t > 0.0
    ensures t / t * 100.0 == 100.0
  {
  }
}
