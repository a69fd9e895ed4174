/**
 * Header clean-up and layout detection (`detectFormat` in
 * src/lib/fileProcessor.ts): the ColumnType2 layout is recognised by its
 * ninth header, the FH layout by a market-share header anywhere.
 */
module FormatDetection {
  import opened Text
  import opened Patterns
  import opened Numeric
  import opened Types

  /** `/mkt\s*%/i` */
  const MKT_PERCENT: Pattern := ["mkt", "%"]
  /** `/market\s*share\s*\(\$\)/i` */
  const MARKET_SHARE_DOLLAR: Pattern := ["market", "share", "($)"]
  /** `/market\s*share\s*\(#\)/i` */
  const MARKET_SHARE_UNITS: Pattern := ["market", "share", "(#)"]

  /** The index of the header that marks the ColumnType2 layout (column I). */
  const CT2_MARKER_COLUMN: nat := 8

  const BOM: char := '\U{FEFF}'

  /** `s.replace(/^\uFEFF/, '')`: one leading byte-order mark is removed. */
  function StripBOM(s: string): (r: string)
    ensures |s| > 0 && s[0] == BOM ==> r == s[1..]
    ensures !(|s| > 0 && s[0] == BOM) ==> r == s
  {
    if |s| > 0 && s[0] == BOM then s[1..] else s
  }

  /** `String(h).replace(/^\uFEFF/, '').trim()` for one header cell. */
  function CleanHeader(c: Cell): (h: string)
    ensures h == [] || (!IsSpace(h[0]) && !IsSpace(h[|h| - 1]))
  {
    Trim(StripBOM(CellText(c)))
  }

  /**
   * The byte-order mark is white space to `trim`, so removing it first
   * changes nothing: a cleaned header is the trimmed cell text.
   */
  lemma CleanHeaderIsTrim(c: Cell)
    ensures CleanHeader(c) == Trim(CellText(c))
  {
    var s := CellText(c);
    if |s| > 0 && s[0] == BOM {
      TrimSkipsLeadingSpace(s);
    }
  }

  /** The first row of the sheet, every header cleaned. */
  function CleanHeaders(row: seq<Cell>): (hs: seq<string>)
    ensures |hs| == |row|
    ensures forall i :: 0 <= i < |row| ==> hs[i] == CleanHeader(row[i])
  {
    if row == [] then [] else [CleanHeader(row[0])] + CleanHeaders(row[1..])
  }

  lemma PatternsAreBlockedByBar()
    ensures MKT_PERCENT != [] && NonEmptyWords(MKT_PERCENT)
    ensures MARKET_SHARE_DOLLAR != [] && NonEmptyWords(MARKET_SHARE_DOLLAR) && Blocks('|', MARKET_SHARE_DOLLAR)
    ensures MARKET_SHARE_UNITS != [] && NonEmptyWords(MARKET_SHARE_UNITS) && Blocks('|', MARKET_SHARE_UNITS)
  {
  }

  /**
   * `detectFormat`: ColumnType2 when there are more than eight headers and
   * the ninth matches `mkt\s*%`; otherwise FH when the headers joined with
   * `'|'` match a market-share pattern; otherwise unknown. As `'|'` can be
   * part of neither pattern, the FH test holds exactly when one single
   * header matches.
   */
  function DetectFormat(headers: seq<string>): (f: FileFormat)
    ensures f == ColumnType2 <==> |headers| > CT2_MARKER_COLUMN && Test(headers[CT2_MARKER_COLUMN], MKT_PERCENT)
    ensures f == FH <==>
      !(|headers| > CT2_MARKER_COLUMN && Test(headers[CT2_MARKER_COLUMN], MKT_PERCENT)) &&
      (SomeTest(headers, MARKET_SHARE_DOLLAR) || SomeTest(headers, MARKET_SHARE_UNITS))
  {
    if |headers| > CT2_MARKER_COLUMN && Test(headers[CT2_MARKER_COLUMN], MKT_PERCENT) then ColumnType2
    else
      var headerStr := Join(headers, "|");
      PatternsAreBlockedByBar();
      TestJoin(headers, '|', MARKET_SHARE_DOLLAR);
      TestJoin(headers, '|', MARKET_SHARE_UNITS);
      if Test(headerStr, MARKET_SHARE_DOLLAR) || Test(headerStr, MARKET_SHARE_UNITS) then FH
      else Unknown
  }
}
