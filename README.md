# mshares core, modelled in Dafny

mshares turns real-estate market-share spreadsheets into charts for the
brokerage Russ Lyon Sotheby's International Realty (RLSIR, the "home
brand"). Its core has four parts:

- **The file processor** (`src/lib/fileProcessor.ts`). For one uploaded file it:
  - derives a market name from the file name;
  - cleans the header row and detects the file's format (FH or ColumnType2);
  - parses the brokerage rows of that format;
  - normalises names and percentages;
  - sorts the records by dollar share and re-ranks them;
  - finds the home brand and decides which views (dollar, units) it leads;
  - collects warnings and totals, and assembles one `MarketData` record or an error record.
- **The market store** (`src/store/marketStore.ts`). This is the application state. It holds:
  - the processed markets, the selection and the current market;
  - the preview carousel;
  - the date range;
  - the view settings.
- **The executive summary** (`src/lib/summaryGenerator.ts`). It writes the prose paragraph about the home brand's position in one market.
- **The date range picker** (`src/components/controls/DateRangePicker.tsx`). It covers:
  - the calendar arithmetic;
  - the `MM/DD/YYYY` text round trip with the store;
  - the picker's start/end selection state machine;
  - the month grid.

## How the files map

| File | What it models |
|---|---|
| `wrappers.dfy` | `Option`. |
| `text.dfy` | ASCII case folding; `trim`; case-insensitive first-match replace; white-space collapsing; title-casing; `join`. |
| `patterns.dfy` | The case-insensitive regular expressions of the source, as word sequences separated by optional white space (`/russ\s*lyon/i` is `["russ", "lyon"]`). `Test` says whether one occurs anywhere in a text. |
| `types.dfy` | The records of `src/types/index.ts`, and the constants of `src/lib/constants.ts` and `fileProcessor.ts`. |
| `numeric.dfy` | `safeFloat`: symbol stripping and a `parseFloat` prefix reader. Also `normalizePercentage`. |
| `names.dfy` | `isSothebys`, `normalizeName`, `deriveMarketName`. |
| `format_detection.dfy` | The header clean-up and `detectFormat`. |
| `row_parsing.dfy` | `parseFHRow` and the two loops of `parseColumnType2Rows`. |
| `ranking.dfy` | The stable sort by descending share (ECMAScript's `Array.prototype.sort` is stable) and the in-place rank reassignment. |
| `file_processor.dfy` | `processFile` and `createErrorResult`. |
| `market_store.dfy` | The store as a class whose actions update its fields. |
| `summary_generator.dfy` | `generateExecutiveSummary` over texts made of phrases, names and symbolic numbers. |
| `date_range_picker.dfy` | The calendar functions, the picker as a class, and the month grid method. |

## How the model is set up

**Inputs that come from outside**
- The decoded spreadsheet (`SheetInput`) is a parameter: either the rows of cells, or the message of an exception thrown while reading.
- So are the id, the clock reading, and today's date.

**Numbers and text**
- Numbers are reals.
- A printed number (`toFixed`, `toLocaleString`, `Math.round`) stays a symbolic piece of the text. This means the summary's wording is checked exactly while its digits are not.
- Warnings are a datatype holding the number the source prints. Error messages are the source's exact strings.

## Model

| member | source | states |
|---|---|---|
| Text.FindFrom | src/lib/fileProcessor.ts:22-35 | The position found is the first one, at or after the start, where the pattern occurs ignoring ASCII case. None means it occurs nowhere from there. |
| Text.ReplaceFirstCI | src/lib/fileProcessor.ts:22-35 | The text is unchanged when the pattern does not occur. Otherwise exactly the first case-insensitive occurrence is replaced and the rest is kept. |
| Text.FirstMatchIsFound | src/lib/fileProcessor.ts:22-35 | The search from position 0 finds precisely the first occurrence. |
| Text.StripPrefixCI | src/lib/fileProcessor.ts:23-24 | An anchored `^` pattern is removed only when the text starts with it, ignoring case. |
| Text.Trim | src/lib/fileProcessor.ts:36 | The result is the input's slice between its leading and trailing white space, and neither end is a space. |
| Text.TrimOfTrimmed | src/lib/fileProcessor.ts:17 | Trimming an already trimmed text changes nothing. |
| Text.TrimDecompose | src/lib/fileProcessor.ts:17 | Every text is white space, then its trimmed text, then white space. |
| Text.TrimKeepsPlainSpacing | src/lib/fileProcessor.ts:39 | Trimming a text with single plain spaces keeps single plain spaces. |
| Text.CollapseSpaces | src/lib/fileProcessor.ts:39 | `replace(/\s+/g, ' ')` leaves only single plain spaces. It keeps every visible character in order, and it leaves a leading space exactly when the input began with white space. |
| Text.CollapseAllSpace | src/lib/fileProcessor.ts:39 | A non-empty run of white space alone becomes a single plain space. |
| Text.CollapseSpacesAppend | src/lib/fileProcessor.ts:39 | Collapsing a concatenation is collapsing each part, whenever the cut does not fall inside a run of white space. Each run therefore becomes exactly one space, including the runs between words. |
| Text.CollapseWordGap | src/lib/fileProcessor.ts:39 | A run of white space between two parts that end and start visibly becomes exactly one plain space, and the two parts collapse on their own. |
| Text.VisibleDropSpaces | src/lib/fileProcessor.ts:39 | Dropping leading white space keeps the visible characters. |
| Text.CapitaliseFrom | src/lib/fileProcessor.ts:43 | Each character that starts a word is upper-cased; every other character is kept. |
| Text.TitleCase | src/lib/fileProcessor.ts:43 | Same length as the input; a character is upper-cased exactly when it follows a space or starts the text. |
| Text.CaseKeepsSpace | src/lib/fileProcessor.ts:43 | Case mapping never turns a space into a non-space or the reverse. |
| Patterns.MatchesAtTrailing | src/lib/fileProcessor.ts:11-13 | Trailing white space does not change whether a pattern matches at a position. |
| Patterns.TestSurrounded | src/lib/fileProcessor.ts:15-17 | Surrounding white space does not change whether a pattern occurs. |
| Patterns.TestTrim | src/lib/fileProcessor.ts:15-17 | A pattern occurs in the trimmed text exactly when it occurs in the text. |
| Patterns.MatchesAtBlocked | src/lib/fileProcessor.ts:77-78 | A match cannot run across a separator that no word of the pattern contains. |
| Patterns.TestJoin | src/lib/fileProcessor.ts:77-78 | A pattern whose words never contain the separator occurs in the joined text exactly when it occurs in one of the parts. |
| Patterns.SomeTestSplit | src/lib/fileProcessor.ts:77-78 | "Some part matches" splits into the first part or the rest. |
| Numeric.CellAt | src/lib/fileProcessor.ts:85 | Reading past the end of a row gives the blank cell that `?? ''` stands for. |
| Numeric.RemoveSymbols | src/lib/fileProcessor.ts:51 | `$`, `,` and `%` are all removed and nothing is added. |
| Numeric.RemoveSymbolsAppend | src/lib/fileProcessor.ts:51 | Removing the symbols from a concatenation is removing them from each part, so the remaining characters keep their order. |
| Numeric.RemoveSymbolsOne | src/lib/fileProcessor.ts:51 | A single character is dropped exactly when it is `$`, `,` or `%`, and kept otherwise. |
| Numeric.DigitCount | src/lib/fileProcessor.ts:52 | The number of leading decimal digits: all of them digits, and the next character not one. |
| Numeric.SafeFloat | src/lib/fileProcessor.ts:49-54 | Empty and missing cells read as 0. Numeric cells read as their value. |
| Numeric.NatToDecimal | src/lib/fileProcessor.ts:51 | The decimal text of a natural number is non-empty and all digits. |
| Numeric.DigitsValueOfDecimal | src/lib/fileProcessor.ts:52 | Reading back the decimal text of n gives n. |
| Numeric.ParseNatRoundTrip | src/lib/fileProcessor.ts:52 | `parseFloat` of a natural number's decimal text gives the number. |
| Numeric.ParseFloatOfDigits | src/lib/fileProcessor.ts:52 | `parseFloat` of any non-empty run of digits gives its value. |
| Numeric.ParseFloatNaN | src/lib/fileProcessor.ts:52-53 | `parseFloat` gives NaN exactly when no digit stands before or after an optional point, after an optional sign. |
| Numeric.SafeFloatOfDigitFreeText | src/lib/fileProcessor.ts:49-54 | A text without digits reads as 0, which is the NaN branch. |
| Numeric.SafeFloatReadsDecorated | src/lib/fileProcessor.ts:49-54 | A number decorated with `$`, `,` or `%` reads as the number. |
| Numeric.NormalizePercentage | src/lib/fileProcessor.ts:60-69 | Values strictly between 0 and 1 are multiplied by 100 and all others are kept, whatever the flag. |
| Numeric.NormalizeIgnoresFlag | src/lib/fileProcessor.ts:60-69 | Both settings of `needsMultiplication` give the same result. |
| Numeric.NormalizeTwice | src/lib/fileProcessor.ts:60-69 | Normalising twice is normalising once, except for values in (0, 0.01), which are scaled twice. |
| Numeric.NormalizeZero | src/lib/fileProcessor.ts:60-69 | Normalisation keeps zero and the sign: the result is 0 exactly when the input is, and positive exactly when the input is. |
| Names.NormalizeName | src/lib/fileProcessor.ts:15-18 | A home-brand name becomes the fixed display name. Any other name is trimmed and stays a non-home name. Being the home brand is kept. |
| Names.NormalizeNameIdempotent | src/lib/fileProcessor.ts:15-18 | Normalising a normalised name changes nothing. |
| Names.DisplayNameIsHomeBrand | src/lib/constants.ts:22-28 | The display name itself matches the home-brand patterns. |
| Names.TrimIdempotent | src/lib/fileProcessor.ts:17 | Trimming twice is trimming once. |
| Names.HomePatternsSolid | src/lib/constants.ts:22-26 | Each home-brand pattern is non-empty, has non-empty words, and contains no white space. |
| Names.TrimKeepsHomeBrand | src/lib/fileProcessor.ts:11-17 | Trimming a name does not change whether it is the home brand, pattern by pattern. |
| Names.StripExtension | src/lib/fileProcessor.ts:22 | A trailing `.xlsx` is removed, otherwise a trailing `.csv` or `.xls`, ignoring case; other names are kept. |
| Names.ApplyInOrderSnoc | src/lib/fileProcessor.ts:23-35 | The replacement chain applies its rules left to right. |
| Names.CleanedName | src/lib/fileProcessor.ts:21-39 | The cleaned name is empty, or it is trimmed with single plain spaces. |
| Names.DeriveMarketName | src/lib/fileProcessor.ts:20-47 | An empty cleaned name falls back to the file name. Otherwise the result is a well-formed title that equals the cleaned name up to case. A non-empty file name never gives an empty market name. |
| Names.TitledIsWellFormed | src/lib/fileProcessor.ts:42-44 | Title-casing a trimmed name with single spaces starts every word with a non-lower-case letter and changes no letter beyond its case. |
| FormatDetection.StripBOM | src/lib/fileProcessor.ts:182 | A leading U+FEFF is removed and nothing else is changed. |
| FormatDetection.CleanHeader | src/lib/fileProcessor.ts:182 | A cleaned header has no white space at either end. |
| FormatDetection.CleanHeaderIsTrim | src/lib/fileProcessor.ts:182 | Cleaning a header is trimming its text; BOM removal then changes nothing more, because U+FEFF is white space. |
| FormatDetection.CleanHeaders | src/lib/fileProcessor.ts:182 | Every header is cleaned in place. |
| FormatDetection.PatternsAreBlockedByBar | src/lib/fileProcessor.ts:73-78 | The three header patterns have non-empty words, and the two FH patterns never contain `\|`. |
| FormatDetection.DetectFormat | src/lib/fileProcessor.ts:71-82 | The result is ColumnType2 exactly when column I's header holds `mkt %`. It is FH exactly when that fails and some single header holds `market share ($)` or `market share (#)`. Otherwise it is unknown. |
| RowParsing.BrandAt | src/lib/fileProcessor.ts:85 | The brand cell is read as trimmed text. |
| RowParsing.DisplayNameOfBrand | src/lib/fileProcessor.ts:102 | A trimmed home-brand name becomes the display name. Any other trimmed name is kept and differs from the display name. |
| RowParsing.ParseFHRow | src/lib/fileProcessor.ts:84-115 | A row is dropped exactly when its brand is empty, or when both raw shares and the dollar volume are 0. Otherwise it gives the row's record. |
| RowParsing.FHRecordFields | src/lib/fileProcessor.ts:100-114 | An FH record keeps the brand as its original name. It is the home brand exactly when it carries the display name. Both shares are on the percent scale. The sale-to-list ratio is kept when strictly between 0 and 1, and otherwise divided by 100. |
| RowParsing.FHRowNamed | src/lib/fileProcessor.ts:100-113 | A parsed FH record has a non-empty, trimmed original name, and it is flagged as the home brand exactly when that name matches the home-brand patterns. |
| RowParsing.ParseFHRows | src/lib/fileProcessor.ts:193-195 | map-then-filter keeps at most one record per row, and every record has a trimmed, non-empty original name with the right home-brand flag. |
| RowParsing.ParseFHRowsAppend | src/lib/fileProcessor.ts:193-195 | Parsing distributes over concatenated row blocks. |
| RowParsing.CT2KeepsExactly | src/lib/fileProcessor.ts:127-139 | A ColumnType2 row is skipped exactly when its brand is empty, or when both its dollar share and its Mkt % are 0. With a positive total, any row with a brand and some volume is kept. |
| RowParsing.CT2RecordFields | src/lib/fileProcessor.ts:141-155 | A ColumnType2 record's dollar share is its volume's percentage of a positive total, or 0 when the total is not positive. Its unit share is the normalised Mkt %. Its percent change is 0, and its name follows the display-name rule. |
| RowParsing.CT2RanksConsecutive | src/lib/fileProcessor.ts:142 | The kept records are ranked 1, 2, 3, … in order. |
| RowParsing.TotalDollarVolumeStep | src/lib/fileProcessor.ts:121-124 | The first loop's running total grows by each row's column-D value. |
| RowParsing.CT2RecordsStep | src/lib/fileProcessor.ts:126-156 | The second loop's output after one more row, for each of its branches. |
| RowParsing.SumDollarVolume | src/lib/fileProcessor.ts:121-124 | The first loop computes the sum of column D over all rows. |
| RowParsing.ParseColumnType2Rows | src/lib/fileProcessor.ts:117-159 | The two loops compute the specified record list against the full total, ranked consecutively. |
| RowParsing.SumIsSharesAdded | src/lib/fileProcessor.ts:135-137 | The kept records' dollar shares add up to the shares of the rows with a brand. |
| RowParsing.CT2DollarSharesSum | src/lib/fileProcessor.ts:135-137 | With a positive total, the dollar shares sum to the branded rows' volume as a percentage of the total. |
| RowParsing.NamedVolumeAllBranded | src/lib/fileProcessor.ts:121-128 | When every row has a brand, the branded volume is the whole total. |
| RowParsing.CT2DollarSharesComplete | src/lib/fileProcessor.ts:121-137 | When every row has a brand and the total is positive, the dollar shares sum to exactly 100. |
| Ranking.Insert | src/lib/fileProcessor.ts:205 | Inserting into the sort adds exactly one element. |
| Ranking.InsertPermutes | src/lib/fileProcessor.ts:205 | Insertion adds the element and loses none. |
| Ranking.InsertSorted | src/lib/fileProcessor.ts:205 | Insertion keeps a descending list descending. |
| Ranking.SortDescSorted | src/lib/fileProcessor.ts:205 | `sort((a, b) => key(b) - key(a))` orders by descending key. |
| Ranking.SortDescPermutes | src/lib/fileProcessor.ts:205 | The sort is a permutation of its input. |
| Ranking.SortDescStable | src/lib/fileProcessor.ts:205 | The sort is stable: records with equal keys keep their input order. |
| Ranking.SortSortedIsIdentity | src/lib/fileProcessor.ts:217 | Sorting an already sorted list changes nothing, so the re-sort of the sorted records is their own order. |
| Ranking.SortDescHeadIsMax | src/lib/fileProcessor.ts:217-221 | The sort's head is an input element with the largest key. |
| Ranking.SortDescHeadIsFirstOfItsShare | src/lib/fileProcessor.ts:217-221 | Among ties for the largest key, the head is the one that came first. |
| Ranking.FirstMax | src/lib/fileProcessor.ts:218-221 | The position of the first element with the largest key. |
| Ranking.SortDescHeadIsFirstMax | src/lib/fileProcessor.ts:218-221 | The sort's head is exactly the first element with the largest key. |
| Ranking.Ranked | src/lib/fileProcessor.ts:208 | Ranks become 1..n by position and nothing else in a record changes. |
| Ranking.RankedKeepsOrder | src/lib/fileProcessor.ts:204-208 | Re-ranking keeps the records in descending order and keeps their shares. |
| Ranking.ReassignRanks | src/lib/fileProcessor.ts:208 | The in-place `forEach` loop leaves the array re-ranked. |
| FileProcessor.CreateErrorResult | src/lib/fileProcessor.ts:267-285 | An error record carries the one message, the given id, names and time. It is never usable. |
| FileProcessor.FindHome | src/lib/fileProcessor.ts:211 | None exactly when no record is the home brand. Otherwise it gives the first home record. |
| FileProcessor.AvailableViews | src/lib/fileProcessor.ts:223-225 | Dollar is offered exactly when the home brand leads by dollars, and units exactly when it leads by units. Dollar comes first. |
| FileProcessor.StatusOf | src/lib/fileProcessor.ts:256 | The status is error exactly when there are errors, and ready exactly when there are neither errors nor warnings. |
| FileProcessor.Failure | src/lib/fileProcessor.ts:177-202 | No failure means the sheet decoded, has a data row, has a known format, and parses to some records. |
| FileProcessor.ShareWarningsStep | src/lib/fileProcessor.ts:232-239 | The share warnings grow record by record. |
| FileProcessor.RankByDollar | src/lib/fileProcessor.ts:204-208 | The records are sorted by dollar share and re-ranked. |
| FileProcessor.ValidateShares | src/lib/fileProcessor.ts:231-239 | The validation loop appends exactly the share warnings. |
| FileProcessor.Summarise | src/lib/fileProcessor.ts:204-260 | The steps after parsing assemble the specified report. |
| FileProcessor.ProcessFile | src/lib/fileProcessor.ts:161-265 | `processFile` returns the specified outcome for the decoded sheet. |
| FileProcessor.OutcomeErrors | src/lib/fileProcessor.ts:177-202 | The outcome is an error exactly when there is a failure, exactly when it has errors. A failure gives an error record with that one message. |
| FileProcessor.FailureMessages | src/lib/fileProcessor.ts:177-202 | Each early exit carries its own message, and a thrown exception without a message reads "Unknown error processing file". |
| FileProcessor.RankByDollarKeepsRecords | src/lib/fileProcessor.ts:204-208 | Sorting and re-ranking keep every record and both totals. The result is descending and ranked 1..n. |
| FileProcessor.ViewsFollowTheLeader | src/lib/fileProcessor.ts:216-225 | The dollar view is offered exactly when the top dollar record is the home brand. The units view is offered exactly when the first record with the largest unit share is. The flags agree with the views. |
| FileProcessor.ReadyIsUsable | src/lib/fileProcessor.ts:210-256 | A ready report is usable, holds the home record, and has every share at most 100. |
| FileProcessor.WarningsExplainStatus | src/lib/fileProcessor.ts:210-256 | A parsed report has no errors. It is ready exactly when it has no warnings. It warns of a missing home brand exactly when there is none, and of no view exactly when no view is offered. |
| FileProcessor.LeadWarningsMembers | src/lib/fileProcessor.ts:212-229 | Each leading warning is present exactly under its condition. |
| FileProcessor.WarningsFlagShares | src/lib/fileProcessor.ts:232-239 | Every share above 100 is reported by name and value. |
| FileProcessor.ShareWarningsExactly | src/lib/fileProcessor.ts:232-239 | Each share above 100 has its warning, and the validation step adds nothing else. |
| FileProcessor.ShareWarningsEmpty | src/lib/fileProcessor.ts:232-239 | There is no share warning exactly when every share is at most 100. |
| FileProcessor.SumInsert | src/lib/fileProcessor.ts:241-242 | Inserting into the sort adds the element's value to a sum. |
| FileProcessor.SumSortDesc | src/lib/fileProcessor.ts:241-242 | Sorting does not change a total. |
| MarketStore.ReadyOf | src/store/marketStore.ts:175-177 | The ready markets are exactly the usable ones: not an error, with some view. |
| MarketStore.ReadyOfAppend | src/store/marketStore.ts:175-177 | Filtering distributes over appended markets. |
| MarketStore.UsableIds | src/store/marketStore.ts:138-140 | The ids of exactly the usable markets. |
| MarketStore.UsableIdsStep | src/store/marketStore.ts:84-88 | The `forEach` adds a result's id exactly when that result is usable. |
| MarketStore.UsableIdsAppend | src/store/marketStore.ts:82-88 | The usable ids of appended lists are the union. |
| MarketStore.Without | src/store/marketStore.ts:110 | Removing by id never lengthens the list. |
| MarketStore.WithoutMembers | src/store/marketStore.ts:110 | Removing by id keeps exactly the markets with other ids. |
| MarketStore.WithoutAppend | src/store/marketStore.ts:110 | Removal distributes over appended lists. |
| MarketStore.WithoutAbsent | src/store/marketStore.ts:110 | Removing an id no market has changes nothing. |
| MarketStore.SelectedOf | src/store/marketStore.ts:170-173 | The selected markets are exactly those whose ids are selected, in list order. |
| MarketStore.SelectedOfAppend | src/store/marketStore.ts:170-173 | Selecting from appended lists gives the two selections appended, so the order of the list is kept. |
| MarketStore.SelectedOfOne | src/store/marketStore.ts:170-173 | A single market is selected exactly when its id is selected. |
| MarketStore.FindById | src/store/marketStore.ts:181 | None exactly when no market has the id. Otherwise the first market in list order with the id. |
| MarketStore.FirstOtherId | src/store/marketStore.ts:113 | None exactly when every market has the removed id. Otherwise the id of the first market, in list order, whose id differs. |
| MarketStore.FirstNonErrorId | src/store/marketStore.ts:92 | None exactly when every result is an error. Otherwise the id of the first result, in list order, that is not an error. |
| MarketStore.TitleOption | src/store/marketStore.ts:103 | An empty title clears the custom title. |
| MarketStore.Retitled | src/store/marketStore.ts:102-104 | Only markets with the id get the new title. Others are untouched and the length is kept. |
| MarketStore.Toggled | src/store/marketStore.ts:128-136 | Toggling flips only that id. |
| MarketStore.ToggleTwice | src/store/marketStore.ts:128-136 | Toggling twice restores the selection. |
| MarketStore.Navigated | src/store/marketStore.ts:157-162 | Next wraps past the last index to 0, and previous wraps before 0 to the last. |
| MarketStore.NavigationStaysAndReturns | src/store/marketStore.ts:153-164 | From a valid index, navigation stays in range, and next and previous undo each other. |
| MarketStore.At | src/store/marketStore.ts:187 | `readyMarkets[i] ?? null`: a value exactly for an index in range. |
| MarketStore.NavigationKeepsPreview | src/store/marketStore.ts:153-188 | After navigating, there is always a preview market. |
| MarketStore.SelectUsable | src/store/marketStore.ts:83-88 | The loop adds exactly the usable results' ids to the selection. |
| MarketStore.Store.constructor | src/store/marketStore.ts:59-75 | The initial state. |
| MarketStore.Store.AddResults | src/store/marketStore.ts:77-98 | Results are appended and the usable ones selected. The current market is kept, or else becomes the first result that is not an error. Processing ends and the settings are unchanged. |
| MarketStore.Store.SetDateRange | src/store/marketStore.ts:100 | Both date texts are replaced and nothing else changes. |
| MarketStore.Store.UpdateMarketTitle | src/store/marketStore.ts:102-104 | The markets are retitled and nothing else changes. |
| MarketStore.Store.RemoveMarket | src/store/marketStore.ts:106-116 | The market is dropped and deselected. The current market moves to another id only if it was the removed one. |
| MarketStore.Store.ClearAll | src/store/marketStore.ts:118-124 | Markets, selection and preview are reset; the settings are kept. |
| MarketStore.Store.ToggleSelected | src/store/marketStore.ts:128-136 | Only the selection changes, by one toggle. |
| MarketStore.Store.SelectAll | src/store/marketStore.ts:138-140 | The selection becomes exactly the usable markets' ids. |
| MarketStore.Store.DeselectAll | src/store/marketStore.ts:142 | The selection becomes empty. |
| MarketStore.Store.OpenPreview | src/store/marketStore.ts:150 | The preview opens at the given index. |
| MarketStore.Store.ClosePreview | src/store/marketStore.ts:151 | The preview closes and keeps its index. |
| MarketStore.Store.SetSelectedMarket | src/store/marketStore.ts:126 | Only the current market changes. |
| MarketStore.Store.SetShareType | src/store/marketStore.ts:144 | Only the share type changes. |
| MarketStore.Store.SetVisualization | src/store/marketStore.ts:145 | Only the visualisation changes. |
| MarketStore.Store.SetExportFormat | src/store/marketStore.ts:166 | Only the export format changes. |
| MarketStore.Store.NavigatePreview | src/store/marketStore.ts:153-164 | The index moves with wrap-around over the ready markets. With none ready, nothing changes. |
| MarketStore.Store.SelectedMarkets | src/store/marketStore.ts:170-173 | The markets whose ids are selected, in list order (`SelectedOf`), and membership holds exactly for those. |
| MarketStore.Store.ReadyMarkets | src/store/marketStore.ts:175-177 | The usable markets, in list order (`ReadyOf`). |
| MarketStore.Store.CurrentMarket | src/store/marketStore.ts:179-182 | None exactly when there is no current id or no market has it. Otherwise the first market in list order with that id. |
| MarketStore.Store.PreviewMarket | src/store/marketStore.ts:184-188 | A value exactly when the index is within the ready markets. The value is the ready market at that index, so it is usable. |
| SummaryGenerator.FormatDollar | src/lib/summaryGenerator.ts:3-8 | Chooses B, M, K or no unit by the thresholds 1e9, 1e6 and 1e3, with 2, 1 and 0 decimals. The mantissa times the unit is the value, and it lies in [1, 1000) for K and M. |
| SummaryGenerator.FirstRivalAt | src/lib/summaryGenerator.ts:30 | Every record before the position is the home brand, and the record at it is not. |
| SummaryGenerator.FirstRival | src/lib/summaryGenerator.ts:30 | None exactly when every record is the home brand. Otherwise the first record, in list order, that is not. |
| SummaryGenerator.CollectMetrics | src/lib/summaryGenerator.ts:55-64 | The metric loop builds the specified items. |
| SummaryGenerator.OpeningParts | src/lib/summaryGenerator.ts:37-52 | The opening built by `+=` is the specified opening sentence. |
| SummaryGenerator.GenerateExecutiveSummary | src/lib/summaryGenerator.ts:14-78 | The summary is the specified text. |
| SummaryGenerator.MissingHomeBrand | src/lib/summaryGenerator.ts:16-18 | Without the home brand, the not-found sentence naming the market. |
| SummaryGenerator.SentencesPresent | src/lib/summaryGenerator.ts:37-75 | The opening always comes first. The metrics sentence appears exactly when some metric is positive. The transactions sentence appears last exactly when total sales are positive. |
| SummaryGenerator.MetricsInOrder | src/lib/summaryGenerator.ts:55-64 | One item per positive metric, in the order price, days, price per square foot. |
| SummaryGenerator.JoinStartsWithFirst | src/lib/summaryGenerator.ts:77 | A joined text starts with its first part. |
| SummaryGenerator.JoinLength | src/lib/summaryGenerator.ts:67 | Joining n parts adds n − 1 separators. |
| SummaryGenerator.SummaryOpens | src/lib/summaryGenerator.ts:40-77 | With the home brand, the summary starts with the opening sentence. |
| SummaryGenerator.RivalIsOther | src/lib/summaryGenerator.ts:24-30 | The rival is a record that is not the home brand, and there is none exactly when all records are the home brand. |
| SummaryGenerator.FirstRivalOfSorted | src/lib/summaryGenerator.ts:24-30 | In a descending list, the first non-home record has the largest share among non-home records. |
| SummaryGenerator.RivalIsBest | src/lib/summaryGenerator.ts:24-35 | The rival has the largest share of any non-home record. |
| SummaryGenerator.SortedHasSameMembers | src/lib/summaryGenerator.ts:24 | A permutation has the same members. |
| SummaryGenerator.OpeningShape | src/lib/summaryGenerator.ts:40-46 | The opening starts with the share sentence. The dollar note follows exactly for the dollar view with positive volume. |
| SummaryGenerator.OpeningEnds | src/lib/summaryGenerator.ts:48-52 | The opening ends "… percentage points." naming the rival and the gap exactly when the home brand is ahead. Otherwise it ends with a full stop. |
| DateRangePicker.DaysInMonth | src/components/controls/DateRangePicker.tsx:11-13 | Between 28 and 31 days. It is 29 exactly for February of a leap year. |
| DateRangePicker.BeforeIsStrictTotalOrder | src/components/controls/DateRangePicker.tsx:33-35 | Date comparison is a strict total order. |
| DateRangePicker.PrevMonth | src/components/controls/DateRangePicker.tsx:92-95 | January steps back to December of the previous year; other months step back by one. |
| DateRangePicker.NextMonth | src/components/controls/DateRangePicker.tsx:96-99 | December steps on to January of the next year; other months step on by one. |
| DateRangePicker.MonthStepsAreInverse | src/components/controls/DateRangePicker.tsx:92-99 | The steps stay in 0..11, move by exactly one month, and undo each other. |
| DateRangePicker.FullYear | src/components/controls/DateRangePicker.tsx:26 | Years 0..99 mean 1900..1999, as the Date constructor reads them. |
| DateRangePicker.Rollover | src/components/controls/DateRangePicker.tsx:12 | A valid day is kept. Day 0 is the previous month's last day. A day past the month's end lands in a later month. The result is always a valid date. |
| DateRangePicker.MakeDate | src/components/controls/DateRangePicker.tsx:26 | The Date constructor always gives a valid date, and valid fields come out unchanged. |
| DateRangePicker.PadTwo | src/components/controls/DateRangePicker.tsx:20 | `padStart(2, '0')` gives two digits below 100. |
| DateRangePicker.PadTwoValue | src/components/controls/DateRangePicker.tsx:20 | The padded digits read back as the number. |
| DateRangePicker.YearText | src/components/controls/DateRangePicker.tsx:20 | The year's decimal text, with a sign for negative years. |
| DateRangePicker.ToDateStr | src/components/controls/DateRangePicker.tsx:19-21 | `MM/DD/` followed by the year, with the month 1-based. |
| DateRangePicker.ParseDate | src/components/controls/DateRangePicker.tsx:23-27 | A date exactly for texts of the shape `DD/DD/DDDD`, and always a valid one. |
| DateRangePicker.ParseDateOfToDateStr | src/components/controls/DateRangePicker.tsx:19-27 | Parsing a printed date with a four-digit year gives the date back. |
| DateRangePicker.ToDateStrShape | src/components/controls/DateRangePicker.tsx:19-27 | A printed date is parseable exactly when its year has four digits. |
| DateRangePicker.TwoDigitYearsAreTwentiethCentury | src/components/controls/DateRangePicker.tsx:26 | A year text below 100, such as `0024`, parses into the 1900s. |
| DateRangePicker.ConstructorNormalises | src/components/controls/DateRangePicker.tsx:26 | The constructor's rollover on concrete dates: 30 February, day 0, month 12, and a two-digit year. |
| DateRangePicker.ConstructorCarries | src/components/controls/DateRangePicker.tsx:26 | The rollover on more concrete dates: 99 January 2025 is 9 April 2025, and month -1 of 2025 is December 2024. |
| DateRangePicker.SameDay | src/components/controls/DateRangePicker.tsx:29-31 | The same day exactly when neither date is before the other. |
| DateRangePicker.InRange | src/components/controls/DateRangePicker.tsx:33-36 | True only with both bounds set, the start before the end, and the day strictly between them. |
| DateRangePicker.InRangeExcludesBounds | src/components/controls/DateRangePicker.tsx:33-36 | A missing bound or a day on a bound is out of range. A day strictly between the bounds is in range. |
| DateRangePicker.FirstWeekday | src/components/controls/DateRangePicker.tsx:15-17 | A weekday in 0..6. |
| DateRangePicker.FirstWeekdayAnchors | src/components/controls/DateRangePicker.tsx:15-17 | The weekday on known dates: 1 January 1970 is a Thursday (4) and 1 January 2025 a Wednesday (3). |
| DateRangePicker.MonthCells | src/components/controls/DateRangePicker.tsx:242-247 | First-weekday blanks, then days 1..n of the month in order, each a valid date. |
| DateRangePicker.StoredText | src/components/controls/DateRangePicker.tsx:119-123 | An unset bound is stored as the empty text, and a set one never is. |
| DateRangePicker.DatePicker.constructor | src/components/controls/DateRangePicker.tsx:40-51 | Closed, selecting the start, viewing today's month, no bounds. |
| DateRangePicker.DatePicker.Open | src/components/controls/DateRangePicker.tsx:56-68 | Opening parses the stored texts into the bounds and selects the start. The view moves to the start's month, when there is a start. |
| DateRangePicker.DatePicker.Close | src/components/controls/DateRangePicker.tsx:70-90 | The panel closes and the working state (mode, bounds, view) is kept. |
| DateRangePicker.DatePicker.ChooseSelecting | src/components/controls/DateRangePicker.tsx:160-180 | The Start and End buttons set the click mode and change nothing else. |
| DateRangePicker.DatePicker.PrevMonthClick | src/components/controls/DateRangePicker.tsx:92-95 | The view moves back one month and nothing else changes. |
| DateRangePicker.DatePicker.NextMonthClick | src/components/controls/DateRangePicker.tsx:96-99 | The view moves on one month and nothing else changes. |
| DateRangePicker.DatePicker.HandleDayClick | src/components/controls/DateRangePicker.tsx:101-117 | A start click sets the start, clears an end on or before the new start, and moves to end mode. An end click before the start swaps the two, otherwise it sets the end, and goes back to start mode. Start never follows end. |
| DateRangePicker.DatePicker.Apply | src/components/controls/DateRangePicker.tsx:119-125 | The store receives the printed bounds, empty for unset ones, and the picker closes. The store's markets, selection, processing flag, preview and settings are unchanged. |
| DateRangePicker.DatePicker.Clear | src/components/controls/DateRangePicker.tsx:127-132 | The bounds and the store's texts are emptied and the picker closes. The store's markets, selection, processing flag, preview and settings are unchanged. |
| DateRangePicker.ReopenRestoresRange | src/components/controls/DateRangePicker.tsx:56-68 | Applying and then reopening restores the same bounds, for years 1000..9999. |

## Left out

**Inputs and the runtime**
- Decoding the workbook (`XLSX.read`, `sheet_to_json`) is not modelled. `ProcessFile` receives the decoded rows, or the message of the exception thrown while reading.
- The id (`generateId`) and the clock (`Date.now()`, `new Date()` for today) are parameters.
- `processFiles`, the `Promise.all` over `processFile`, is not modelled. `AddResults` receives its results. Because of this, the asynchrony of `addFiles` is not modelled: `isProcessing` is true only while the results are being awaited, and the model does not represent that interval.

**Numbers**
- Numbers are mathematical reals. Binary floating point, the rounding of `toFixed`, `toLocaleString` and `Math.round` are not modelled; printed numbers stay symbolic.
- `parseFloat` forms with an exponent, `Infinity`, or leading white space are not read. `SafeFloat` of a numeric cell takes its value directly.
- Numeric.ParseFloatPrefix: states no contract of its own. Its behaviour is stated by `ParseFloatNaN`, `ParseFloatOfDigits` and `ParseNatRoundTrip`.

**Text**
- Case-insensitive matching and the upper-casing in titles are ASCII only. Unicode case folding is not modelled.
- White space (`\s`, `trim`) is the ECMAScript set, except that of the Unicode space separators only U+0020 and U+00A0 are included.

**Dates**
- JavaScript Dates are modelled as (year, month, day) triples in the local calendar. Time of day, time zones and daylight-saving time are not modelled. `day > start` compares calendar days.
- `getDay` is computed from a Gregorian days-from-civil formula.
- DateRangePicker.MakeDate: takes only non-negative days, which is all `parseDate` can produce. It also does not bound the year, whereas a JavaScript Date is limited to ±100,000,000 days around 1970.

**Interface**
- The picker's hover preview and all rendering are not modelled. The event listeners behind the outside click and Escape are not modelled either; their effect is `DatePicker.Close`.
- The store's `showKPI`, `showSummary`, `pageTheme`, `isExporting` and `exportProgress` fields and their setters are not modelled. They are plain flags, read only by UI and export code that is not part of this model.

**FH column layout**
- The FH column positions follow `src/lib/constants.ts:45-57`: average price at 14, sale-to-list ratio at 15, days on market at 16, price per square foot at 17.
