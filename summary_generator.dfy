/**
 * The executive summary of src/lib/summaryGenerator.ts. Numbers inside the
 * text stay symbolic: a piece of text is either literal characters or a
 * number together with the way it is printed.
 */
module SummaryGenerator {
  import opened Wrappers
  import opened Types
  import opened Ranking

  /** How a number is printed. */
  datatype Printed =
    | Fixed(value: real, digits: nat)   // `value.toFixed(digits)`
    | Whole(value: real)                // `${Math.round(value)}`
    | Grouped(value: real)              // `formatNumber(Math.round(value))`, with thousands separators

  /** The fixed phrases of the summary; `Chars` gives each one's characters. */
  datatype Phrase =
    | MarketDataFor | HasBeenProcessed | HomeBrand | NotFoundInData
    | Commands | PercentOfThe | MarketBy | DollarVolumeLabel | UnitsSoldLabel
    | OpenParen | CloseParen | Leading | By | PercentagePoints | FullStop
    | DollarSign | Billions | Millions | Thousands
    | AveragePriceOf | AverageDays | PerSqFt | With | PremiumPosition
    | Across | TotalTransactions | Area | Comma | Space

  function Chars(p: Phrase): string
  {
    match p
    case MarketDataFor => "Market data for "
    case HasBeenProcessed => " has been processed. "
    case HomeBrand => "Russ Lyon Sotheby's International Realty"
    case NotFoundInData => " was not found in this dataset."
    case Commands => " commands "
    case PercentOfThe => "% of the "
    case MarketBy => " market by "
    case DollarVolumeLabel => "dollar volume"
    case UnitsSoldLabel => "units sold"
    case OpenParen => " ("
    case CloseParen => ")"
    case Leading => ", leading "
    case By => " by "
    case PercentagePoints => " percentage points."
    case FullStop => "."
    case DollarSign => "$"
    case Billions => "B"
    case Millions => "M"
    case Thousands => "K"
    case AveragePriceOf => "an average sale price of "
    case AverageDays => " average days on market"
    case PerSqFt => "/sqft"
    case With => "With "
    case PremiumPosition => ", RLSIR maintains a premium market position among the top brokerages."
    case Across => "Across "
    case TotalTransactions => " total transactions, the firm demonstrates consistent market leadership in the "
    case Area => " area."
    case Comma => ", "
    case Space => " "
  }

  /** A piece of text: a fixed phrase, a name taken from the data, or a printed number. */
  datatype Piece = Lit(phrase: Phrase) | Name(chars: string) | Num(number: Printed)

  type Text = seq<Piece>

  datatype Unit = Ones | K | M | B

  /** The factor each unit letter stands for. */
  function UnitValue(u: Unit): real
  {
    match u
    case B => 1_000_000_000.0
    case M => 1_000_000.0
    case K => 1_000.0
    case Ones => 1.0
  }

  /** A dollar amount as `formatDollar` prints it: `$`, the mantissa to `digits` places, the unit letter. */
  datatype DollarAmount = DollarAmount(mantissa: real, digits: nat, unit: Unit)

  /**
   * `formatDollar`: the largest unit of B, M and K the amount reaches, the
   * amount divided by it, and 2, 1 or 0 decimals.
   */
  function FormatDollar(val: real): (d: DollarAmount)
    ensures d.mantissa * UnitValue(d.unit) == val
    ensures d.unit == B <==> val >= 1_000_000_000.0
    ensures d.unit == M <==> 1_000_000.0 <= val < 1_000_000_000.0
    ensures d.unit == K <==> 1_000.0 <= val < 1_000_000.0
    ensures d.unit == Ones <==> val < 1_000.0
    ensures d.digits == (if d.unit == B then 2 else if d.unit == M then 1 else 0)
    ensures d.unit != Ones ==> d.mantissa >= 1.0
    ensures d.unit != B ==> d.mantissa < 1_000.0
  {
    if val >= 1_000_000_000.0 then DollarAmount(val / 1_000_000_000.0, 2, B)
    else if val >= 1_000_000.0 then DollarAmount(val / 1_000_000.0, 1, M)
    else if val >= 1_000.0 then DollarAmount(val / 1_000.0, 0, K)
    else DollarAmount(val, 0, Ones)
  }

  function UnitLetter(u: Unit): Text
  {
    match u
    case B => [Lit(Billions)]
    case M => [Lit(Millions)]
    case K => [Lit(Thousands)]
    case Ones => []
  }

  function DollarText(val: real): Text
  {
    var d := FormatDollar(val);
    [Lit(DollarSign), Num(Fixed(d.mantissa, d.digits))] + UnitLetter(d.unit)
  }

  /** The whole summary when the home brand is not in the data. */
  function NotFound(marketName: string): Text
  {
    [Lit(MarketDataFor), Name(marketName), Lit(HasBeenProcessed), Lit(HomeBrand), Lit(NotFoundInData)]
  }

  function ShareLabel(t: ShareType): Phrase
  {
    if t == Dollar then DollarVolumeLabel else UnitsSoldLabel
  }

  /** The position of the first record that is not the home brand (`|bs|` when there is none). */
  function FirstRivalAt(bs: seq<Brokerage>): (i: nat)
    ensures i <= |bs|
    ensures forall j :: 0 <= j < i ==> bs[j].isSothebys
    ensures i < |bs| ==> !bs[i].isSothebys
  {
    if bs == [] || !bs[0].isSothebys then 0 else 1 + FirstRivalAt(bs[1..])
  }

  /** `sorted.find(b => !b.isSothebys)`: the first record that is not the home brand. */
  function FirstRival(bs: seq<Brokerage>): (r: Option<Brokerage>)
    ensures r.None? <==> forall b :: b in bs ==> b.isSothebys
    ensures r.Some? ==> r.value in bs && !r.value.isSothebys
    ensures r.Some? ==> exists i :: 0 <= i < |bs| && bs[i] == r.value && forall j :: 0 <= j < i ==> bs[j].isSothebys
  {
    var i := FirstRivalAt(bs);
    if i < |bs| then Some(bs[i]) else None
  }

  /** The runner-up: the first record that is not the home brand once all are sorted by the share type, largest first. */
  function Rival(bs: seq<Brokerage>, t: ShareType): Option<Brokerage>
  {
    FirstRival(SortDesc(bs, ShareKey(t)))
  }

  /** `second ? home share − runner-up share : 0`. */
  function Gap(home: Brokerage, rival: Option<Brokerage>, t: ShareType): real
  {
    if rival.Some? then Share(t, home) - Share(t, rival.value) else 0.0
  }

  /** The opening sentence before its optional parts. */
  function OpeningHead(home: Brokerage, marketName: string, t: ShareType): Text
  {
    [Lit(HomeBrand), Lit(Commands), Num(Fixed(Share(t, home), 1)), Lit(PercentOfThe),
     Name(marketName), Lit(MarketBy), Lit(ShareLabel(t))]
  }

  function VolumeNote(home: Brokerage, t: ShareType): Text
  {
    if t == Dollar && home.dollarVolume > 0.0 then [Lit(OpenParen)] + DollarText(home.dollarVolume) + [Lit(CloseParen)] else []
  }

  function LeadingClause(rival: Brokerage, gap: real): Text
  {
    [Lit(Leading), Name(rival.name), Lit(By), Num(Fixed(gap, 1)), Lit(PercentagePoints)]
  }

  function OpeningEnd(rival: Option<Brokerage>, gap: real): Text
  {
    if rival.Some? && gap > 0.0 then LeadingClause(rival.value, gap) else [Lit(FullStop)]
  }

  function Opening(data: MarketData, home: Brokerage, t: ShareType): Text
  {
    var rival := Rival(data.brokerages, t);
    OpeningHead(home, data.marketName, t) + VolumeNote(home, t) + OpeningEnd(rival, Gap(home, rival, t))
  }

  function AvgPriceItem(home: Brokerage): Text { [Lit(AveragePriceOf)] + DollarText(home.avgPrice) }

  function DaysItem(home: Brokerage): Text { [Num(Whole(home.daysOnMarket)), Lit(AverageDays)] }

  function PriceSqFtItem(home: Brokerage): Text { DollarText(home.pricePerSqFt) + [Lit(PerSqFt)] }

  /** The performance metrics with a positive value, in the order average price, days on market, price per square foot. */
  function Metrics(home: Brokerage): seq<Text>
  {
    (if home.avgPrice > 0.0 then [AvgPriceItem(home)] else []) +
    (if home.daysOnMarket > 0.0 then [DaysItem(home)] else []) +
    (if home.pricePerSqFt > 0.0 then [PriceSqFtItem(home)] else [])
  }

  /** `items.join(sep)`. */
  function Join(items: seq<Text>, sep: Phrase): Text
  {
    if |items| == 0 then []
    else if |items| == 1 then items[0]
    else Join(items[..|items| - 1], sep) + [Lit(sep)] + items[|items| - 1]
  }

  function MetricsSentence(metrics: seq<Text>): Text
  {
    [Lit(With)] + Join(metrics, Comma) + [Lit(PremiumPosition)]
  }

  function TransactionsSentence(home: Brokerage, marketName: string): Text
  {
    [Lit(Across), Num(Grouped(home.totalSales)), Lit(TotalTransactions), Name(marketName), Lit(Area)]
  }

  /** The sentences of the summary of a market whose home-brand record is `home`. */
  function Sentences(data: MarketData, home: Brokerage, t: ShareType): seq<Text>
  {
    var metrics := Metrics(home);
    [Opening(data, home, t)] +
    (if |metrics| > 0 then [MetricsSentence(metrics)] else []) +
    (if home.totalSales > 0.0 then [TransactionsSentence(home, data.marketName)] else [])
  }

  /** The summary `generateExecutiveSummary` returns. */
  function Summary(data: MarketData, t: ShareType): Text
  {
    match data.sothebysData
    case None => NotFound(data.marketName)
    case Some(home) => Join(Sentences(data, home, t), Space)
  }

  /** The `metrics` list of `generateExecutiveSummary`, pushed item by item. */
  method CollectMetrics(sothebys: Brokerage) returns (metrics: seq<Text>)
    ensures metrics == Metrics(sothebys)
  {
    metrics := [];
    if sothebys.avgPrice > 0.0 {
      metrics := metrics + [AvgPriceItem(sothebys)];
    }
    if sothebys.daysOnMarket > 0.0 {
      metrics := metrics + [DaysItem(sothebys)];
    }
    if sothebys.pricePerSqFt > 0.0 {
      metrics := metrics + [PriceSqFtItem(sothebys)];
    }
  }

  /** The first entry of `parts`: the opening pushed, then extended in place by the volume note and the ending. */
  method OpeningParts(data: MarketData, sothebys: Brokerage, shareType: ShareType) returns (parts: seq<Text>)
    ensures parts == [Opening(data, sothebys, shareType)]
  {
    var sorted := SortDesc(data.brokerages, ShareKey(shareType));
    var second := FirstRival(sorted);
    var gap := if second.Some? then Share(shareType, sothebys) - Share(shareType, second.value) else 0.0;

    var head := OpeningHead(sothebys, data.marketName, shareType);
    parts := [];
    parts := parts + [head];
    if shareType == Dollar && sothebys.dollarVolume > 0.0 {
      parts := parts[0 := parts[0] + ([Lit(OpenParen)] + DollarText(sothebys.dollarVolume) + [Lit(CloseParen)])];
    } else {
      assert head + VolumeNote(sothebys, shareType) == head;
    }
    assert parts == [head + VolumeNote(sothebys, shareType)];
    if second.Some? && gap > 0.0 {
      parts := parts[0 := parts[0] + LeadingClause(second.value, gap)];
    } else {
      parts := parts[0 := parts[0] + [Lit(FullStop)]];
    }
  }

  /** `generateExecutiveSummary`: the opening is pushed and then extended in place, the other sentences pushed after it. */
  method GenerateExecutiveSummary(data: MarketData, shareType: ShareType) returns (summary: Text)
    ensures summary == Summary(data, shareType)
  {
    if data.sothebysData.None? {
      return NotFound(data.marketName);
    }
    var sothebys := data.sothebysData.value;

    var parts := OpeningParts(data, sothebys, shareType);

    var metrics := CollectMetrics(sothebys);
    var withMetrics := if |metrics| > 0 then [MetricsSentence(metrics)] else [];
    if |metrics| > 0 {
      parts := parts + [MetricsSentence(metrics)];
    }
    assert parts == [Opening(data, sothebys, shareType)] + withMetrics;
    var withSales := if sothebys.totalSales > 0.0 then [TransactionsSentence(sothebys, data.marketName)] else [];
    if sothebys.totalSales > 0.0 {
      parts := parts + [TransactionsSentence(sothebys, data.marketName)];
    }
    assert parts == [Opening(data, sothebys, shareType)] + withMetrics + withSales;
    summary := Join(parts, Space);
  }

  // ---------------------------------------------------------------------
  // Properties of the summary

  /** Without the home brand, the summary is the one fixed sentence naming the market. */
  lemma MissingHomeBrand(data: MarketData, t: ShareType)
    requires data.sothebysData.None?
    ensures Summary(data, t) == NotFound(data.marketName)
    ensures Name(data.marketName) in Summary(data, t)
  {
  }

  /**
   * With the home brand, the opening sentence comes first, followed by the
   * metrics sentence exactly when a metric is positive and the transactions
   * sentence exactly when there were sales.
   */
  lemma SentencesPresent(data: MarketData, home: Brokerage, t: ShareType)
    ensures var s := Sentences(data, home, t);
      var hasMetrics := home.avgPrice > 0.0 || home.daysOnMarket > 0.0 || home.pricePerSqFt > 0.0;
      && |s| == 1 + (if hasMetrics then 1 else 0) + (if home.totalSales > 0.0 then 1 else 0)
      && s[0] == Opening(data, home, t)
      && (hasMetrics ==> s[1] == MetricsSentence(Metrics(home)))
      && (home.totalSales > 0.0 ==> s[|s| - 1] == TransactionsSentence(home, data.marketName))
  {
    var hasMetrics := home.avgPrice > 0.0 || home.daysOnMarket > 0.0 || home.pricePerSqFt > 0.0;
    var metrics := Metrics(home);
    assert |metrics| > 0 <==> hasMetrics;
    var opening := [Opening(data, home, t)];
    var middle := if |metrics| > 0 then [MetricsSentence(metrics)] else [];
    var last := if home.totalSales > 0.0 then [TransactionsSentence(home, data.marketName)] else [];
    assert Sentences(data, home, t) == opening + middle + last;
  }

  /** The metrics are listed in the order price, days, price per square foot, each exactly when positive. */
  lemma MetricsInOrder(home: Brokerage)
    ensures var m := Metrics(home);
      && |m| == (if home.avgPrice > 0.0 then 1 else 0) + (if home.daysOnMarket > 0.0 then 1 else 0) +
                (if home.pricePerSqFt > 0.0 then 1 else 0)
      && (home.avgPrice > 0.0 ==> m[0] == AvgPriceItem(home))
      && (home.daysOnMarket > 0.0 ==> m[if home.avgPrice > 0.0 then 1 else 0] == DaysItem(home))
      && (home.pricePerSqFt > 0.0 ==> m[|m| - 1] == PriceSqFtItem(home))
  {
  }

  /** The first part of a join starts the joined text. */
  lemma {:induction false} JoinStartsWithFirst(items: seq<Text>, sep: Phrase)
    requires items != []
    ensures |Join(items, sep)| >= |items[0]| && Join(items, sep)[..|items[0]|] == items[0]
    decreases |items|
  {
    if |items| > 1 {
      var init := items[..|items| - 1];
      JoinStartsWithFirst(init, sep);
      assert init[0] == items[0];
      var j := Join(init, sep);
      assert Join(items, sep) == j + [Lit(sep)] + items[|items| - 1];
      assert (j + [Lit(sep)] + items[|items| - 1])[..|items[0]|] == j[..|items[0]|];
    }
  }

  function SumOfLengths(items: seq<Text>): nat
  {
    if items == [] then 0 else SumOfLengths(items[..|items| - 1]) + |items[|items| - 1]|
  }

  /** A join puts exactly one separator between neighbours: `k` parts give `k − 1` separators. */
  lemma {:induction false} JoinLength(items: seq<Text>, sep: Phrase)
    ensures |items| > 0 ==> |Join(items, sep)| == SumOfLengths(items) + |items| - 1
    decreases |items|
  {
    if |items| > 1 {
      JoinLength(items[..|items| - 1], sep);
    }
  }

  /** With the home brand the summary opens with the opening sentence. */
  lemma SummaryOpens(data: MarketData, t: ShareType)
    requires data.sothebysData.Some?
    ensures var opening := Opening(data, data.sothebysData.value, t);
      |Summary(data, t)| >= |opening| && Summary(data, t)[..|opening|] == opening
  {
    JoinStartsWithFirst(Sentences(data, data.sothebysData.value, t), Space);
  }

  /**
   * The runner-up is another brokerage of the market: none exists exactly
   * when every record is the home brand.
   */
  lemma RivalIsOther(bs: seq<Brokerage>, t: ShareType)
    ensures Rival(bs, t).None? <==> forall b :: b in bs ==> b.isSothebys
    ensures Rival(bs, t).Some? ==> Rival(bs, t).value in bs && !Rival(bs, t).value.isSothebys
  {
    SortDescPermutes(bs, ShareKey(t));
    SortedHasSameMembers(bs, SortDesc(bs, ShareKey(t)));
  }

  /** In a list sorted by share, the first record that is not the home brand has the largest share of those. */
  lemma FirstRivalOfSorted(sorted: seq<Brokerage>, t: ShareType)
    requires SortedDesc(sorted, ShareKey(t))
    ensures var i := FirstRivalAt(sorted);
      i < |sorted| ==> forall k :: 0 <= k < |sorted| && !sorted[k].isSothebys ==> Share(t, sorted[k]) <= Share(t, sorted[i])
  {
    var i := FirstRivalAt(sorted);
    forall k | 0 <= k < |sorted| && !sorted[k].isSothebys && i < |sorted|
      ensures Share(t, sorted[k]) <= Share(t, sorted[i])
    {
      if i < k {
        assert ShareKey(t)(sorted[i]) >= ShareKey(t)(sorted[k]);
      }
    }
  }

  /** The runner-up has the largest share, for the share type, of all the other brokerages. */
  lemma RivalIsBest(bs: seq<Brokerage>, t: ShareType)
    ensures Rival(bs, t).Some? ==> forall b :: b in bs && !b.isSothebys ==> Share(t, b) <= Share(t, Rival(bs, t).value)
  {
    var sorted := SortDesc(bs, ShareKey(t));
    SortDescPermutes(bs, ShareKey(t));
    SortedHasSameMembers(bs, sorted);
    SortDescSorted(bs, ShareKey(t));
    FirstRivalOfSorted(sorted, t);
    forall b | b in bs && !b.isSothebys && Rival(bs, t).Some?
      ensures Share(t, b) <= Share(t, Rival(bs, t).value)
    {
      var k :| 0 <= k < |sorted| && sorted[k] == b;
    }
  }

  lemma SortedHasSameMembers(bs: seq<Brokerage>, sorted: seq<Brokerage>)
    requires multiset(sorted) == multiset(bs)
    ensures forall b :: b in bs <==> b in sorted
  {
    forall b
      ensures b in bs <==> b in sorted
    {
      assert b in bs <==> b in multiset(bs);
      assert b in sorted <==> b in multiset(sorted);
    }
  }

  /**
   * The opening sentence starts with the fixed head, followed by the
   * dollar-volume note exactly for dollar share with a positive volume.
   */
  lemma OpeningShape(data: MarketData, home: Brokerage, t: ShareType)
    ensures var o := Opening(data, home, t);
      var n := |OpeningHead(home, data.marketName, t)|;
      && |o| > n && o[..n] == OpeningHead(home, data.marketName, t)
      && (o[n] == Lit(OpenParen) <==> t == Dollar && home.dollarVolume > 0.0)
  {
    var rival := Rival(data.brokerages, t);
    var head := OpeningHead(home, data.marketName, t);
    var note := VolumeNote(home, t);
    var tail := OpeningEnd(rival, Gap(home, rival, t));
    assert Opening(data, home, t) == head + note + tail;
    assert note != [] ==> note[0] == Lit(OpenParen);
    assert (head + note + tail)[..|head|] == head;
  }

  /**
   * The opening sentence ends with the clause naming the runner-up exactly
   * when one exists and the home brand's share is strictly larger (the name
   * and the gap in its fixed places), and with a full stop otherwise.
   */
  lemma OpeningEnds(data: MarketData, home: Brokerage, t: ShareType)
    ensures var rival := Rival(data.brokerages, t);
      var ahead := rival.Some? && Share(t, home) > Share(t, rival.value);
      var o := Opening(data, home, t);
      && (o[|o| - 1] == Lit(PercentagePoints) <==> ahead)
      && (o[|o| - 1] == Lit(FullStop) <==> !ahead)
      && (ahead ==> o[|o| - 4] == Name(rival.value.name) && o[|o| - 2] == Num(Fixed(Share(t, home) - Share(t, rival.value), 1)))
  {
    var rival := Rival(data.brokerages, t);
    var head := OpeningHead(home, data.marketName, t);
    var note := VolumeNote(home, t);
    var tail := OpeningEnd(rival, Gap(home, rival, t));
    var o := head + note + tail;
    assert Opening(data, home, t) == o;
    assert o[|o| - 1] == tail[|tail| - 1];
    if |tail| == 5 {
      assert o[|o| - 4] == tail[1] && o[|o| - 2] == tail[3];
    }
  }
}
