/**
 * The date-range picker: the `MM/DD/YYYY` print and parse helpers, the
 * day comparisons, the month grid, and the start/end selection state
 * machine whose result is written to the store's `dateStart`/`dateEnd`.
 *
 * A JavaScript `Date` here always holds a local calendar day at midnight,
 * so it is modelled as a normalised (year, 0-based month, day) triple; the
 * constructor `new Date(y, m, d)` becomes `MakeDate`, which performs the
 * same normalisation (years 0..99 mean 1900..1999, months and days roll
 * over into the neighbouring months and years).
 */
module DateRangePicker {
  import opened Wrappers
  import MarketStore
  import opened Numeric

  /** A calendar day; `month` is 0-based, as `Date.getMonth()` returns it. */
  datatype Date = Date(year: int, month: int, day: int)

  /** A month of a year, as the picker's `viewYear`/`viewMonth` pair. */
  datatype YearMonth = YearMonth(year: int, month: int)

  predicate IsLeapYear(year: int)
  {
    year % 4 == 0 && (year % 100 != 0 || year % 400 == 0)
  }

  /** The Gregorian length of a month (`getDaysInMonth`). */
  function DaysInMonth(year: int, month: int): (n: int)
    requires 0 <= month < 12
    ensures 28 <= n <= 31
    ensures n == 29 <==> month == 1 && IsLeapYear(year)
  {
    if month == 1 then (if IsLeapYear(year) then 29 else 28)
    else if month == 3 || month == 5 || month == 8 || month == 10 then 30
    else 31
  }

  /** A day that exists in the Gregorian calendar. */
  predicate ValidDate(d: Date)
  {
    0 <= d.month < 12 && 1 <= d.day <= DaysInMonth(d.year, d.month)
  }

  /** `a` is an earlier day than `b` (the `<` of two midnight `Date`s). */
  predicate Before(a: Date, b: Date)
  {
    a.year < b.year
    || (a.year == b.year && (a.month < b.month || (a.month == b.month && a.day < b.day)))
  }

  /** `Before` is a strict total order on days. */
  lemma BeforeIsStrictTotalOrder(a: Date, b: Date, c: Date)
    ensures !Before(a, a)
    ensures Before(a, b) && Before(b, c) ==> Before(a, c)
    ensures a == b || Before(a, b) || Before(b, a)
    ensures !(Before(a, b) && Before(b, a))
  {
  }

  // ----- month navigation -----

  /** `prevMonth`: January goes back to December of the previous year. */
  function PrevMonth(ym: YearMonth): (r: YearMonth)
    ensures ym.month == 0 ==> r == YearMonth(ym.year - 1, 11)
    ensures ym.month != 0 ==> r == YearMonth(ym.year, ym.month - 1)
  {
    if ym.month == 0 then YearMonth(ym.year - 1, 11) else YearMonth(ym.year, ym.month - 1)
  }

  /** `nextMonth`: December goes on to January of the next year. */
  function NextMonth(ym: YearMonth): (r: YearMonth)
    ensures ym.month == 11 ==> r == YearMonth(ym.year + 1, 0)
    ensures ym.month != 11 ==> r == YearMonth(ym.year, ym.month + 1)
  {
    if ym.month == 11 then YearMonth(ym.year + 1, 0) else YearMonth(ym.year, ym.month + 1)
  }

  /** Month numbering: `year * 12 + month` counts months from year 0. */
  function MonthIndex(ym: YearMonth): int
  {
    ym.year * 12 + ym.month
  }

  /**
   * On a month in 0..11 the two buttons step exactly one month back and
   * forward, stay within 0..11, and undo each other.
   */
  lemma MonthStepsAreInverse(ym: YearMonth)
    requires 0 <= ym.month < 12
    ensures 0 <= PrevMonth(ym).month < 12 && 0 <= NextMonth(ym).month < 12
    ensures MonthIndex(PrevMonth(ym)) == MonthIndex(ym) - 1
    ensures MonthIndex(NextMonth(ym)) == MonthIndex(ym) + 1
    ensures NextMonth(PrevMonth(ym)) == ym && PrevMonth(NextMonth(ym)) == ym
  {
  }

  // ----- the Date constructor -----

  /** `new Date(y, …)` reads a year 0..99 as 1900..1999. */
  function FullYear(year: int): (y: int)
    ensures 0 <= year <= 99 ==> y == 1900 + year
    ensures !(0 <= year <= 99) ==> y == year
  {
    if 0 <= year <= 99 then 1900 + year else year
  }

  /**
   * Day `day` counted from the start of month `month` of `year`: day 0 is
   * the last day of the previous month, days past the month's end run on
   * into the following months.
   */
  function Rollover(year: int, month: int, day: nat): (d: Date)
    requires 0 <= month < 12
    ensures ValidDate(d)
    ensures 1 <= day <= DaysInMonth(year, month) ==> d == Date(year, month, day)
    ensures day == 0 ==> YearMonth(d.year, d.month) == PrevMonth(YearMonth(year, month))
    ensures day == 0 ==> d.day == DaysInMonth(d.year, d.month)
    ensures day > DaysInMonth(year, month) ==> MonthIndex(YearMonth(d.year, d.month)) > MonthIndex(YearMonth(year, month))
    decreases day
  {
    if day == 0 then
      var p := PrevMonth(YearMonth(year, month));
      Date(p.year, p.month, DaysInMonth(p.year, p.month))
    else if day <= DaysInMonth(year, month) then
      Date(year, month, day)
    else
      var n := NextMonth(YearMonth(year, month));
      Rollover(n.year, n.month, day - DaysInMonth(year, month))
  }

  /**
   * `new Date(year, month, day)` for a non-negative day: the year is read
   * as `FullYear`, whole years are carried out of the month, and the day
   * rolls over; the result is always a real calendar day.
   */
  function MakeDate(year: int, month: int, day: nat): (d: Date)
    ensures ValidDate(d)
    ensures 0 <= month < 12 && 1 <= day <= DaysInMonth(FullYear(year), month) ==> d == Date(FullYear(year), month, day)
  {
    Rollover(FullYear(year) + month / 12, month % 12, day)
  }

  // ----- decimal text -----

  /** A number with k + 1 digits prints as k + 1 characters. */
  lemma {:induction false} DecimalLength(n: nat, k: nat)
    requires Pow10(k) <= n < 10 * Pow10(k)
    ensures |NatToDecimal(n)| == k + 1
  {
    if k > 0 {
      DecimalLength(n / 10, k - 1);
    }
  }

  /** `String(n).padStart(2, '0')`. */
  function PadTwo(n: nat): (s: string)
    ensures n < 100 ==> |s| == 2
    ensures forall i :: 0 <= i < |s| ==> IsDigit(s[i])
  {
    if n < 10 then ['0'] + NatToDecimal(n)
    else if n < 100 then DecimalLength(n, 1); NatToDecimal(n)
    else NatToDecimal(n)
  }

  /** Reading back a padded two-digit number gives the number. */
  lemma PadTwoValue(n: nat)
    requires n < 100
    ensures DigitsValue(PadTwo(n)) == n
  {
    if n < 10 {
      var t := NatToDecimal(n);
      DigitsValueOfDecimal(n);
      assert t[..0] == [];
      assert DigitValue(t[0]) == n;
      assert PadTwo(n)[..1] == ['0'];
    } else {
      DigitsValueOfDecimal(n);
      DecimalLength(n, 1);
    }
  }

  /** `String(year)`: a minus sign before the digits of a negative year. */
  function YearText(year: int): (s: string)
    ensures year >= 0 ==> s == NatToDecimal(year)
    ensures year < 0 ==> s == ['-'] + NatToDecimal(-year)
  {
    if year < 0 then ['-'] + NatToDecimal(-year) else NatToDecimal(year)
  }

  // ----- toDateStr and parseDate -----

  /** `toDateStr`: `MM/DD/YYYY` with month + 1 and day zero-padded; the year is printed as is. */
  function ToDateStr(d: Date): (s: string)
    requires ValidDate(d)
    ensures |s| >= 7 && s[2] == '/' && s[5] == '/'
    ensures s[..2] == PadTwo(d.month + 1) && s[3..5] == PadTwo(d.day) && s[6..] == YearText(d.year)
  {
    PadTwo(d.month + 1) + ['/'] + PadTwo(d.day) + ['/'] + YearText(d.year)
  }

  /** The pattern `^(\d{2})\/(\d{2})\/(\d{4})$`. */
  predicate DateShaped(s: string)
  {
    |s| == 10 && s[2] == '/' && s[5] == '/'
    && IsDigit(s[0]) && IsDigit(s[1]) && IsDigit(s[3]) && IsDigit(s[4])
    && IsDigit(s[6]) && IsDigit(s[7]) && IsDigit(s[8]) && IsDigit(s[9])
  }

  /**
   * `parseDate`: only a `DD/DD/DDDD` string is accepted; its first field
   * is the 1-based month, the second the day and the third the year, and
   * they go through the `Date` constructor.
   */
  function ParseDate(s: string): (r: Option<Date>)
    ensures r.Some? <==> DateShaped(s)
    ensures r.Some? ==> ValidDate(r.value)
  {
    if DateShaped(s) then
      Some(MakeDate(DigitsValue(s[6..10]), DigitsValue(s[..2]) - 1, DigitsValue(s[3..5])))
    else
      None
  }

  /**
   * A day of a four-digit year survives printing and parsing back.
   * Years outside 1000..9999 do not: they print with fewer or more than
   * four digits, which `parseDate` refuses.
   */
  lemma {:induction false} ParseDateOfToDateStr(d: Date)
    requires ValidDate(d) && 1000 <= d.year <= 9999
    ensures ParseDate(ToDateStr(d)) == Some(d)
  {
    var s := ToDateStr(d);
    DecimalLength(d.year, 3);
    assert |s| == 10;
    assert DateShaped(s);
    PadTwoValue(d.month + 1);
    PadTwoValue(d.day);
    DigitsValueOfDecimal(d.year);
    assert s[6..10] == NatToDecimal(d.year);
    assert s[..2] == PadTwo(d.month + 1);
    assert s[3..5] == PadTwo(d.day);
  }

  /** A four-digit year printed by `toDateStr` has the shape `parseDate` accepts. */
  lemma ToDateStrShape(d: Date)
    requires ValidDate(d)
    ensures DateShaped(ToDateStr(d)) <==> 1000 <= d.year <= 9999
  {
    var s := ToDateStr(d);
    if 1000 <= d.year <= 9999 {
      DecimalLength(d.year, 3);
    } else if 0 <= d.year < 10 {
      assert |NatToDecimal(d.year)| == 1;
    } else if 10 <= d.year < 100 {
      DecimalLength(d.year, 1);
    } else if 100 <= d.year < 1000 {
      DecimalLength(d.year, 2);
    } else if d.year >= 10000 {
      DecimalAtLeastFive(d.year);
    } else {
      assert s[6] == '-';
    }
  }

  /** Numbers from 10000 upwards print with at least five digits. */
  lemma {:induction false} DecimalAtLeastFive(n: nat)
    requires n >= 10000
    ensures |NatToDecimal(n)| >= 5
  {
    if n >= 100000 {
      DecimalAtLeastFive(n / 10);
    } else {
      DecimalLength(n, 4);
    }
  }

  /** A two-digit year means a year of the twentieth century. */
  lemma TwoDigitYearsAreTwentiethCentury(s: string)
    requires DateShaped(s) && DigitsValue(s[6..10]) <= 99
    requires 1 <= DigitsValue(s[..2]) <= 12
    requires 1 <= DigitsValue(s[3..5]) <= DaysInMonth(1900 + DigitsValue(s[6..10]), DigitsValue(s[..2]) - 1)
    ensures ParseDate(s) == Some(Date(1900 + DigitsValue(s[6..10]), DigitsValue(s[..2]) - 1, DigitsValue(s[3..5])))
  {
  }

  /**
   * The `Date` constructor's normalisation on the values `parseDate` can
   * pass it: an impossible day such as `02/30/2025` rolls into March, day
   * `00` is the last day of the month before, month `13` is January of
   * the next year and the year `0024` is 1924.
   */
  lemma ConstructorNormalises()
    ensures MakeDate(2025, 1, 30) == Date(2025, 2, 2)
    ensures MakeDate(2025, 2, 0) == Date(2025, 1, 28)
    ensures MakeDate(2025, 12, 1) == Date(2026, 0, 1)
    ensures MakeDate(24, 0, 15) == Date(1924, 0, 15)
  {
    assert Rollover(2025, 2, 2) == Date(2025, 2, 2);
  }

  /** A day past several month ends and a month before January both carry over. */
  lemma ConstructorCarries()
    ensures MakeDate(2025, 0, 99) == Date(2025, 3, 9)
    ensures MakeDate(2025, -1, 15) == Date(2024, 11, 15)
  {
  }

  // ----- comparisons -----

  /** `sameDay`: the same year, month and day. */
  function SameDay(a: Date, b: Date): (r: bool)
    ensures r <==> !Before(a, b) && !Before(b, a)
  {
    a.year == b.year && a.month == b.month && a.day == b.day
  }

  /** `inRange`: strictly between both bounds, and false while a bound is missing. */
  function InRange(day: Date, start: Option<Date>, end: Option<Date>): (r: bool)
    ensures r ==> start.Some? && end.Some? && Before(start.value, end.value)
    ensures r ==> !SameDay(day, start.value) && !SameDay(day, end.value)
    ensures r ==> Before(start.value, day) && Before(day, end.value)
  {
    if start.None? || end.None? then false
    else Before(start.value, day) && Before(day, end.value)
  }

  /** The bounds themselves are never in range, and neither is anything when a bound is missing. */
  lemma InRangeExcludesBounds(day: Date, start: Option<Date>, end: Option<Date>)
    ensures start.None? || end.None? ==> !InRange(day, start, end)
    ensures start == Some(day) || end == Some(day) ==> !InRange(day, start, end)
    ensures start.Some? && end.Some? && Before(start.value, day) && Before(day, end.value) ==> InRange(day, start, end)
  {
  }

  // ----- the month grid -----

  /** Days since 1970-01-01 of a Gregorian day (month 1-based). */
  function DaysFromCivil(year: int, month: int, day: int): int
    requires 1 <= month <= 12
  {
    var y := if month <= 2 then year - 1 else year;
    var mp := (month + 9) % 12;
    MarchFirst(y) + (153 * mp + 2) / 5 + day - 1 - 719468
  }

  /** Days from 0000-03-01 to 1 March of `y`, counting the years from March to February. */
  function MarchFirst(y: int): int
  {
    var era := y / 400;
    var yoe := y - era * 400;
    era * 146097 + yoe * 365 + yoe / 4 - yoe / 100
  }

  /** `getFirstDayOfWeek`: the weekday (0 = Sunday) of the month's first day. */
  function FirstWeekday(year: int, month: int): (w: nat)
    requires 0 <= month < 12
    ensures w < 7
  {
    (DaysFromCivil(year, month + 1, 1) + 4) % 7
  }

  /** Two known first days: 1 January 1970 was a Thursday and 1 January 2025 a Wednesday. */
  lemma FirstWeekdayAnchors()
    ensures FirstWeekday(1970, 0) == 4 && FirstWeekday(2025, 0) == 3
  {
  }

  /**
   * The cells of `MonthGrid`: a blank cell for each weekday before the
   * first of the month, then every day of the month in order.
   */
  method MonthCells(year: int, month: int) returns (cells: seq<Option<Date>>)
    requires 0 <= month < 12
    ensures |cells| == FirstWeekday(FullYear(year), month) + DaysInMonth(FullYear(year), month)
    ensures forall i :: 0 <= i < FirstWeekday(FullYear(year), month) ==> cells[i] == None
    ensures forall i :: FirstWeekday(FullYear(year), month) <= i < |cells| ==>
      cells[i] == Some(Date(FullYear(year), month, i - FirstWeekday(FullYear(year), month) + 1))
    ensures forall i :: 0 <= i < |cells| && cells[i].Some? ==> ValidDate(cells[i].value)
  {
    var daysInMonth := DaysInMonth(FullYear(year), month);
    var firstDay := FirstWeekday(FullYear(year), month);
    cells := [];
    for i := 0 to firstDay
      invariant |cells| == i
      invariant forall j :: 0 <= j < i ==> cells[j] == None
    {
      cells := cells + [None];
    }
    for d := 1 to daysInMonth + 1
      invariant |cells| == firstDay + d - 1
      invariant forall j :: 0 <= j < firstDay ==> cells[j] == None
      invariant forall j :: firstDay <= j < |cells| ==> cells[j] == Some(Date(FullYear(year), month, j - firstDay + 1))
    {
      cells := cells + [Some(MakeDate(year, month, d))];
    }
  }

  // ----- the picker -----

  /** Which bound the next click sets. */
  datatype Selecting = SelectStart | SelectEnd

  /** The bounds are in order whenever both are set. */
  predicate Ordered(start: Option<Date>, end: Option<Date>)
  {
    start.Some? && end.Some? ==> !Before(end.value, start.value)
  }

  /** The text `apply` stores for a bound: `''` while it is missing. */
  function StoredText(bound: Option<Date>): (s: string)
    requires bound.Some? ==> ValidDate(bound.value)
    ensures bound.None? <==> s == []
  {
    if bound.Some? then ToDateStr(bound.value) else []
  }

  /** The picker's working state: the local bounds, the click mode and the month on view. */
  class DatePicker {
    var open: bool
    var selecting: Selecting
    var viewYear: int
    var viewMonth: int
    var localStart: Option<Date>
    var localEnd: Option<Date>

    /** Every day the picker holds is a real calendar day, and the view shows a real month. */
    predicate Valid()
      reads this
    {
      && 0 <= viewMonth < 12
      && (localStart.Some? ==> ValidDate(localStart.value))
      && (localEnd.Some? ==> ValidDate(localEnd.value))
    }

    /** The initial state: closed, in start mode, viewing `today`'s month, nothing picked. */
    constructor(today: Date)
      requires ValidDate(today)
      ensures Valid()
      ensures !open && selecting == SelectStart
      ensures viewYear == today.year && viewMonth == today.month
      ensures localStart == None && localEnd == None
    {
      open := false;
      selecting := SelectStart;
      viewYear := today.year;
      viewMonth := today.month;
      localStart := None;
      localEnd := None;
    }

    /**
     * Opening the panel copies the store's range into the local bounds,
     * returns to start mode and shows the start's month when there is one.
     */
    method Open(store: MarketStore.Store)
      requires Valid()
      modifies this
      ensures Valid()
      ensures open && selecting == SelectStart
      ensures localStart == ParseDate(store.dateStart) && localEnd == ParseDate(store.dateEnd)
      ensures localStart.Some? ==> viewYear == localStart.value.year && viewMonth == localStart.value.month
      ensures localStart.None? ==> viewYear == old(viewYear) && viewMonth == old(viewMonth)
    {
      open := true;
      var s := ParseDate(store.dateStart);
      var e := ParseDate(store.dateEnd);
      localStart, localEnd := s, e;
      selecting := SelectStart;
      if s.Some? {
        viewYear, viewMonth := s.value.year, s.value.month;
      }
    }

    /** The panel closes (the toggle button, an outside click or Escape); the working state is kept. */
    method Close()
      requires Valid()
      modifies this
      ensures Valid() && !open
      ensures selecting == old(selecting) && localStart == old(localStart) && localEnd == old(localEnd)
      ensures viewYear == old(viewYear) && viewMonth == old(viewMonth)
    {
      open := false;
    }

    /** The Start and End buttons: the click mode is chosen directly and nothing else changes. */
    method ChooseSelecting(mode: Selecting)
      requires Valid()
      modifies this
      ensures Valid() && selecting == mode
      ensures open == old(open) && localStart == old(localStart) && localEnd == old(localEnd)
      ensures viewYear == old(viewYear) && viewMonth == old(viewMonth)
    {
      selecting := mode;
    }

    method PrevMonthClick()
      requires Valid()
      modifies this
      ensures Valid()
      ensures YearMonth(viewYear, viewMonth) == PrevMonth(old(YearMonth(viewYear, viewMonth)))
      ensures MonthIndex(YearMonth(viewYear, viewMonth)) == old(MonthIndex(YearMonth(viewYear, viewMonth))) - 1
      ensures open == old(open) && selecting == old(selecting)
      ensures localStart == old(localStart) && localEnd == old(localEnd)
    {
      if viewMonth == 0 {
        viewMonth := 11;
        viewYear := viewYear - 1;
      } else {
        viewMonth := viewMonth - 1;
      }
    }

    method NextMonthClick()
      requires Valid()
      modifies this
      ensures Valid()
      ensures YearMonth(viewYear, viewMonth) == NextMonth(old(YearMonth(viewYear, viewMonth)))
      ensures MonthIndex(YearMonth(viewYear, viewMonth)) == old(MonthIndex(YearMonth(viewYear, viewMonth))) + 1
      ensures open == old(open) && selecting == old(selecting)
      ensures localStart == old(localStart) && localEnd == old(localEnd)
    {
      if viewMonth == 11 {
        viewMonth := 0;
        viewYear := viewYear + 1;
      } else {
        viewMonth := viewMonth + 1;
      }
    }

    /**
     * `handleDayClick`. In start mode the day becomes the start, an end
     * that is not after it is dropped, and the next click sets the end. In
     * end mode a day before the start swaps in as the start with the old
     * start as the end; any other day becomes the end; the next click sets
     * the start again. Whatever the state before, afterwards the bounds are
     * in order.
     */
    method HandleDayClick(day: Date)
      requires Valid() && ValidDate(day)
      modifies this
      ensures Valid()
      ensures Ordered(localStart, localEnd)
      ensures old(selecting) == SelectStart ==>
        && localStart == Some(day)
        && localEnd == (if old(localEnd).Some? && !Before(day, old(localEnd).value) then None else old(localEnd))
        && selecting == SelectEnd
      ensures old(selecting) == SelectEnd && old(localStart).Some? && Before(day, old(localStart).value) ==>
        localStart == Some(day) && localEnd == old(localStart)
      ensures old(selecting) == SelectEnd && !(old(localStart).Some? && Before(day, old(localStart).value)) ==>
        localStart == old(localStart) && localEnd == Some(day)
      ensures old(selecting) == SelectEnd ==> selecting == SelectStart
      ensures open == old(open) && viewYear == old(viewYear) && viewMonth == old(viewMonth)
    {
      if selecting == SelectStart {
        localStart := Some(day);
        if localEnd.Some? && !Before(day, localEnd.value) {
          localEnd := None;
        }
        selecting := SelectEnd;
      } else {
        if localStart.Some? && Before(day, localStart.value) {
          localStart, localEnd := Some(day), localStart;
        } else {
          localEnd := Some(day);
        }
        selecting := SelectStart;
      }
    }

    /** `apply`: the local bounds are written to the store as text, and the panel closes. */
    method Apply(store: MarketStore.Store)
      requires Valid()
      modifies this, store
      ensures Valid()
      ensures store.dateStart == StoredText(localStart) && store.dateEnd == StoredText(localEnd)
      ensures !open
      ensures localStart == old(localStart) && localEnd == old(localEnd) && selecting == old(selecting)
      ensures viewYear == old(viewYear) && viewMonth == old(viewMonth)
      ensures store.markets == old(store.markets) && store.selectedIds == old(store.selectedIds)
      ensures store.selectedMarketId == old(store.selectedMarketId)
      ensures store.isProcessing == old(store.isProcessing) && store.previewOpen == old(store.previewOpen)
      ensures store.previewIndex == old(store.previewIndex) && store.shareType == old(store.shareType)
      ensures store.visualization == old(store.visualization) && store.exportFormat == old(store.exportFormat)
    {
      var startText := StoredText(localStart);
      var endText := StoredText(localEnd);
      store.SetDateRange(startText, endText);
      open := false;
    }

    /** `clear`: both local bounds and both stored texts are emptied, and the panel closes. */
    method Clear(store: MarketStore.Store)
      requires Valid()
      modifies this, store
      ensures localStart == None && localEnd == None
      ensures store.dateStart == [] && store.dateEnd == []
      ensures !open
      ensures selecting == old(selecting) && viewYear == old(viewYear) && viewMonth == old(viewMonth) && Valid()
      ensures store.markets == old(store.markets) && store.selectedIds == old(store.selectedIds)
      ensures store.selectedMarketId == old(store.selectedMarketId)
      ensures store.isProcessing == old(store.isProcessing) && store.previewOpen == old(store.previewOpen)
      ensures store.previewIndex == old(store.previewIndex) && store.shareType == old(store.shareType)
      ensures store.visualization == old(store.visualization) && store.exportFormat == old(store.exportFormat)
    {
      localStart, localEnd := None, None;
      store.SetDateRange([], []);
      open := false;
    }
  }

  /**
   * Applying a range of four-digit-year days and opening the panel again
   * brings back exactly the same bounds.
   */
  lemma {:induction false} ReopenRestoresRange(start: Option<Date>, end: Option<Date>)
    requires start.Some? ==> ValidDate(start.value) && 1000 <= start.value.year <= 9999
    requires end.Some? ==> ValidDate(end.value) && 1000 <= end.value.year <= 9999
    ensures ParseDate(StoredText(start)) == start && ParseDate(StoredText(end)) == end
  {
    if start.Some? {
      ParseDateOfToDateStr(start.value);
    }
    if end.Some? {
      ParseDateOfToDateStr(end.value);
    }
  }
}
