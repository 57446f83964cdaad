/** The latest-shows panel: the list of time filters it offers (the current month, the five
    months before it, the current year and the previous one), the pager over that list, and
    the query it issues for the selected filter.

    The clock is a parameter: `currentYear` and `currentMonth` (1..12) are what `new Date()`
    reports. Month names come from the locale and are kept abstract in `Label`. */
module LatestShows {
  import opened Wrappers
  import Text
  import OmdbApi

  /** What a filter's heading shows: a month's name and year (locale dependent), or text. */
  datatype Label = MonthName(year: int, month: int) | Caption(text: string)

  /** A time filter; `month` is `None` for a whole year. */
  datatype TimeFilter = TimeFilter(year: string, month: Option<string>, heading: Label)

  datatype YearMonth = YearMonth(year: int, month: int)

  /** Months counted from year 0, so that consecutive calendar months differ by one. */
  function Ordinal(ym: YearMonth): int {
    ym.year * 12 + ym.month - 1
  }

  /** The month `i` months before the current one, as the loop in `generateTimeFilters`
      computes it: subtract, and when that leaves no month add twelve and step back a year. */
  function MonthsBack(currentYear: int, currentMonth: int, i: int): YearMonth {
    if currentMonth - i <= 0 then YearMonth(currentYear - 1, 12 + (currentMonth - i))
    else YearMonth(currentYear, currentMonth - i)
  }

  function MonthFilter(ym: YearMonth): TimeFilter {
    TimeFilter(Text.IntToString(ym.year), Some(Text.IntToString(ym.month)), MonthName(ym.year, ym.month))
  }

  function YearFilter(year: int): TimeFilter {
    TimeFilter(Text.IntToString(year), None, Caption("All of " + Text.IntToString(year)))
  }

  /** The eight filters, in the order they are offered. */
  function TimeFilters(currentYear: int, currentMonth: int): (filters: seq<TimeFilter>)
    ensures |filters| == 8
    ensures forall i :: 0 <= i < 6 ==> filters[i] == MonthFilter(MonthsBack(currentYear, currentMonth, i))
    ensures filters[6] == YearFilter(currentYear) && filters[7] == YearFilter(currentYear - 1)
  {
    seq(6, i => MonthFilter(MonthsBack(currentYear, currentMonth, i)))
    + [YearFilter(currentYear), YearFilter(currentYear - 1)]
  }

  /** `generateTimeFilters()`. */
  method GenerateTimeFilters(currentYear: int, currentMonth: int) returns (filters: seq<TimeFilter>)
    requires 1 <= currentMonth <= 12
    ensures filters == TimeFilters(currentYear, currentMonth)
  {
    filters := [MonthFilter(YearMonth(currentYear, currentMonth))];
    for i := 1 to 6
      invariant |filters| == i
      invariant forall k :: 0 <= k < i ==> filters[k] == MonthFilter(MonthsBack(currentYear, currentMonth, k))
    {
      var year := currentYear;
      var month := currentMonth - i;
      if month <= 0 {
        month := 12 + month;
        year := currentYear - 1;
      }
      filters := filters + [MonthFilter(YearMonth(year, month))];
    }
    filters := filters + [YearFilter(currentYear), YearFilter(currentYear - 1)];
  }

  /** Each of the six month filters names a real month, `i` months before the current one;
      the wrap into the previous year happens exactly when the subtraction leaves no month. */
  lemma MonthsBackIsCalendarMonth(currentYear: int, currentMonth: int, i: int)
    requires 1 <= currentMonth <= 12 && 0 <= i < 12
    ensures var ym := MonthsBack(currentYear, currentMonth, i);
            1 <= ym.month <= 12
            && Ordinal(ym) == Ordinal(YearMonth(currentYear, currentMonth)) - i
            && (ym.year == currentYear - 1 <==> currentMonth - i <= 0)
  {
  }

  /** The month filters go back one calendar month at a time. */
  lemma MonthFiltersConsecutive(currentYear: int, currentMonth: int, i: int)
    requires 1 <= currentMonth <= 12 && 0 <= i < 5
    ensures Ordinal(MonthsBack(currentYear, currentMonth, i + 1)) == Ordinal(MonthsBack(currentYear, currentMonth, i)) - 1
  {
    MonthsBackIsCalendarMonth(currentYear, currentMonth, i);
    MonthsBackIsCalendarMonth(currentYear, currentMonth, i + 1);
  }

  // ---------------------------------------------------------------- the query

  /** The react-query key `['latestShows', year, month]`. */
  datatype QueryKey = QueryKey(name: string, year: string, month: Option<string>)

  function Key(f: TimeFilter): (k: QueryKey)
    ensures k.name == "latestShows" && k.year == f.year && k.month == f.month
  {
    QueryKey("latestShows", f.year, f.month)
  }

  /** The month `getLatestShows` receives: `currentFilter.month || ""`. */
  function MonthArgument(f: TimeFilter): (month: string)
    ensures f.month.None? ==> month == ""
    ensures f.month.Some? ==> month == f.month.value
  {
    match f.month
    case None => ""
    case Some(m) => m
  }

  /** `enabled: !!timeFilters.length`. */
  predicate Enabled(filters: seq<TimeFilter>) {
    |filters| > 0
  }

  /** `timeFilters[currentFilterIndex] || {year: <current year>, month: null, label: "Latest Shows"}`. */
  function CurrentFilter(filters: seq<TimeFilter>, index: nat, currentYear: int): (f: TimeFilter)
    ensures index < |filters| ==> f == filters[index]
    ensures index >= |filters| ==> f.year == Text.IntToString(currentYear) && f.month.None?
                                   && f.heading == Caption("Latest Shows")
  {
    if index < |filters| then filters[index]
    else TimeFilter(Text.IntToString(currentYear), None, Caption("Latest Shows"))
  }

  /** Before the filters exist the panel asks for the current year as a whole, and the query is
      switched off. */
  lemma NoFiltersYet(index: nat, currentYear: int)
    ensures var f := CurrentFilter([], index, currentYear);
            !Enabled([]) && Key(f) == QueryKey("latestShows", Text.IntToString(currentYear), None)
            && MonthArgument(f) == "" && f.heading == Caption("Latest Shows")
  {
  }

  /** The eight filters lead to eight different queries. */
  lemma FilterKeysDistinct(currentYear: int, currentMonth: int, i: int, j: int)
    requires 1 <= currentMonth <= 12 && 0 <= i < j < 8
    ensures Key(TimeFilters(currentYear, currentMonth)[i]) != Key(TimeFilters(currentYear, currentMonth)[j])
  {
    var fs := TimeFilters(currentYear, currentMonth);
    if j < 6 {
      var a := MonthsBack(currentYear, currentMonth, i);
      var b := MonthsBack(currentYear, currentMonth, j);
      MonthsBackIsCalendarMonth(currentYear, currentMonth, i);
      MonthsBackIsCalendarMonth(currentYear, currentMonth, j);
      Text.IntToStringInjective(a.year, b.year);
      Text.IntToStringInjective(a.month, b.month);
    } else if i == 6 {
      Text.IntToStringInjective(currentYear, currentYear - 1);
    }
  }

  /** A month `1..12` padded to two places: two digits that read back as the month. */
  lemma PaddedMonth(month: int)
    requires 1 <= month <= 12
    ensures var p := Text.PadStart(Text.IntToString(month), 2, '0');
            |p| == 2 && Text.AllDigits(p) && Text.DigitsValue(p) == month
  {
    var s := Text.IntToString(month);
    Text.NatToStringRoundTrip(month);
    if month < 10 {
      assert s == [Text.DigitChar(month)];
      assert Text.Utf16Length(s) == 1;
      var p := Text.PadStart(s, 2, '0');
      assert p == ['0'] + s;
      assert p[..1] == ['0'];
      assert Text.DigitsValue(p[..1]) == 0 by {
        assert p[..1][..0] == [];
      }
    } else {
      assert s == Text.NatToString(month / 10) + [Text.DigitChar(month % 10)];
      assert Text.Utf16Length(s) == 2;
    }
  }

  /** The search terms a month filter leads to: `y:YYYY/MM` first, and the two extra terms
      exactly when the month lies in the current year. */
  lemma MonthFilterTerms(currentYear: int, currentMonth: int, i: int)
    requires 1 <= currentMonth <= 12 && 0 <= i < 6
    ensures var f := TimeFilters(currentYear, currentMonth)[i];
            var ym := MonthsBack(currentYear, currentMonth, i);
            var terms := OmdbApi.LatestTerms(f.year, MonthArgument(f), currentYear);
            terms[0] == "y:" + Text.IntToString(ym.year) + "/" + Text.PadStart(Text.IntToString(ym.month), 2, '0')
            && (|terms| == 6 <==> ym.year == currentYear)
  {
    var ym := MonthsBack(currentYear, currentMonth, i);
    Text.IntToStringInjective(ym.year, currentYear);
  }

  /** The search terms the two year filters lead to: the current year's gets the two extra
      terms, the previous year's does not. */
  lemma YearFilterTerms(currentYear: int, currentMonth: int)
    requires 1 <= currentMonth <= 12
    ensures var fs := TimeFilters(currentYear, currentMonth);
            var t6 := OmdbApi.LatestTerms(fs[6].year, MonthArgument(fs[6]), currentYear);
            var t7 := OmdbApi.LatestTerms(fs[7].year, MonthArgument(fs[7]), currentYear);
            t6[0] == "y:" + Text.IntToString(currentYear) && |t6| == 6
            && t7[0] == "y:" + Text.IntToString(currentYear - 1) && |t7| == 4
  {
    Text.IntToStringInjective(currentYear - 1, currentYear);
  }

  // ---------------------------------------------------------------- the pager

  datatype Direction = Prev | Next

  /** `navigateFilter(direction)` applied to the index: one step, unless already at the end. */
  function Step(index: nat, count: nat, direction: Direction): (r: nat)
    ensures index < count ==> r < count
    ensures r == index || r + 1 == index || r == index + 1
    ensures direction == Prev ==> r <= index
    ensures direction == Next ==> r >= index
    ensures direction == Prev && index > 0 ==> r == index - 1
    ensures direction == Next && index + 1 < count ==> r == index + 1
    ensures direction == Prev && index == 0 ==> r == 0
    ensures direction == Next && index + 1 >= count ==> r == index
  {
    match direction
    case Prev => if index > 0 then index - 1 else index
    case Next => if index < count - 1 then index + 1 else index
  }

  /** A step back undoes a step forward that moved, and the other way round. */
  lemma StepsUndo(index: nat, count: nat)
    ensures index + 1 < count ==> Step(Step(index, count, Next), count, Prev) == index
    ensures 0 < index < count ==> Step(Step(index, count, Prev), count, Next) == index
  {
  }

  /** `k` presses of "next", from `index`. */
  function Forward(index: nat, count: nat, k: nat): nat {
    if k == 0 then index else Step(Forward(index, count, k - 1), count, Next)
  }

  /** From the first filter, `k` presses of "next" reach filter `k`, and stop at the last. */
  lemma {:induction false} ForwardReaches(count: nat, k: nat)
    requires count > 0
    ensures Forward(0, count, k) == if k < count then k else count - 1
  {
    if k > 0 {
      ForwardReaches(count, k - 1);
    }
  }

  /** The panel's state: the filter list (empty until the mount effect has run) and the index
      of the selected filter. */
  class FilterPager {
    var filters: seq<TimeFilter>
    var index: nat

    /** The index points at a filter, or is 0 while there are none. */
    predicate Valid()
      reads this
    {
      index == 0 || index < |filters|
    }

    constructor ()
      ensures filters == [] && index == 0 && Valid()
    {
      filters := [];
      index := 0;
    }

    /** The mount effect: `setTimeFilters(generateTimeFilters())`, which runs once, before any
        navigation. */
    method Load(currentYear: int, currentMonth: int)
      requires 1 <= currentMonth <= 12 && index == 0
      modifies this`filters
      ensures filters == TimeFilters(currentYear, currentMonth) && index == 0 && Valid()
    {
      filters := GenerateTimeFilters(currentYear, currentMonth);
    }

    /** `navigateFilter(direction)`. */
    method Navigate(direction: Direction)
      requires Valid()
      modifies this`index
      ensures index == Step(old(index), |filters|, direction) && Valid()
    {
      if direction == Prev {
        if index > 0 {
          index := index - 1;
        }
      } else {
        if index < |filters| - 1 {
          index := index + 1;
        }
      }
    }

    /** The filter the panel shows and queries. */
    function Current(currentYear: int): (f: TimeFilter)
      reads this
      requires Valid()
      ensures filters != [] ==> f == filters[index]
    {
      CurrentFilter(filters, index, currentYear)
    }
  }
}
