/**
 * Resolution of the configured date options into the query parameters of the
 * first billing API request (`request_params` in the exporter).
 */
module Params {
  import opened Wrappers
  import opened DateFormat

  /** A `--month` value after `%Y-%m` parsing: its year and month number. */
  datatype YearMonth = YearMonth(year: int, month: int)

  /** Whether the options object has a `page_size` attribute, and its value (possibly None). */
  datatype PageSizeAttr = NoAttribute | Attribute(value: Option<string>)

  /** The options `request_params` reads. */
  datatype Args = Args(
    startDate: Option<string>,
    endDate: Option<string>,
    month: Option<YearMonth>,
    pageSize: PageSizeAttr)

  /** The exceptions `request_params` lets escape. */
  datatype ConfigError =
    | MissingDateRange   // neither both dates nor a month
    | InvalidMonth       // the month names no real month (year outside 1..9999, month outside 1..12)
    | YearOutOfRange     // the month after it lies beyond year 9999

  /** The query map: key to value, where a None value is a key whose value is None. */
  type Params = map<string, Option<string>>

  const StartKey := "start_date"
  const EndKey := "end_date"
  const PageSizeKey := "page_size"

  /** The first and last year a calendar date can carry. */
  const MinYear := 1
  const MaxYear := 9999

  predicate ValidYearMonth(ym: YearMonth) {
    MinYear <= ym.year <= MaxYear && 1 <= ym.month <= 12
  }

  /** Months counted from January of year 0; consecutive months have consecutive indices. */
  function MonthIndex(ym: YearMonth): int {
    ym.year * 12 + (ym.month - 1)
  }

  /** The month `relativedelta(months=+1)` moves the first of `ym` to. */
  function NextMonth(ym: YearMonth): (r: YearMonth)
    ensures 1 <= ym.month <= 12 ==> 1 <= r.month <= 12 && MonthIndex(r) == MonthIndex(ym) + 1
  {
    if ym.month == 12 then YearMonth(ym.year + 1, 1) else YearMonth(ym.year, ym.month + 1)
  }

  /** A month is determined by its index, so NextMonth is the only month one index later. */
  lemma NextMonthUnique(ym: YearMonth, other: YearMonth)
    requires 1 <= ym.month <= 12 && 1 <= other.month <= 12
    requires MonthIndex(other) == MonthIndex(ym) + 1
    ensures other == NextMonth(ym)
  {
  }

  function FirstOf(ym: YearMonth): Date
    requires ValidYearMonth(ym)
  {
    Date(ym.year, ym.month, 1)
  }

  /** Dates in calendar order. */
  predicate Before(a: Date, b: Date) {
    a.year < b.year || (a.year == b.year && (a.month < b.month || (a.month == b.month && a.day < b.day)))
  }

  predicate BothDates(args: Args) {
    args.startDate.Some? && args.endDate.Some?
  }

  /**
   * The `start_date` and `end_date` a month resolves to: the first of the
   * month and the first of the following month.
   */
  function MonthRange(ym: YearMonth): (r: Result<(string, string), ConfigError>)
    ensures r.Success? <==> ValidYearMonth(ym) && ym != YearMonth(MaxYear, 12)
    ensures !ValidYearMonth(ym) ==> r == Failure(InvalidMonth)
    ensures ym == YearMonth(MaxYear, 12) ==> r == Failure(YearOutOfRange)
    ensures r.Success? ==>
      ParseDate(r.value.0) == Some(Date(ym.year, ym.month, 1)) &&
      ParseDate(r.value.1) == Some(Date(NextMonth(ym).year, NextMonth(ym).month, 1))
  {
    if !ValidYearMonth(ym) then Failure(InvalidMonth)
    else
      var next := NextMonth(ym);
      if next.year > MaxYear then Failure(YearOutOfRange)
      else
        ParseFormat(FirstOf(ym));
        ParseFormat(FirstOf(next));
        Success((FormatDate(FirstOf(ym)), FormatDate(FirstOf(next))))
  }

  /** The first and last day of the resolved month range are in calendar order. */
  lemma MonthRangeOrdered(ym: YearMonth)
    requires MonthRange(ym).Success?
    ensures ParseDate(MonthRange(ym).value.0).Some? && ParseDate(MonthRange(ym).value.1).Some?
    ensures Before(ParseDate(MonthRange(ym).value.0).value, ParseDate(MonthRange(ym).value.1).value)
  {
  }

  /**
   * `request_params`: explicit dates when both are given, otherwise the
   * month's range, otherwise an error; `page_size` whenever the attribute exists.
   */
  function RequestParams(args: Args): (r: Result<Params, ConfigError>)
    ensures r.Success? <==> BothDates(args) || (args.month.Some? && MonthRange(args.month.value).Success?)
    ensures !BothDates(args) && args.month.None? ==> r == Failure(MissingDateRange)
    ensures !BothDates(args) && args.month.Some? && MonthRange(args.month.value).Failure? ==>
      r == Failure(MonthRange(args.month.value).error)
    ensures r.Success? ==>
      r.value.Keys == {StartKey, EndKey} + (if args.pageSize.Attribute? then {PageSizeKey} else {})
    ensures r.Success? && args.pageSize.Attribute? ==> r.value[PageSizeKey] == args.pageSize.value
    ensures BothDates(args) ==>
      r.Success? && r.value[StartKey] == args.startDate && r.value[EndKey] == args.endDate
    ensures !BothDates(args) && r.Success? ==>
      var ym := args.month.value;
      r.value[StartKey].Some? && r.value[EndKey].Some? &&
      ParseDate(r.value[StartKey].value) == Some(Date(ym.year, ym.month, 1)) &&
      ParseDate(r.value[EndKey].value) == Some(Date(NextMonth(ym).year, NextMonth(ym).month, 1))
  {
    var range: Result<(string, string), ConfigError> :=
      if BothDates(args) then Success((args.startDate.value, args.endDate.value))
      else if args.month.Some? then MonthRange(args.month.value)
      else Failure(MissingDateRange);
    match range
    case Failure(e) => Failure(e)
    case Success((start, end)) =>
      var params := map[StartKey := Some(start), EndKey := Some(end)];
      if args.pageSize.Attribute? then Success(params[PageSizeKey := args.pageSize.value])
      else Success(params)
  }

  /** A `YYYY-MM` month resolves to its first day through the first day of the next month. */
  lemma MarchExample()
    ensures RequestParams(Args(None, None, Some(YearMonth(2024, 3)), NoAttribute))
         == Success(map[StartKey := Some("2024-03-01"), EndKey := Some("2024-04-01")])
  {
    assert MonthRange(YearMonth(2024, 3)) == Success(("2024-03-01", "2024-04-01")) by {
      FormatMarch2024();
      FormatApril2024();
    }
  }

  /**
   * December rolls over into January of the next year; a lone start date does
   * not override the month; a page_size attribute holding None is still in the parameter map.
   */
  lemma DecemberExample()
    ensures RequestParams(Args(Some("2023-12-05"), None, Some(YearMonth(2023, 12)), Attribute(None)))
         == Success(map[StartKey := Some("2023-12-01"), EndKey := Some("2024-01-01"), PageSizeKey := None])
  {
    assert MonthRange(YearMonth(2023, 12)) == Success(("2023-12-01", "2024-01-01")) by {
      FormatDecember2023();
      FormatJanuary2024();
    }
  }
}
