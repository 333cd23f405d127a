/**
 * parseTransactionFilter from internal/handlers/transactions.go: the URL query
 * of the transactions page becomes a TransactionFilter. The function reads
 * `time.Now()` twice, once for each missing date bound; the two readings are
 * the parameters `startNow` and `endNow`.
 */
module Handlers {
  import opened Wrappers
  import opened GoTime
  import opened GoStrconv
  import opened Transactions
  import opened TransactionQuery

  /** `url.Values`: every key maps to the list of values it was given. */
  type Values = map<string, seq<string>>

  /** `url.Values.Get`: the first value for the key, or "" when there is none. */
  function Get(query: Values, key: string): (value: string)
    ensures key in query && query[key] != [] ==> value == query[key][0]
    ensures key !in query || query[key] == [] ==> value == ""
    ensures value == "" || (key in query && value in query[key])
  {
    if key in query && query[key] != [] then query[key][0] else ""
  }

  /** The category_id parameter, kept only when it parses as a positive int. */
  function CategoryIdParam(text: string): (id: int)
    ensures id == 0 || (id > 0 && Atoi(text) == Some(id))
    ensures id == 0 <==> Atoi(text).None? || Atoi(text).value <= 0
  {
    if text != "" then
      match Atoi(text)
      case Some(n) => if n > 0 then n else 0
      case None => 0
    else 0
  }

  /**
   * A date parameter: when absent, the default; when present, the parsed date,
   * or the zero time when it does not parse.
   */
  function DateParam(text: string, default: Time): (t: Time)
    ensures text == "" ==> t == default
    ensures text != "" && ParseDate(text).Some? ==> t == ParseDate(text).value
    ensures text != "" && ParseDate(text).None? ==> IsZero(t)
  {
    if text != "" then
      match ParseDate(text)
      case Some(date) => date
      case None => Zero
    else default
  }

  function ParseTransactionFilter(query: Values, startNow: Time, endNow: Time): (f: TransactionFilter)
    ensures f.categoryId == CategoryIdParam(Get(query, "category_id"))
    ensures f.categoryId == 0 || (f.categoryId > 0 && Atoi(Get(query, "category_id")) == Some(f.categoryId))
    ensures f.categoryType == "" || f.categoryType == "income" || f.categoryType == "expense"
    ensures f.categoryType != "" <==> Get(query, "type") == "income" || Get(query, "type") == "expense"
    ensures f.categoryType != "" ==> f.categoryType == Get(query, "type")
    ensures f.startDate == DateParam(Get(query, "start_date"), StartOfMonth(startNow))
    ensures f.endDate == DateParam(Get(query, "end_date"), EndOfMonth(endNow))
    ensures Get(query, "start_date") == "" ==> f.startDate == StartOfMonth(startNow)
    ensures Get(query, "end_date") == "" ==> f.endDate == EndOfMonth(endNow)
    ensures f.sortBy == Get(query, "sort_by")
    ensures f.sortDirection == "ASC" || f.sortDirection == "DESC"
    ensures f.sortDirection == "ASC" <==> Get(query, "sort_dir") == "ASC"
  {
    var categoryType := Get(query, "type");
    TransactionFilter(
      categoryId := CategoryIdParam(Get(query, "category_id")),
      categoryType := if categoryType == "income" || categoryType == "expense" then categoryType else "",
      startDate := DateParam(Get(query, "start_date"), StartOfMonth(startNow)),
      endDate := DateParam(Get(query, "end_date"), EndOfMonth(endNow)),
      sortBy := Get(query, "sort_by"),
      sortDirection := if Get(query, "sort_dir") == "ASC" then "ASC" else "DESC")
  }

  /**
   * A start_date that is present but not a date in the layout YYYY-MM-DD leaves
   * the start at the zero time, so the listing query gets no lower bound.
   */
  lemma MalformedStartDateDropsBound(query: Values, startNow: Time, endNow: Time)
    requires Get(query, "start_date") != "" && ParseDate(Get(query, "start_date")).None?
    ensures IsZero(ParseTransactionFilter(query, startNow, endNow).startDate)
    ensures FromDate !in ActiveCriteria(ParseTransactionFilter(query, startNow, endNow))
  {
  }

  lemma MalformedEndDateDropsBound(query: Values, startNow: Time, endNow: Time)
    requires Get(query, "end_date") != "" && ParseDate(Get(query, "end_date")).None?
    ensures IsZero(ParseTransactionFilter(query, startNow, endNow).endDate)
    ensures ToDate !in ActiveCriteria(ParseTransactionFilter(query, startNow, endNow))
  {
  }

  /** "0001-01-01" parses to the zero time and is therefore read as "no start date". */
  lemma FirstDateOfYearOneDropsBound(query: Values, startNow: Time, endNow: Time)
    requires Get(query, "start_date") == "0001-01-01"
    ensures FromDate !in ActiveCriteria(ParseTransactionFilter(query, startNow, endNow))
  {
    ZeroTimeText();
  }

  /** Go's zero time is the date 0001-01-01 at midnight. */
  lemma ZeroTimeText()
    ensures ParseDate("0001-01-01") == Some(Zero)
  {
    ParseFormatDate(Zero);
    FormatFixedValue(1, 4);
    FormatFixedValue(1, 2);
    assert FormatFixed(1, 4) == "0001" && FormatFixed(1, 2) == "01";
    assert FormatDate(Zero) == "0001-01-01";
  }

  /**
   * The page with no query parameters binds both date bounds, start then end,
   * the start from the first clock reading and the end from the second, except
   * in January of year 1, whose first instant is the zero time and so is no
   * bound at all.
   */
  lemma DefaultListing(startNow: Time, endNow: Time)
    ensures var f := ParseTransactionFilter(map[], startNow, endNow);
      && ActiveCriteria(f) == (if IsZero(StartOfMonth(startNow)) then [ToDate] else [FromDate, ToDate])
      && Args(f, ActiveCriteria(f)) ==
           (if IsZero(StartOfMonth(startNow)) then [TimeArg(EndOfMonth(endNow))]
            else [TimeArg(StartOfMonth(startNow)), TimeArg(EndOfMonth(endNow))])
      && SortColumn(f.sortBy) == "t.transaction_date" && SortDirection(f.sortDirection) == "DESC"
  {
    DefaultFilter(startNow, endNow);
    MonthQuery(StartOfMonth(startNow), EndOfMonth(endNow));
  }

  /** The criteria and arguments of a filter that only bounds the date range, the end being set. */
  lemma MonthQuery(start: Time, end: Time)
    requires !IsZero(end)
    ensures var f := TransactionFilter(0, "", start, end, "", "DESC");
      && ActiveCriteria(f) == (if IsZero(start) then [ToDate] else [FromDate, ToDate])
      && Args(f, ActiveCriteria(f)) == (if IsZero(start) then [TimeArg(end)] else [TimeArg(start), TimeArg(end)])
  {
    var f := TransactionFilter(0, "", start, end, "", "DESC");
    var cs := ActiveCriteria(f);
    assert IfActive(f, ByCategoryId) == [] && IfActive(f, ByCategoryType) == [];
    assert IfActive(f, ToDate) == [ToDate];
    if IsZero(start) {
      assert cs == [ToDate];
      assert cs[..0] == [];
    } else {
      assert cs == [FromDate, ToDate];
      assert cs[..1] == [FromDate] && cs[..1][..0] == [];
    }
  }

  /**
   * Without parameters the filter runs from the start of the first reading's
   * month to the end of the second reading's month, names no sort column and
   * sorts descending.
   */
  lemma DefaultFilter(startNow: Time, endNow: Time)
    ensures ParseTransactionFilter(map[], startNow, endNow) ==
      TransactionFilter(0, "", StartOfMonth(startNow), EndOfMonth(endNow), "", "DESC")
  {
  }

  /**
   * When both clock readings fall in the same month, the default range holds
   * exactly that month: every instant of it lies within the bounds, and the
   * bounds themselves are in it.
   */
  lemma DefaultRangeIsOneMonth(startNow: Time, endNow: Time, u: Time)
    requires startNow.year == endNow.year && startNow.month == endNow.month
    ensures var f := ParseTransactionFilter(map[], startNow, endNow);
      && f.startDate.year == f.endDate.year == startNow.year
      && f.startDate.month == f.endDate.month == startNow.month
      && (u.year == startNow.year && u.month == startNow.month ==>
            (f.startDate == u || Before(f.startDate, u)) && (u == f.endDate || Before(u, f.endDate)))
  {
    DefaultFilter(startNow, endNow);
  }
}
