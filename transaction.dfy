/**
 * internal/models/transaction.go without its SQL: the Transaction record and
 * the filter type, the rule checks of ValidateTransaction, the form parser,
 * and the fold GetSummary runs over the rows its aggregate query returns.
 */
module Transactions {
  import opened Wrappers
  import opened GoTime
  import opened GoStrconv
  import opened Validator

  /** Amounts are Go float64 values; they are modelled as reals. */
  datatype Transaction = Transaction(
    id: int,
    amount: real,
    description: string,
    categoryId: int,
    categoryName: string,
    categoryType: string,
    transactionDate: Time,
    createdAt: Time,
    updatedAt: Time)

  /** `Transaction{}`: every field at Go's zero value. */
  const EmptyTransaction: Transaction := Transaction(0, 0.0, "", 0, "", "", Zero, Zero, Zero)

  datatype TransactionFilter = TransactionFilter(
    categoryId: int,
    categoryType: string,
    startDate: Time,
    endDate: Time,
    sortBy: string,
    sortDirection: string)

  // ---------------------------------------------------------------- ValidateTransaction

  const AmountMessage := "Amount must be greater than zero"
  const DescriptionMessage := "Description cannot exceed 500 characters"
  const CategoryMessage := "Please select a valid category"
  const DateRequiredMessage := "Transaction date is required"
  const FutureDateMessage := "Transaction date cannot be in the future"

  const TransactionFields: set<string> := {"amount", "description", "category_id", "transaction_date"}

  /** The errors after ValidateTransaction's five checks, in source order; `now` stands for `time.Now()`. */
  function TransactionErrors(errors: map<string, string>, t: Transaction, now: Time): (r: map<string, string>)
    ensures Extends(errors, r)
    ensures r.Keys <= errors.Keys + TransactionFields
  {
    var e1 := Checked(errors, t.amount > 0.0, "amount", AmountMessage);
    var e2 := Checked(e1, MaxLength(t.description, 500), "description", DescriptionMessage);
    var e3 := Checked(e2, t.categoryId > 0, "category_id", CategoryMessage);
    var e4 := Checked(e3, !IsZero(t.transactionDate), "transaction_date", DateRequiredMessage);
    Checked(e4, Before(t.transactionDate, NextDay(now)), "transaction_date", FutureDateMessage)
  }

  method ValidateTransaction(v: Validator, t: Transaction, now: Time)
    modifies v
    ensures v.errors == TransactionErrors(old(v.errors), t, now)
  {
    v.Check(t.amount > 0.0, "amount", AmountMessage);
    v.Check(MaxLength(t.description, 500), "description", DescriptionMessage);
    v.Check(t.categoryId > 0, "category_id", CategoryMessage);
    v.Check(!IsZero(t.transactionDate), "transaction_date", DateRequiredMessage);
    v.Check(Before(t.transactionDate, NextDay(now)), "transaction_date", FutureDateMessage);
  }

  /**
   * On a fresh validator each field is flagged exactly when its rule fails, and
   * a zero date reports "required": that check runs first and the first
   * message for a field wins.
   */
  lemma TransactionErrorsOnFresh(t: Transaction, now: Time)
    ensures var r := TransactionErrors(map[], t, now);
      && r.Keys <= TransactionFields
      && ("amount" in r <==> t.amount <= 0.0)
      && ("amount" in r ==> r["amount"] == AmountMessage)
      && ("description" in r <==> |t.description| > 500)
      && ("description" in r ==> r["description"] == DescriptionMessage)
      && ("category_id" in r <==> t.categoryId <= 0)
      && ("category_id" in r ==> r["category_id"] == CategoryMessage)
      && ("transaction_date" in r <==> IsZero(t.transactionDate) || !Before(t.transactionDate, NextDay(now)))
      && ("transaction_date" in r ==>
            r["transaction_date"] == if IsZero(t.transactionDate) then DateRequiredMessage else FutureDateMessage)
  {
  }

  /** A fresh validator stays valid exactly when every rule holds. */
  lemma TransactionValidIff(t: Transaction, now: Time)
    ensures TransactionErrors(map[], t, now) == map[] <==>
      && t.amount > 0.0 && |t.description| <= 500 && t.categoryId > 0
      && !IsZero(t.transactionDate) && Before(t.transactionDate, NextDay(now))
  {
  }

  /** A date two days ahead of `now` is refused as a future date. */
  lemma DayAfterTomorrowRefused(t: Transaction, now: Time)
    requires t.transactionDate == NextDay(NextDay(now)) && now.year >= 1
    ensures TransactionErrors(map[], t, now)["transaction_date"] == FutureDateMessage
  {
  }

  /**
   * The check allows one day of slack: tomorrow's date, as the form parser
   * produces it (midnight), passes whenever `now` is past midnight.
   */
  lemma TomorrowAccepted(t: Transaction, now: Time)
    requires now.year >= 1 && (now.hour > 0 || now.minute > 0 || now.second > 0)
    requires t.transactionDate == NextDay(now).(hour := 0, minute := 0, second := 0)
    ensures "transaction_date" !in TransactionErrors(map[], t, now)
  {
  }

  // ---------------------------------------------------------------- ParseTransactionForm

  const AmountFormatError := "invalid amount format"
  const CategoryIdFormatError := "invalid category ID format"
  const DateFormatError := "invalid date format. Use YYYY-MM-DD"
  const IdFormatError := "invalid ID format"

  /** `form[key]` on a Go map: the empty string for a missing key. */
  function FormValue(form: map<string, string>, key: string): string {
    if key in form then form[key] else ""
  }

  /** The amount field is present and `strconv.ParseFloat` (the parameter) refuses it. */
  predicate AmountInvalid(form: map<string, string>, parseFloat: string -> Option<real>) {
    FormValue(form, "amount") != "" && parseFloat(FormValue(form, "amount")).None?
  }

  predicate IntFieldInvalid(form: map<string, string>, key: string) {
    FormValue(form, key) != "" && Atoi(FormValue(form, key)).None?
  }

  predicate DateInvalid(form: map<string, string>) {
    FormValue(form, "transaction_date") != "" && ParseDate(FormValue(form, "transaction_date")).None?
  }

  /**
   * ParseTransactionForm: each present field is converted, the first field that
   * fails to convert (in the order amount, category_id, transaction_date, id)
   * decides the error, and absent fields keep their zero values. `parseFloat`
   * stands for `strconv.ParseFloat(s, 64)`.
   */
  function ParseTransactionForm(form: map<string, string>, parseFloat: string -> Option<real>): (r: Result<Transaction, string>)
    ensures r.Failure? <==>
      AmountInvalid(form, parseFloat) || IntFieldInvalid(form, "category_id")
      || DateInvalid(form) || IntFieldInvalid(form, "id")
    ensures r.Failure? ==>
              r.error == (if AmountInvalid(form, parseFloat) then AmountFormatError
                          else if IntFieldInvalid(form, "category_id") then CategoryIdFormatError
                          else if DateInvalid(form) then DateFormatError
                          else IdFormatError)
    ensures r.Success? ==>
      && r.value.description == FormValue(form, "description")
      && (FormValue(form, "amount") == "" ==> r.value.amount == 0.0)
      && (FormValue(form, "amount") != "" ==> parseFloat(FormValue(form, "amount")) == Some(r.value.amount))
      && (FormValue(form, "category_id") == "" ==> r.value.categoryId == 0)
      && (FormValue(form, "category_id") != "" ==> Atoi(FormValue(form, "category_id")) == Some(r.value.categoryId))
      && (FormValue(form, "transaction_date") == "" ==> IsZero(r.value.transactionDate))
      && (FormValue(form, "transaction_date") != "" ==>
            ParseDate(FormValue(form, "transaction_date")) == Some(r.value.transactionDate))
      && (FormValue(form, "id") == "" ==> r.value.id == 0)
      && (FormValue(form, "id") != "" ==> Atoi(FormValue(form, "id")) == Some(r.value.id))
      && r.value.categoryName == "" && r.value.categoryType == ""
      && IsZero(r.value.createdAt) && IsZero(r.value.updatedAt)
  {
    var amountText := FormValue(form, "amount");
    if amountText != "" && parseFloat(amountText).None? then Failure(AmountFormatError)
    else
      var amount := if amountText != "" then parseFloat(amountText).value else 0.0;
      var description := FormValue(form, "description");
      var categoryText := FormValue(form, "category_id");
      if categoryText != "" && Atoi(categoryText).None? then Failure(CategoryIdFormatError)
      else
        var categoryId := if categoryText != "" then Atoi(categoryText).value else 0;
        var dateText := FormValue(form, "transaction_date");
        if dateText != "" && ParseDate(dateText).None? then Failure(DateFormatError)
        else
          var date := if dateText != "" then ParseDate(dateText).value else Zero;
          var idText := FormValue(form, "id");
          if idText != "" && Atoi(idText).None? then Failure(IdFormatError)
          else
            var id := if idText != "" then Atoi(idText).value else 0;
            Success(EmptyTransaction.(id := id, amount := amount, description := description,
                                      categoryId := categoryId, transactionDate := date))
  }

  /** The form the edit page would post for a stored transaction. */
  function FormOf(t: Transaction, amountText: string): map<string, string>
    requires 0 <= t.transactionDate.year <= 9999
  {
    map["amount" := amountText, "description" := t.description,
        "category_id" := FormatInt(t.categoryId),
        "transaction_date" := FormatDate(t.transactionDate),
        "id" := FormatInt(t.id)]
  }

  /**
   * Writing a transaction's stored fields into a form and parsing it gives them
   * back, provided the amount's text parses to the amount.
   */
  lemma ParseFormOfTransaction(t: Transaction, amountText: string, parseFloat: string -> Option<real>)
    requires amountText != "" && parseFloat(amountText) == Some(t.amount)
    requires MinInt64 <= t.id <= MaxInt64 && MinInt64 <= t.categoryId <= MaxInt64
    requires 0 <= t.transactionDate.year <= 9999
    requires t.transactionDate.hour == 0 && t.transactionDate.minute == 0 && t.transactionDate.second == 0
    ensures ParseTransactionForm(FormOf(t, amountText), parseFloat) ==
      Success(EmptyTransaction.(id := t.id, amount := t.amount, description := t.description,
                                categoryId := t.categoryId, transactionDate := t.transactionDate))
  {
    var form := FormOf(t, amountText);
    assert FormValue(form, "amount") == amountText;
    assert FormValue(form, "description") == t.description;
    assert FormValue(form, "category_id") == FormatInt(t.categoryId);
    assert FormValue(form, "transaction_date") == FormatDate(t.transactionDate);
    assert FormValue(form, "id") == FormatInt(t.id);
    AtoiFormatInt(t.categoryId);
    AtoiFormatInt(t.id);
    ParseFormatDate(t.transactionDate);
  }

  // ---------------------------------------------------------------- GetSummary

  /** One row of `SELECT c.type, SUM(t.amount) ... GROUP BY c.type`, or one `rows.Scan` failed on. */
  datatype ScanRow = Row(categoryType: string, total: real) | Unscannable

  /** What the aggregate query produced: an error, or rows followed by `rows.Err()`. */
  datatype SummaryQuery = QueryFailed | Fetched(rows: seq<ScanRow>, iterationFailed: bool)

  /** The total of the last row of the given type, or 0 when there is none. */
  function LastTotal(rows: seq<ScanRow>, categoryType: string): real
  {
    if rows == [] then 0.0
    else match rows[|rows| - 1]
      case Row(ty, total) => if ty == categoryType then total else LastTotal(rows[..|rows| - 1], categoryType)
      case Unscannable => LastTotal(rows[..|rows| - 1], categoryType)
  }

  /** The position of the first row that cannot be scanned, or |rows| when all can. */
  function FirstUnscannable(rows: seq<ScanRow>): (n: nat)
    ensures n <= |rows|
    ensures forall k :: 0 <= k < n ==> rows[k].Row?
    ensures n < |rows| ==> rows[n].Unscannable?
  {
    if rows == [] || rows[0].Unscannable? then 0 else 1 + FirstUnscannable(rows[1..])
  }

  function Totals(income: real, expense: real, balance: real): map<string, real> {
    map["totalIncome" := income, "totalExpense" := expense, "balance" := balance]
  }

  /** The summary of a clean run: the income and expense totals and their difference. */
  function Summary(rows: seq<ScanRow>): (m: map<string, real>)
    ensures m.Keys == {"totalIncome", "totalExpense", "balance"}
    ensures m["totalIncome"] == LastTotal(rows, "income") && m["totalExpense"] == LastTotal(rows, "expense")
    ensures m["balance"] == m["totalIncome"] - m["totalExpense"]
  {
    var income := LastTotal(rows, "income");
    var expense := LastTotal(rows, "expense");
    Totals(income, expense, income - expense)
  }

  /**
   * GetSummary after its query: `income` and `expense` rows overwrite their
   * slot, other types are skipped, and the balance is set only when nothing
   * failed. On a failure the map built so far is returned with the error.
   */
  method GetSummary(query: SummaryQuery) returns (summary: map<string, real>, failed: bool)
    ensures query.QueryFailed? ==> failed && summary == Totals(0.0, 0.0, 0.0)
    ensures query.Fetched? ==>
      var clean := query.rows[..FirstUnscannable(query.rows)];
      && (failed <==> clean != query.rows || query.iterationFailed)
      && (failed ==> summary == Totals(LastTotal(clean, "income"), LastTotal(clean, "expense"), 0.0))
      && (!failed ==> summary == Summary(query.rows))
  {
    summary := Totals(0.0, 0.0, 0.0);
    if query.QueryFailed? {
      return summary, true;
    }
    var rows := query.rows;
    var i := 0;
    while i < |rows|
      invariant 0 <= i <= |rows|
      invariant forall k :: 0 <= k < i ==> rows[k].Row?
      invariant summary == Totals(LastTotal(rows[..i], "income"), LastTotal(rows[..i], "expense"), 0.0)
    {
      assert rows[..i + 1][..i] == rows[..i];
      match rows[i]
      case Unscannable =>
        assert FirstUnscannable(rows) == i;
        return summary, true;
      case Row(categoryType, total) =>
        if categoryType == "income" {
          summary := summary["totalIncome" := total];
        } else if categoryType == "expense" {
          summary := summary["totalExpense" := total];
        }
      i := i + 1;
    }
    assert rows[..i] == rows;
    if query.iterationFailed {
      return summary, true;
    }
    summary := summary["balance" := summary["totalIncome"] - summary["totalExpense"]];
    failed := false;
  }

  /** A row of a type other than the one asked about does not change its total. */
  lemma {:induction false} LastTotalSkipsOtherType(before: seq<ScanRow>, after: seq<ScanRow>, other: ScanRow, categoryType: string)
    requires other.Unscannable? || other.categoryType != categoryType
    ensures LastTotal(before + [other] + after, categoryType) == LastTotal(before + after, categoryType)
  {
    if after == [] {
      assert (before + [other] + after)[..|before|] == before;
      assert before + after == before;
    } else {
      var init := after[..|after| - 1];
      LastTotalSkipsOtherType(before, init, other, categoryType);
      assert (before + [other] + after)[..|before + [other] + after| - 1] == before + [other] + init;
      assert (before + after)[..|before + after| - 1] == before + init;
    }
  }

  /** Rows whose type is neither income nor expense do not affect the summary. */
  lemma SummaryIgnoresOtherTypes(before: seq<ScanRow>, after: seq<ScanRow>, categoryType: string, total: real)
    requires categoryType != "income" && categoryType != "expense"
    ensures Summary(before + [Row(categoryType, total)] + after) == Summary(before + after)
  {
    LastTotalSkipsOtherType(before, after, Row(categoryType, total), "income");
    LastTotalSkipsOtherType(before, after, Row(categoryType, total), "expense");
  }

  /** The total reported for a type is that of its last row: later rows overwrite earlier ones. */
  lemma {:induction false} LastTotalIsLastRow(rows: seq<ScanRow>, i: nat, categoryType: string)
    requires i < |rows| && rows[i].Row? && rows[i].categoryType == categoryType
    requires forall k :: i < k < |rows| ==> rows[k].Unscannable? || rows[k].categoryType != categoryType
    ensures LastTotal(rows, categoryType) == rows[i].total
  {
    if i < |rows| - 1 {
      LastTotalIsLastRow(rows[..|rows| - 1], i, categoryType);
    }
  }

  /** A reported total is 0 or the total of one of the rows of that type. */
  lemma {:induction false} LastTotalIsARow(rows: seq<ScanRow>, categoryType: string)
    ensures LastTotal(rows, categoryType) == 0.0 || Row(categoryType, LastTotal(rows, categoryType)) in rows
  {
    if rows != [] {
      var init := rows[..|rows| - 1];
      LastTotalIsARow(init, categoryType);
      assert rows == init + [rows[|rows| - 1]];
    }
  }

  /** A type with no row has total 0; in particular no rows give an all-zero summary. */
  lemma {:induction false} LastTotalWithoutRow(rows: seq<ScanRow>, categoryType: string)
    requires forall k :: 0 <= k < |rows| ==> rows[k].Unscannable? || rows[k].categoryType != categoryType
    ensures LastTotal(rows, categoryType) == 0.0
  {
    if rows != [] {
      LastTotalWithoutRow(rows[..|rows| - 1], categoryType);
    }
  }

  lemma EmptySummary()
    ensures Summary([]) == Totals(0.0, 0.0, 0.0)
  {
  }
}
