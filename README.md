# Finance tracker core, modelled in Dafny

This project models the rule logic of a small Go personal-finance web application. The application records income and expense transactions against categories, lists them with filters and sorting, and shows a monthly summary. The modelled parts are:

- **The field-error accumulator** (`validator.Validator`). It maps form fields to messages, the first message recorded for a field wins, and nothing is ever removed. The model is a Dafny class over a `map<string, string>`. Its predicates `NotBlank`, `MaxLength`, `MinLength` and `IsValidDate` are functions.
- **The domain checks.** `ValidateTransaction` and `ValidateCategory` are sequences of `Check` calls on a validator. `ParseTransactionForm` turns a form map into a `Transaction` or the first conversion error.
- **The listing query builder**, the first half of `GetTransactions`. It appends `AND <column> <op> $k` clauses and pushes one argument per active filter criterion, then adds an `ORDER BY` picked from closed whitelists. The proofs show that:
  - the placeholders in the text are exactly `$1..$n` in order, with `n` the number of arguments;
  - the sort text never comes from the request.
- **The summary fold** of `GetSummary`, over the rows its aggregate query returned.
- **Query-parameter normalisation** (`parseTransactionFilter`). It turns the page's URL query and two readings of the current time into a `TransactionFilter`.
- **The database package's string helpers**: `ValidateRequired`, `ValidateMaxLength` (which counts bytes) and `Truncate` (which cuts a byte prefix).

The Go standard-library behaviour these rely on is modelled concretely in its own modules:

- `strings.TrimSpace` with `unicode.IsSpace`;
- UTF-8 byte length;
- `strconv.Atoi`, including its 64-bit range;
- `time.Parse` with the layout `2006-01-02`;
- `AddDate(0, 0, 1)`;
- the month-boundary `time.Date` calls;
- `Time.IsZero` and `Time.Before`.

Strings are sequences of Unicode code points, so a Go rune count is the sequence length. Dates are civil date-times with Go's zero time, 0001-01-01 00:00:00. The current time is a parameter; where the source reads the clock twice, there are two parameters.

Files, one module each:

- `wrappers.dfy`: `Option` and `Result`.
- `gostrings.dfy`: white space, trimming and UTF-8 length.
- `gostrconv.dfy`: decimal digits, `Atoi` and number formatting.
- `gotime.dfy`: dates, ordering, next day, month bounds, and date parsing and formatting.
- `validator.dfy`: internal/validator/validator.go.
- `database.dfy`: the helpers in internal/database/db.go.
- `transaction.dfy`: internal/models/transaction.go (records, validation, form parsing, summary).
- `transaction_query.dfy`: the query-building part of `GetTransactions`.
- `category.dfy`: internal/models/category.go (`ValidateCategory`).
- `handlers.dfy`: `parseTransactionFilter` in internal/handlers/transactions.go.

## Model

| member | source | states |
|---|---|---|
| Validator.Validator.constructor | internal/validator/validator.go:13-17 | a new validator has an empty error map and is valid |
| Validator.Validator.ValidData | internal/validator/validator.go:19-21 | valid exactly when no field has an error |
| Validator.WithError | internal/validator/validator.go:23-27 | first message wins: an existing field leaves the map unchanged; a new field gets the message; no other key is added, removed or changed |
| Validator.Validator.AddError | internal/validator/validator.go:23-27 | the new error map is the old one with the field's first message recorded |
| Validator.Checked | internal/validator/validator.go:29-33 | a passing check changes nothing; a failing check puts the field in the map, keeps every earlier entry and touches no other key |
| Validator.Validator.Check | internal/validator/validator.go:29-33 | the new error map is the old one after the check |
| Validator.FirstCheckOnFresh | internal/validator/validator.go:13-33 | on a fresh validator a check leaves it empty when it passes and records exactly the one field and message when it fails |
| Validator.ExtendsTransitive | internal/validator/validator.go:23-33 | the keep-every-entry relation between error maps is transitive: if a second map keeps every entry of a first and a third keeps every entry of the second, the third keeps every entry of the first |
| Validator.NotBlank | internal/validator/validator.go:36-38 | true exactly when some character is not white space, so false for "" and all-space text |
| Validator.MaxLength | internal/validator/validator.go:41-43 | passes exactly when the number of code points utf8.RuneCountInString counts in the value's UTF-8 bytes is at most n; so the limit counts code points, not bytes: a negative limit refuses everything, a value of at most n bytes always passes, a passing value has at most 4n bytes, and for ASCII text passing means at most n bytes |
| Validator.MinLength | internal/validator/validator.go:46-48 | passes exactly when the number of code points utf8.RuneCountInString counts in the value's UTF-8 bytes is at least n; a limit of 0 or less accepts everything, a value of fewer than n bytes always fails, a passing value has at least n bytes, and for ASCII text passing means at least n bytes |
| Validator.IsValidDate | internal/validator/validator.go:57-60 | a matching value is ten ASCII characters, so ten bytes, with digit runs of four, two and two characters |
| Validator.MaxMinLengthComplement | internal/validator/validator.go:41-48 | for every string and n, exactly one of MaxLength(s, n) and MinLength(s, n+1) holds, counting code points |
| GoStrings.TrimSpace | internal/validator/validator.go:37 | the result is the infix of the input that starts after its leading white space; everything after it is white space; it neither starts nor ends with white space; it is empty exactly when the input is all white space |
| GoStrings.LeadingSpace | internal/validator/validator.go:37 | the length of the maximal white-space prefix |
| GoStrings.TrailingSpace | internal/validator/validator.go:37 | the start of the maximal white-space suffix |
| GoStrings.EncodeRune | internal/database/db.go:64 | a code point encodes to one byte below U+0080 (the byte is the code point), two below U+0800, three below U+10000 and four above; every byte after the first is a continuation byte |
| GoStrings.Utf8Encode | internal/database/db.go:64 | a string's UTF-8 length lies between its code-point count and four times it |
| GoStrings.RuneCountEncode | internal/validator/validator.go:42 | counting the bytes of a string's UTF-8 encoding that are not continuation bytes, as utf8.RuneCountInString does, gives its number of code points |
| GoStrings.ByteLengthBounds | internal/database/db.go:64 | the byte length lies between the rune count and four times it, and equals the rune count exactly for ASCII text |
| Validator.IsValidDateMatchesLayout | internal/validator/validator.go:57-60 | IsValidDate holds exactly for text shaped like the layout 2006-01-02; every date time.Parse accepts passes it; a shaped string is refused by the parser only for an impossible month or day |
| Database.ValidateRequired | internal/database/db.go:59-61 | false exactly when the value is empty or all white space |
| Database.ValidateMaxLength | internal/database/db.go:63-65 | acceptance bounds the code-point count too; for ASCII text it is exactly the code-point count against the limit |
| Database.Truncate | internal/database/db.go:73-78 | the result is a prefix of the value of length min(len, maxLength), and is the value itself when it fits |
| Database.TruncateIdempotent | internal/database/db.go:73-78 | truncating twice to the same limit is truncating once |
| Database.TruncateKeepsValidString | internal/database/db.go:63-78 | Truncate leaves a string's bytes unchanged exactly when ValidateMaxLength accepts it |
| GoStrconv.Atoi | internal/models/transaction.go:265 | a parsed value lies in the int64 range, the text is an optional sign followed by at least one decimal digit and nothing else (so a lone sign is refused), and a negative value had a leading minus; conversely, digits, "+" then digits, or "-" then digits whose value is in range parse to that value, leading zeros included, and out of range they are refused |
| GoStrconv.AtoiExamples | internal/handlers/transactions.go:274 | "+5" reads 5, "007" reads 7 and "-0" reads 0; "", "-", "+", " 5" and "5 " are refused |
| GoStrconv.FormatInt | internal/models/transaction.go:265 | the decimal text of an integer starts with a minus sign exactly when it is negative, followed by digits without a leading zero |
| GoStrconv.AtoiFormatInt | internal/models/transaction.go:265 | every int64 written in decimal parses back to itself |
| GoStrconv.FormatNat | internal/models/transaction.go:107 | `%d` of a natural number is a non-empty digit string without a leading zero |
| GoStrconv.FormatNatValue | internal/models/transaction.go:107 | reading the `%d` text back as digits gives the number |
| GoTime.DaysIn | internal/handlers/transactions.go:305 | February has 29 days in a leap year and 28 otherwise; April, June, September and November have 30; the other seven months have 31 |
| GoTime.ZeroIsEarliest | internal/models/transaction.go:117-125 | from year 1 on no instant is before the zero time and every other instant is after it; instants of earlier years are before it and not zero |
| GoTime.BeforeIsStrictTotalOrder | internal/models/transaction.go:244 | Time.Before is irreflexive, asymmetric, transitive and total on distinct times |
| GoTime.NextDay | internal/models/transaction.go:244 | AddDate(0, 0, 1) is strictly later, keeps the wall-clock time, changes the year only on 1 January, and every instant strictly between lies on the first or the next day |
| GoTime.StartOfMonth | internal/handlers/transactions.go:293-294 | the first day of now's month is in that month and at or before every instant of it |
| GoTime.EndOfMonth | internal/handlers/transactions.go:304-305 | day 0 of the next month at 23:59:59 is in now's month and at or after every instant of it |
| GoTime.ParseDate | internal/models/transaction.go:274 | a parsed date had the exact layout shape, is at midnight and has a four-digit year |
| GoTime.FormatDate | internal/models/transaction.go:274 | formatting a date with a four-digit year gives text of the layout's shape |
| GoTime.ParseFormatDate | internal/models/transaction.go:273-279 | a midnight date written in the layout parses back to itself |
| GoTime.FormatParsedDate | internal/models/transaction.go:273-279 | every accepted date text is the canonical spelling of the date it parses to |
| Transactions.TransactionErrors | internal/models/transaction.go:230-245 | the five checks only add entries, and only under amount, description, category_id and transaction_date |
| Transactions.ValidateTransaction | internal/models/transaction.go:230-245 | the validator's new error map is the old one after the five checks in source order |
| Transactions.TransactionErrorsOnFresh | internal/models/transaction.go:230-245 | on a fresh validator each field is flagged exactly when its rule fails; a zero date reports "required", not "future" |
| Transactions.TransactionValidIff | internal/models/transaction.go:230-245 | a fresh validator stays valid exactly when all five rules hold |
| Transactions.DayAfterTomorrowRefused | internal/models/transaction.go:244 | a date two days after now gets the future-date message |
| Transactions.TomorrowAccepted | internal/models/transaction.go:244 | tomorrow's date at midnight raises no date error once now is past midnight: one day of slack |
| Transactions.ParseTransactionForm | internal/models/transaction.go:248-291 | the parse fails exactly when a present field does not convert; the error is that of the first such field; on success present fields carry their converted values, absent ones their zero values, and the description is copied verbatim |
| Transactions.ParseFormOfTransaction | internal/models/transaction.go:248-291 | a transaction's own fields written into a form parse back to the same fields |
| Transactions.FirstUnscannable | internal/models/transaction.go:205-212 | the position of the first row that fails to scan, every row before it scannable |
| Transactions.Summary | internal/models/transaction.go:184-226 | the summary has exactly the three keys; totalIncome and totalExpense are the totals of the last income and expense rows (LastTotal, characterised by LastTotalIsLastRow, LastTotalWithoutRow and LastTotalIsARow); balance = totalIncome - totalExpense |
| Transactions.GetSummary | internal/models/transaction.go:184-226 | a failed query returns the zero map; otherwise it fails exactly when a row does not scan or iteration fails, returning the totals of the rows before it with a zero balance; a clean run returns Summary of the rows |
| Transactions.SummaryIgnoresOtherTypes | internal/models/transaction.go:214-218 | rows of a type other than income and expense do not change the summary |
| Transactions.LastTotalSkipsOtherType | internal/models/transaction.go:214-218 | a row of another type, or an unscannable one, does not change a type's total |
| Transactions.LastTotalIsLastRow | internal/models/transaction.go:214-218 | a type's total is that of its last row: later rows overwrite earlier ones |
| Transactions.LastTotalIsARow | internal/models/transaction.go:214-218 | a type's total is 0 or the total of one of the rows of that type |
| Transactions.LastTotalWithoutRow | internal/models/transaction.go:185-189 | a type with no row keeps total 0 |
| Transactions.EmptySummary | internal/models/transaction.go:185-189 | no rows give all three values 0 |
| TransactionQuery.ActiveWhenValueSet | internal/models/transaction.go:105-127 | a criterion applies exactly when the value it would bind is set: a positive category id, a non-empty type, a non-zero start or end time |
| TransactionQuery.ActiveCriteria | internal/models/transaction.go:105-127 | a criterion gets a clause exactly when its filter condition holds, and clauses come in the fixed order category id, type, start date, end date |
| TransactionQuery.Args | internal/models/transaction.go:105-127 | one argument per clause, the i-th binding the i-th criterion's filter value |
| TransactionQuery.Step | internal/models/transaction.go:105-127 | handling one criterion appends its clause with the next placeholder number and its value when active, and changes nothing otherwise |
| TransactionQuery.AddCriterion | internal/models/transaction.go:105-109 | one criterion's block extends the text, the arguments and the counter to those of the criteria handled so far plus this one |
| TransactionQuery.FilterClauses | internal/models/transaction.go:94-127 | the text is the base query plus the clauses of the active criteria, and the arguments are their values in the same order |
| TransactionQuery.SortColumn | internal/models/transaction.go:130-140 | the column is t.amount, c.name or t.transaction_date; amount and category select the first two, anything else (including "") the date |
| TransactionQuery.SortDirection | internal/models/transaction.go:142-145 | the direction is ASC or DESC, and ASC exactly when the filter says "ASC" |
| TransactionQuery.SortClause | internal/models/transaction.go:130-145 | the sort column and direction are those of the two whitelists |
| TransactionQuery.BuildTransactionQuery | internal/models/transaction.go:94-147 | the statement is base query, active clauses and ORDER BY; the arguments are the active criteria's values in clause order |
| TransactionQuery.QueryPlaceholdersMatchArgs | internal/models/transaction.go:101-127 | the statement's placeholders are exactly $1..$n in order, n the number of arguments, so $k binds the k-th argument |
| TransactionQuery.ConditionsPlaceholders | internal/models/transaction.go:105-127 | the clauses for n criteria carry the placeholders $1..$n in order |
| TransactionQuery.ConditionPlaceholder | internal/models/transaction.go:107 | one clause carries exactly its own placeholder number |
| TransactionQuery.BaseQueryPlain | internal/models/transaction.go:94-98 | the base query contains no placeholder sign |
| TransactionQuery.OrderBy | internal/models/transaction.go:130-147 | the ORDER BY text, built from the two whitelists only, contains no placeholder sign |
| TransactionQuery.OrderByNoPlaceholders | internal/models/transaction.go:147 | the ORDER BY text contains no placeholder |
| TransactionQuery.DefaultOrderBy | internal/models/transaction.go:130-147 | with neither sort field set the ORDER BY text is " ORDER BY t.transaction_date DESC" |
| TransactionQuery.QueryTextIgnoresValues | internal/models/transaction.go:94-147 | filter values never reach the text: filters with the same active criteria and resolved sort give the same statement |
| TransactionQuery.EmptyFilterQuery | internal/models/transaction.go:94-147 | the zero filter gives no clause and no argument, and the base query followed by ORDER BY t.transaction_date DESC |
| Categories.CategoryErrors | internal/models/category.go:105-111 | the four checks only add entries, and only under name and type |
| Categories.ValidateCategory | internal/models/category.go:105-111 | the validator's new error map is the old one after the four checks in source order |
| Categories.CategoryErrorsOnFresh | internal/models/category.go:106-110 | a blank name is "required" even when also too long; a long non-blank name is "too long"; a blank type is "required"; any other type but income or expense gets the enumeration message |
| Categories.CategoryValidIff | internal/models/category.go:105-111 | a fresh validator stays valid exactly for a non-blank name of at most 100 code points and type income or expense |
| Categories.PaddedTypeRefused | internal/models/category.go:110 | the type is compared untrimmed: " income" gets the enumeration message |
| Handlers.Get | internal/handlers/transactions.go:273 | the first value given for the key, or "" when the key is absent or has no value; any non-empty result is one of the key's values |
| Handlers.CategoryIdParam | internal/handlers/transactions.go:273-278 | the category id is 0, or the positive value Atoi reads from the parameter; it is 0 exactly when that parse fails or is not positive |
| Handlers.DateParam | internal/handlers/transactions.go:286-306 | an absent date takes the default, a parsable one its value, a malformed one the zero time |
| Handlers.ParseTransactionFilter | internal/handlers/transactions.go:269-320 | the category id is CategoryIdParam of the parameter: 0 or a positive parsed integer; the type is "", income or expense, and is the parameter when that is one of the two; each date is DateParam of its parameter: a present, parsable date is used, a malformed one gives the zero time, an absent start defaults to the start of the first clock reading's month and an absent end to the end of the second reading's month; sort_by is copied verbatim; the direction is ASC or DESC, ASC exactly for sort_dir "ASC" |
| Handlers.MalformedStartDateDropsBound | internal/handlers/transactions.go:286-291 | a present but malformed start_date leaves the zero time, so no lower-bound clause is emitted |
| Handlers.MalformedEndDateDropsBound | internal/handlers/transactions.go:297-302 | a present but malformed end_date leaves the zero time, so no upper-bound clause is emitted |
| Handlers.FirstDateOfYearOneDropsBound | internal/handlers/transactions.go:286-291 | start_date "0001-01-01" parses to the zero time and so emits no lower bound |
| Handlers.DefaultFilter | internal/handlers/transactions.go:269-320 | with no parameters the filter has no category, the first instant of the first clock reading's month and the last instant of the second reading's month as bounds, no sort column and direction DESC |
| Handlers.DefaultRangeIsOneMonth | internal/handlers/transactions.go:291-306 | when both clock readings fall in the same month, the default bounds are in that month and every instant of it lies between them |
| Handlers.MonthQuery | internal/models/transaction.go:105-127 | a filter bounding only the date range, with a set end, yields the start and end criteria and arguments in that order, or only the end when the start is the zero time |
| Handlers.ZeroTimeText | internal/handlers/transactions.go:287 | "0001-01-01" parses to Go's zero time |
| Handlers.DefaultListing | internal/handlers/transactions.go:286-317 | with no parameters the listing is bounded below by the start of the first clock reading's month and above by the end of the second reading's month, start then end, in date order, newest first; when that start is the zero time (January of year 1) only the end bound and its argument are emitted |

## Left out

- SQL execution and row scanning are foreign calls into database/sql and the PostgreSQL driver. This covers Create, Update, Delete and GetTransactionByID in internal/models/transaction.go, the scan loop of GetTransactions, and all SQL in internal/models/category.go. The model keeps the statement text and arguments GetTransactions builds, and GetSummary's fold over rows already fetched. Rows that fail to scan and iteration errors are inputs.
- The HTTP handlers other than parseTransactionFilter, template rendering, routing, migrations, start-up, request logging, connection setup, and the browser script are request/response plumbing or I/O.
- ValidateEmail and IsValidNumeric are thin wrappers around regular expressions that the modelled code does not call.
- Float64 arithmetic: amounts are reals, so rounding, NaN and infinities are not modelled. `strconv.ParseFloat` is a function parameter of ParseTransactionForm.
- `time.Now()` is a parameter. parseTransactionFilter reads it once for each missing date bound, and those are two parameters, so a request served across a month boundary can get bounds from two different months. Time zones, monotonic readings, nanoseconds and daylight-saving shifts are not modelled: times are civil date-times at second resolution, and time.Parse yields UTC midnight. Years are unbounded integers; Go's year range limits are not modelled.
- Strings are assumed to be valid UTF-8, decoded to code points. Invalid byte sequences, which Go counts as one rune per bad byte, are not modelled.
- Database.Truncate: requires `maxLength >= 0`. In Go a negative bound makes the slice expression panic, and the model has no panics.
- Database.Truncate cuts the UTF-8 bytes of the value, as Go's byte slice does. Whether the resulting prefix is valid UTF-8 is not stated.
- Database.ValidateMaxLength: its contract states what the byte count implies about code points (an upper bound, exact for ASCII); the byte comparison itself is tied to Truncate by TruncateKeepsValidString.
- GoTime.NextDay: only the calendar step of AddDate(0, 0, 1) is modelled, with no time-zone normalisation.
