/**
 * The query-building half of GetTransactions: a filter becomes the text of a
 * PostgreSQL statement with positional parameters `$1..$n` and the ordered
 * argument list they bind. Filter values travel only as arguments; the sort
 * column and direction come from closed whitelists.
 */
module TransactionQuery {
  import opened GoTime
  import opened GoStrconv
  import opened Transactions

  /**
   * The fixed SELECT ... WHERE 1=1 text of GetTransactions. The pieces
   * concatenate to that one literal; it is split only so that the absence of
   * '$' can be shown one short piece at a time (BaseQueryPlain and the lemmas
   * it calls), which keeps each proof small.
   */
  const SelectList: string := SelectIds + SelectNames
  const SelectIds: string :=
    "\n        SELECT t.id, t.amount, "
    + "t.description, t.category_id, "
  const SelectNames: string :=
    "c.name, c.type, t.transaction_date, "
    + "t.created_at, t.updated_at"
  const FromClause: string :=
    "\n        FROM transactions t"
    + "\n        JOIN categories c "
    + "ON t.category_id = c.id"
    + "\n        WHERE 1=1"
  const BaseQuery: string := SelectList + FromClause

  /** The four optional criteria, in the order their clauses are appended. */
  datatype Criterion = ByCategoryId | ByCategoryType | FromDate | ToDate

  function Rank(c: Criterion): nat {
    match c
    case ByCategoryId => 0
    case ByCategoryType => 1
    case FromDate => 2
    case ToDate => 3
  }

  function Column(c: Criterion): string {
    match c
    case ByCategoryId => "t.category_id"
    case ByCategoryType => "c.type"
    case FromDate => "t.transaction_date"
    case ToDate => "t.transaction_date"
  }

  function Operator(c: Criterion): string {
    match c
    case ByCategoryId => "="
    case ByCategoryType => "="
    case FromDate => ">="
    case ToDate => "<="
  }

  /** Whether the filter asks for this criterion. */
  predicate IsActive(f: TransactionFilter, c: Criterion) {
    match c
    case ByCategoryId => f.categoryId > 0
    case ByCategoryType => f.categoryType != ""
    case FromDate => !IsZero(f.startDate)
    case ToDate => !IsZero(f.endDate)
  }

  /** A bound query argument (`interface{}` in the source). */
  datatype Arg = IntArg(i: int) | TextArg(s: string) | TimeArg(t: Time)

  /** The value a criterion's placeholder binds. */
  function ArgOf(f: TransactionFilter, c: Criterion): Arg {
    match c
    case ByCategoryId => IntArg(f.categoryId)
    case ByCategoryType => TextArg(f.categoryType)
    case FromDate => TimeArg(f.startDate)
    case ToDate => TimeArg(f.endDate)
  }

  /**
   * A criterion applies exactly when the value it would bind is set: a
   * positive id, a non-empty type or a non-zero time.
   */
  lemma ActiveWhenValueSet(f: TransactionFilter, c: Criterion)
    ensures IsActive(f, c) <==> match ArgOf(f, c)
      case IntArg(i) => i > 0
      case TextArg(s) => s != ""
      case TimeArg(t) => !IsZero(t)
  {
  }

  /** The criteria that get a clause: exactly the active ones, in the fixed order. */
  function ActiveCriteria(f: TransactionFilter): (cs: seq<Criterion>)
    ensures forall i, j :: 0 <= i < j < |cs| ==> Rank(cs[i]) < Rank(cs[j])
    ensures forall c :: c in cs <==> IsActive(f, c)
  {
    IfActive(f, ByCategoryId) + IfActive(f, ByCategoryType) + IfActive(f, FromDate) + IfActive(f, ToDate)
  }

  function IfActive(f: TransactionFilter, c: Criterion): seq<Criterion> {
    if IsActive(f, c) then [c] else []
  }

  /** The arguments pushed for `cs`, one per criterion, in the same order. */
  function Args(f: TransactionFilter, cs: seq<Criterion>): (args: seq<Arg>)
    ensures |args| == |cs|
    ensures forall i :: 0 <= i < |cs| ==> args[i] == ArgOf(f, cs[i])
  {
    if cs == [] then [] else Args(f, cs[..|cs| - 1]) + [ArgOf(f, cs[|cs| - 1])]
  }

  /** The clause for a criterion bound to placeholder `$k`. */
  function Condition(c: Criterion, k: nat): string {
    " AND " + Column(c) + " " + Operator(c) + " $" + FormatNat(k)
  }

  /** The clauses for `cs`, the i-th of them (from 0) using placeholder `$(i+1)`. */
  function Conditions(cs: seq<Criterion>): string {
    if cs == [] then "" else Conditions(cs[..|cs| - 1]) + Condition(cs[|cs| - 1], |cs|)
  }

  /**
   * Handling one criterion: if it is active, its clause is appended with the
   * next placeholder number and its value pushed; otherwise nothing changes.
   */
  lemma Step(f: TransactionFilter, cs: seq<Criterion>, c: Criterion)
    ensures IsActive(f, c) ==> Conditions(cs + IfActive(f, c)) == Conditions(cs) + Condition(c, |cs| + 1)
    ensures IsActive(f, c) ==> Args(f, cs + IfActive(f, c)) == Args(f, cs) + [ArgOf(f, c)]
    ensures !IsActive(f, c) ==> cs + IfActive(f, c) == cs
    ensures |cs + IfActive(f, c)| == if IsActive(f, c) then |cs| + 1 else |cs|
  {
  }

  /** The sort whitelist: only "amount" and "category" pick something other than the date. */
  function SortColumn(sortBy: string): (col: string)
    ensures col == "t.amount" || col == "c.name" || col == "t.transaction_date"
    ensures col == "t.amount" <==> sortBy == "amount"
    ensures col == "c.name" <==> sortBy == "category"
  {
    if sortBy != "" && sortBy == "amount" then "t.amount"
    else if sortBy != "" && sortBy == "category" then "c.name"
    else "t.transaction_date"
  }

  /** Only the exact text "ASC" sorts ascending. */
  function SortDirection(direction: string): (dir: string)
    ensures dir == "ASC" || dir == "DESC"
    ensures dir == "ASC" <==> direction == "ASC"
  {
    if direction == "ASC" then "ASC" else "DESC"
  }

  /** The ORDER BY text: whitelisted words only, so it never carries a placeholder sign. */
  function OrderBy(f: TransactionFilter): (clause: string)
    ensures '$' !in clause
  {
    " ORDER BY " + SortColumn(f.sortBy) + " " + SortDirection(f.sortDirection)
  }

  /** The full statement text for a filter. */
  function QueryText(f: TransactionFilter): string {
    BaseQuery + Conditions(ActiveCriteria(f)) + OrderBy(f)
  }

  /**
   * GetTransactions up to the call to `database.DB.Query`: the WHERE clauses
   * with their arguments, then the ORDER BY.
   */
  method BuildTransactionQuery(filter: TransactionFilter) returns (query: string, args: seq<Arg>)
    ensures query == QueryText(filter)
    ensures args == Args(filter, ActiveCriteria(filter))
  {
    query, args := FilterClauses(filter);
    var sortBy, sortDirection := SortClause(filter);
    OrderByAppend(query, sortBy, sortDirection);
    query := query + " ORDER BY " + sortBy + " " + sortDirection;
  }

  /**
   * The WHERE part: the four criteria are tried in their fixed order, each
   * appending its clause and argument when active.
   */
  method FilterClauses(filter: TransactionFilter) returns (query: string, args: seq<Arg>)
    ensures query == BaseQuery + Conditions(ActiveCriteria(filter))
    ensures args == Args(filter, ActiveCriteria(filter))
  {
    query := BaseQuery;
    args := [];
    var paramCount := 0;
    ghost var d1 := IfActive(filter, ByCategoryId);
    ghost var d2 := d1 + IfActive(filter, ByCategoryType);
    ghost var d3 := d2 + IfActive(filter, FromDate);
    assert query == BaseQuery + Conditions([]);
    query, args, paramCount := AddCriterion(filter, ByCategoryId, query, args, paramCount, []);
    assert [] + IfActive(filter, ByCategoryId) == d1;
    query, args, paramCount := AddCriterion(filter, ByCategoryType, query, args, paramCount, d1);
    query, args, paramCount := AddCriterion(filter, FromDate, query, args, paramCount, d2);
    query, args, paramCount := AddCriterion(filter, ToDate, query, args, paramCount, d3);
  }

  /**
   * One criterion's block: when the filter asks for it, bump the parameter
   * counter, append `AND <column> <op> $<counter>` and push the value.
   * `done` are the criteria already handled; the clauses and arguments built
   * so far are theirs.
   */
  method AddCriterion(filter: TransactionFilter, c: Criterion, query: string, args: seq<Arg>,
                      paramCount: nat, ghost done: seq<Criterion>)
    returns (query': string, args': seq<Arg>, paramCount': nat)
    requires query == BaseQuery + Conditions(done) && args == Args(filter, done) && paramCount == |done|
    ensures query' == BaseQuery + Conditions(done + IfActive(filter, c))
    ensures args' == Args(filter, done + IfActive(filter, c))
    ensures paramCount' == |done + IfActive(filter, c)|
  {
    Step(filter, done, c);
    query', args', paramCount' := query, args, paramCount;
    if IsActive(filter, c) {
      paramCount' := paramCount + 1;
      AppendAssociative(BaseQuery, Conditions(done), Condition(c, paramCount'));
      query' := query + Condition(c, paramCount');
      args' := args + [ArgOf(filter, c)];
    }
  }

  /** The sort column and direction, each defaulting when the filter's text is not whitelisted. */
  method SortClause(filter: TransactionFilter) returns (sortBy: string, sortDirection: string)
    ensures sortBy == SortColumn(filter.sortBy)
    ensures sortDirection == SortDirection(filter.sortDirection)
  {
    sortBy := "t.transaction_date";
    if filter.sortBy != "" {
      if filter.sortBy == "amount" {
        sortBy := "t.amount";
      } else if filter.sortBy == "category" {
        sortBy := "c.name";
      } else if filter.sortBy == "date" {
        sortBy := "t.transaction_date";
      }
    }

    sortDirection := "DESC";
    if filter.sortDirection == "ASC" {
      sortDirection := "ASC";
    }
  }

  /**
   * Sequence facts Dafny knows already. Calling them at a chosen point names
   * the one regrouping a proof needs, so the solver does not search for it
   * among long string literals.
   */
  lemma AppendAssociative(a: string, b: string, c: string)
    ensures a + b + c == a + (b + c)
  {
  }

  /** The ORDER BY suffix regrouped as one piece; a hint like AppendAssociative. */
  lemma OrderByAppend(query: string, column: string, direction: string)
    ensures query + " ORDER BY " + column + " " + direction == query + (" ORDER BY " + column + " " + direction)
  {
  }

  // ---------------------------------------------------------------- placeholders

  /** Length of the run of decimal digits at the start of `s`. */
  function DigitRun(s: string): (n: nat)
    ensures n <= |s|
    ensures forall k :: 0 <= k < n ==> IsDigit(s[k])
    ensures n < |s| ==> !IsDigit(s[n])
    decreases |s|
  {
    if s != [] && IsDigit(s[0]) then 1 + DigitRun(s[1..]) else 0
  }

  /** The numbers of the positional parameters `$n` in `s`, in the order they occur. */
  function Placeholders(s: string): seq<nat>
    decreases |s|
  {
    if s == [] then []
    else if s[0] == '$' && DigitRun(s[1..]) > 0 then
      var n := DigitRun(s[1..]);
      [DigitsValue(s[1..1 + n])] + Placeholders(s[1 + n..])
    else Placeholders(s[1..])
  }

  /** Text without a dollar sign contributes no placeholder. */
  lemma {:induction false} PlaceholdersSkipPlainText(a: string, b: string)
    requires '$' !in a
    ensures Placeholders(a + b) == Placeholders(b)
  {
    if a == [] {
      assert a + b == b;
    } else {
      assert (a + b)[0] == a[0] && a[0] != '$';
      assert (a + b)[1..] == a[1..] + b;
      PlaceholdersSkipPlainText(a[1..], b);
    }
  }

  lemma {:induction false} DigitRunOfDigits(digits: string, rest: string)
    requires AllDigits(digits)
    requires rest == [] || !IsDigit(rest[0])
    ensures DigitRun(digits + rest) == |digits|
  {
    if digits != [] {
      assert (digits + rest)[1..] == digits[1..] + rest;
      DigitRunOfDigits(digits[1..], rest);
    }
  }

  /** `$k` followed by a non-digit reads as placeholder number k. */
  lemma PlaceholderNumber(k: nat, rest: string)
    requires rest == [] || !IsDigit(rest[0])
    ensures Placeholders("$" + FormatNat(k) + rest) == [k] + Placeholders(rest)
  {
    var s := "$" + FormatNat(k) + rest;
    var digits := FormatNat(k);
    assert s[1..] == digits + rest;
    DigitRunOfDigits(digits, rest);
    assert s[1..1 + |digits|] == digits;
    assert s[1 + |digits|..] == rest;
    FormatNatValue(k);
  }

  function Ordinals(n: nat): (r: seq<nat>)
    ensures |r| == n && forall i :: 0 <= i < n ==> r[i] == i + 1
  {
    if n == 0 then [] else Ordinals(n - 1) + [n]
  }

  lemma BaseQueryPlain()
    ensures '$' !in BaseQuery
  {
    SelectListPlain();
    FromClausePlain();
  }

  lemma SelectListPlain()
    ensures '$' !in SelectList
  {
    SelectIdsPlain();
    SelectNamesPlain();
  }

  lemma SelectIdsPlain()
    ensures '$' !in SelectIds
  {
    assert '$' !in "\n        SELECT t.id, t.amount, ";
    assert '$' !in "t.description, t.category_id, ";
  }

  lemma SelectNamesPlain()
    ensures '$' !in SelectNames
  {
    assert '$' !in "c.name, c.type, t.transaction_date, ";
    assert '$' !in "t.created_at, t.updated_at";
  }

  lemma FromClausePlain()
    ensures '$' !in FromClause
  {
    assert '$' !in "\n        FROM transactions t";
    assert '$' !in "\n        JOIN categories c ";
    assert '$' !in "ON t.category_id = c.id";
    assert '$' !in "\n        WHERE 1=1";
  }

  lemma ConditionPrefixPlain(c: Criterion)
    ensures '$' !in " AND " + Column(c) + " " + Operator(c) + " "
  {
    assert '$' !in Column(c) && '$' !in Operator(c);
  }

  /** The clauses for `cs` carry the placeholders `$1..$|cs|`, in order. */
  lemma {:induction false} ConditionsPlaceholders(cs: seq<Criterion>, tail: string)
    requires tail == [] || tail[0] == ' '
    ensures Placeholders(Conditions(cs) + tail) == Ordinals(|cs|) + Placeholders(tail)
  {
    if cs == [] {
      assert Conditions(cs) + tail == tail;
    } else {
      var n := |cs|;
      var init := cs[..n - 1];
      var clause := Condition(cs[n - 1], n);
      assert Conditions(cs) + tail == Conditions(init) + (clause + tail) by {
        AppendAssociative(Conditions(init), clause, tail);
      }
      ConditionPlaceholder(cs[n - 1], n, tail);
      ConditionsPlaceholders(init, clause + tail);
      OrdinalsStep(n, Placeholders(tail));
    }
  }

  lemma OrdinalsStep(n: nat, rest: seq<nat>)
    requires n > 0
    ensures Ordinals(n - 1) + ([n] + rest) == Ordinals(n) + rest
  {
  }

  /** One clause, followed by text starting with a space, reads as its own placeholder number. */
  lemma ConditionPlaceholder(c: Criterion, k: nat, tail: string)
    requires tail == [] || tail[0] == ' '
    ensures (Condition(c, k) + tail)[0] == ' '
    ensures Placeholders(Condition(c, k) + tail) == [k] + Placeholders(tail)
  {
    var head := " AND " + Column(c) + " " + Operator(c);
    var digits := FormatNat(k);
    var plain := head + " ";
    var numbered := "$" + digits + tail;
    assert Condition(c, k) + tail == plain + numbered by {
      assert " $" == " " + "$";
      AppendAssociative(head + " $", digits, tail);
      AppendAssociative(head, " ", "$");
      AppendAssociative(plain, "$", digits + tail);
      AppendAssociative("$", digits, tail);
    }
    ConditionPrefixPlain(c);
    PlaceholdersSkipPlainText(plain, numbered);
    PlaceholderNumber(k, tail);
  }

  /**
   * The statement's placeholders are exactly `$1..$n` in order, where n is the
   * number of arguments: with BuildTransactionQuery's contract, placeholder
   * `$k` binds `args[k-1]`, the value of the k-th active criterion.
   */
  lemma QueryPlaceholdersMatchArgs(f: TransactionFilter)
    ensures Placeholders(QueryText(f)) == Ordinals(|ActiveCriteria(f)|)
  {
    var cs := ActiveCriteria(f);
    var rest := Conditions(cs) + OrderBy(f);
    assert QueryText(f) == BaseQuery + rest by {
      AppendAssociative(BaseQuery, Conditions(cs), OrderBy(f));
    }
    BaseQueryPlain();
    PlaceholdersSkipPlainText(BaseQuery, rest);
    OrderByNoPlaceholders(f);
    ConditionsPlaceholders(cs, OrderBy(f));
    assert Ordinals(|cs|) + [] == Ordinals(|cs|);
  }

  lemma OrderByNoPlaceholders(f: TransactionFilter)
    ensures OrderBy(f)[0] == ' '
    ensures Placeholders(OrderBy(f)) == []
  {
    PlaceholdersSkipPlainText(OrderBy(f), []);
    assert OrderBy(f) + [] == OrderBy(f);
  }

  /**
   * Filter values never reach the text: two filters with the same active
   * criteria and the same resolved sort give the same statement.
   */
  lemma QueryTextIgnoresValues(f: TransactionFilter, g: TransactionFilter)
    requires forall c :: IsActive(f, c) == IsActive(g, c)
    requires SortColumn(f.sortBy) == SortColumn(g.sortBy)
    requires SortDirection(f.sortDirection) == SortDirection(g.sortDirection)
    ensures QueryText(f) == QueryText(g)
  {
    assert IsActive(f, ByCategoryId) == IsActive(g, ByCategoryId);
    assert IsActive(f, ByCategoryType) == IsActive(g, ByCategoryType);
    assert IsActive(f, FromDate) == IsActive(g, FromDate);
    assert IsActive(f, ToDate) == IsActive(g, ToDate);
  }

  /** The zero filter: no clause, no argument, newest first. */
  lemma EmptyFilterQuery()
    ensures var f := TransactionFilter(0, "", Zero, Zero, "", "");
      && ActiveCriteria(f) == []
      && QueryText(f) == BaseQuery + " ORDER BY t.transaction_date DESC"
  {
    var f := TransactionFilter(0, "", Zero, Zero, "", "");
    assert ActiveCriteria(f) == [] by {
      assert IfActive(f, ByCategoryId) == [] && IfActive(f, ByCategoryType) == [];
      assert IfActive(f, FromDate) == [] && IfActive(f, ToDate) == [];
    }
    AppendEmpty(BaseQuery);
    DefaultOrderBy(f);
  }

  /** With neither sort field set, the listing is newest first. */
  lemma DefaultOrderBy(f: TransactionFilter)
    requires f.sortBy == "" && f.sortDirection == ""
    ensures OrderBy(f) == " ORDER BY t.transaction_date DESC"
  {
  }

  /** Appending the empty string; a hint like AppendAssociative. */
  lemma AppendEmpty(s: string)
    ensures s + "" == s
  {
  }
}
