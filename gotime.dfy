/**
 * The slice of Go's `time` package the tracker uses: instants as civil date
 * and wall-clock time in one location, the zero instant, `Before`,
 * `AddDate(0, 0, 1)`, the month boundaries built with `time.Date`, and
 * `time.Parse` with the layout "2006-01-02".
 */
module GoTime {
  import opened Wrappers
  import opened GoStrconv

  predicate IsLeap(year: int) {
    year % 4 == 0 && (year % 100 != 0 || year % 400 == 0)
  }

  function DaysIn(month: int, year: int): (n: int)
    requires 1 <= month <= 12
    ensures 28 <= n <= 31
    ensures n == 28 <==> month == 2 && !IsLeap(year)
    ensures n == 29 <==> month == 2 && IsLeap(year)
    ensures n == 30 <==> month == 4 || month == 6 || month == 9 || month == 11
    ensures n == 31 <==> month == 1 || month == 3 || month == 5 || month == 7 || month == 8 || month == 10 || month == 12
  {
    if month == 2 then (if IsLeap(year) then 29 else 28)
    else if month == 4 || month == 6 || month == 9 || month == 11 then 30
    else 31
  }

  datatype DateTime = DateTime(year: int, month: int, day: int, hour: int, minute: int, second: int)
  {
    /** A normalised instant, as every Go `time.Time` is. */
    predicate Valid() {
      && 1 <= month <= 12 && 1 <= day <= DaysIn(month, year)
      && 0 <= hour < 24 && 0 <= minute < 60 && 0 <= second < 60
    }
  }

  type Time = t: DateTime | t.Valid() witness DateTime(1, 1, 1, 0, 0, 0)

  /** `time.Time{}`: January 1, year 1, 00:00:00. */
  const Zero: Time := DateTime(1, 1, 1, 0, 0, 0)

  predicate IsZero(t: Time) { t == Zero }

  /**
   * From year 1 on, the zero time is the earliest instant: nothing is before
   * it, and every other instant is after it. Years before 1 are instants
   * too, and earlier still.
   */
  lemma ZeroIsEarliest(t: Time)
    ensures t.year >= 1 ==> !Before(t, Zero)
    ensures t.year >= 1 ==> (IsZero(t) <==> !Before(Zero, t))
    ensures t.year < 1 ==> Before(t, Zero) && !IsZero(t)
  {
  }

  /** `t.Before(u)`: the instant `t` is strictly earlier than `u`. */
  predicate Before(t: Time, u: Time) {
    if t.year != u.year then t.year < u.year
    else if t.month != u.month then t.month < u.month
    else if t.day != u.day then t.day < u.day
    else if t.hour != u.hour then t.hour < u.hour
    else if t.minute != u.minute then t.minute < u.minute
    else t.second < u.second
  }

  /** Before is a strict total order on instants. */
  lemma BeforeIsStrictTotalOrder(t: Time, u: Time, w: Time)
    ensures !Before(t, t)
    ensures Before(t, u) ==> !Before(u, t)
    ensures Before(t, u) && Before(u, w) ==> Before(t, w)
    ensures t != u ==> Before(t, u) || Before(u, t)
  {
  }

  /** `t.AddDate(0, 0, 1)`: the same wall-clock time on the next calendar day. */
  function NextDay(t: Time): (r: Time)
    ensures Before(t, r)
    ensures r.hour == t.hour && r.minute == t.minute && r.second == t.second
    ensures r.year == t.year || (r.year == t.year + 1 && r.month == 1 && r.day == 1)
    ensures forall u: Time :: Before(t, u) && Before(u, r) ==>
              (u.year == t.year && u.month == t.month && u.day == t.day)
              || (u.year == r.year && u.month == r.month && u.day == r.day)
  {
    if t.day < DaysIn(t.month, t.year) then t.(day := t.day + 1)
    else if t.month < 12 then t.(month := t.month + 1, day := 1)
    else t.(year := t.year + 1, month := 1, day := 1)
  }

  /** `time.Date(y, m, 1, 0, 0, 0, 0, loc)`: the first instant of `now`'s month. */
  function StartOfMonth(now: Time): (r: Time)
    ensures r.year == now.year && r.month == now.month
    ensures r == now || Before(r, now)
    ensures forall u: Time :: u.year == now.year && u.month == now.month ==> r == u || Before(r, u)
  {
    DateTime(now.year, now.month, 1, 0, 0, 0)
  }

  /**
   * `time.Date(y, m+1, 0, 23, 59, 59, 0, loc)`: day 0 of the next month
   * normalises to the last day of `now`'s month, at 23:59:59.
   */
  function EndOfMonth(now: Time): (r: Time)
    ensures r.year == now.year && r.month == now.month
    ensures r == now || Before(now, r)
    ensures forall u: Time :: u.year == now.year && u.month == now.month ==> u == r || Before(u, r)
  {
    DateTime(now.year, now.month, DaysIn(now.month, now.year), 23, 59, 59)
  }

  /** The text shape of the layout "2006-01-02": four digits, dash, two digits, dash, two digits. */
  predicate HasDateLayout(s: string) {
    && |s| == 10
    && AllDigits(s[0..4]) && s[4] == '-' && AllDigits(s[5..7]) && s[7] == '-' && AllDigits(s[8..10])
  }

  /**
   * `time.Parse("2006-01-02", s)`: the layout must match exactly, the month
   * must lie in 1..12 and the day in 1..DaysIn; the result is midnight.
   */
  function ParseDate(s: string): (r: Option<Time>)
    ensures r.Some? ==> HasDateLayout(s)
    ensures r.Some? ==> r.value.hour == 0 && r.value.minute == 0 && r.value.second == 0
    ensures r.Some? ==> 0 <= r.value.year <= 9999
  {
    if !HasDateLayout(s) then None
    else
      var year := DigitsValue(s[0..4]);
      var month := DigitsValue(s[5..7]);
      var day := DigitsValue(s[8..10]);
      DigitsValueFormat(s[0..4]);
      if 1 <= month <= 12 && 1 <= day <= DaysIn(month, year) then
        Some(DateTime(year, month, day, 0, 0, 0))
      else
        None
  }

  /** `t.Format("2006-01-02")` for years that fit four digits. */
  function FormatDate(t: Time): (s: string)
    requires 0 <= t.year <= 9999
    ensures HasDateLayout(s)
  {
    var s := FormatFixed(t.year, 4) + "-" + FormatFixed(t.month, 2) + "-" + FormatFixed(t.day, 2);
    assert s[0..4] == FormatFixed(t.year, 4);
    assert s[5..7] == FormatFixed(t.month, 2);
    assert s[8..10] == FormatFixed(t.day, 2);
    s
  }

  /** A date written in the layout parses back to itself. */
  lemma ParseFormatDate(t: Time)
    requires 0 <= t.year <= 9999 && t.hour == 0 && t.minute == 0 && t.second == 0
    ensures ParseDate(FormatDate(t)) == Some(t)
  {
    var s := FormatDate(t);
    assert s[0..4] == FormatFixed(t.year, 4);
    assert s[5..7] == FormatFixed(t.month, 2);
    assert s[8..10] == FormatFixed(t.day, 2);
    FormatFixedValue(t.year, 4);
    FormatFixedValue(t.month, 2);
    FormatFixedValue(t.day, 2);
  }

  /** The layout has one spelling per date: whatever parses is the formatted date. */
  lemma FormatParsedDate(s: string)
    requires ParseDate(s).Some?
    ensures FormatDate(ParseDate(s).value) == s
  {
    var t := ParseDate(s).value;
    DigitsValueFormat(s[0..4]);
    DigitsValueFormat(s[5..7]);
    DigitsValueFormat(s[8..10]);
    var f := FormatDate(t);
    assert f[0..4] == s[0..4] && f[5..7] == s[5..7] && f[8..10] == s[8..10];
    SameDateFields(f, s);
  }

  /** Two texts of the layout's shape with the same year, month and day digits are equal. */
  lemma SameDateFields(a: string, b: string)
    requires HasDateLayout(a) && HasDateLayout(b)
    requires a[0..4] == b[0..4] && a[5..7] == b[5..7] && a[8..10] == b[8..10]
    ensures a == b
  {
    forall k | 0 <= k < 10
      ensures a[k] == b[k]
    {
      if k < 4 {
        assert a[0..4][k] == b[0..4][k];
      } else if 4 < k < 7 {
        assert a[5..7][k - 5] == b[5..7][k - 5];
      } else if 7 < k {
        assert a[8..10][k - 8] == b[8..10][k - 8];
      }
    }
  }
}
