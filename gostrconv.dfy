/**
 * Decimal integers as Go's `strconv.Atoi`, `strconv.Itoa` and the `%d` verb of
 * `fmt.Sprintf` read and write them, on a 64-bit platform (Go's `int` is 64 bits).
 */
module GoStrconv {
  import opened Wrappers

  const MinInt64: int := -0x8000_0000_0000_0000
  const MaxInt64: int := 0x7FFF_FFFF_FFFF_FFFF

  predicate IsDigit(c: char) { '0' <= c <= '9' }

  predicate AllDigits(s: string) { forall k :: 0 <= k < |s| ==> IsDigit(s[k]) }

  function DigitChar(d: int): (c: char)
    requires 0 <= d < 10
    ensures IsDigit(c) && c as int - '0' as int == d
  {
    ('0' as int + d) as char
  }

  /** The value of a run of decimal digits, most significant first. */
  function DigitsValue(s: string): (n: nat)
    requires AllDigits(s)
  {
    if s == [] then 0
    else DigitsValue(s[..|s| - 1]) * 10 + (s[|s| - 1] as int - '0' as int)
  }

  /** Shortest decimal form of a natural number, as `%d` prints it. */
  function FormatNat(n: nat): (s: string)
    ensures s != [] && AllDigits(s)
    ensures |s| > 1 ==> s[0] != '0'
  {
    if n < 10 then [DigitChar(n)] else FormatNat(n / 10) + [DigitChar(n % 10)]
  }

  /** Exactly `width` digits, zero-padded on the left, as Go's time layouts print fields. */
  function FormatFixed(n: nat, width: nat): (s: string)
    ensures |s| == width && AllDigits(s)
  {
    if width == 0 then [] else FormatFixed(n / 10, width - 1) + [DigitChar(n % 10)]
  }

  lemma {:induction false} FormatNatValue(n: nat)
    ensures DigitsValue(FormatNat(n)) == n
  {
    var s := FormatNat(n);
    if n >= 10 {
      FormatNatValue(n / 10);
      assert s[..|s| - 1] == FormatNat(n / 10);
    }
  }

  /** Reading back a fixed-width field gives the number, when it fits. */
  lemma {:induction false} FormatFixedValue(n: nat, width: nat)
    requires n < Pow10(width)
    ensures DigitsValue(FormatFixed(n, width)) == n
  {
    var s := FormatFixed(n, width);
    if width > 0 {
      FormatFixedValue(n / 10, width - 1);
      assert s[..|s| - 1] == FormatFixed(n / 10, width - 1);
    }
  }

  /** Writing a digit run back at its own width reproduces it, leading zeros included. */
  lemma {:induction false} DigitsValueFormat(s: string)
    requires AllDigits(s)
    ensures DigitsValue(s) < Pow10(|s|)
    ensures FormatFixed(DigitsValue(s), |s|) == s
  {
    if s != [] {
      var p := s[..|s| - 1];
      DigitsValueFormat(p);
      var d := s[|s| - 1] as int - '0' as int;
      assert (DigitsValue(p) * 10 + d) / 10 == DigitsValue(p);
      assert (DigitsValue(p) * 10 + d) % 10 == d;
      assert s == p + [s[|s| - 1]];
    }
  }

  function Pow10(n: nat): (p: nat)
    ensures p >= 1
  {
    if n == 0 then 1 else 10 * Pow10(n - 1)
  }

  /**
   * `strconv.Atoi`: an optional sign followed by at least one decimal digit,
   * whose value lies in the 64-bit range; anything else is an error.
   */
  function Atoi(s: string): (r: Option<int>)
    ensures r.Some? ==> MinInt64 <= r.value <= MaxInt64
    ensures r.Some? ==> |s| > 0 && (IsDigit(s[0]) || s[0] == '+' || s[0] == '-') && IsDigit(s[|s| - 1])
    ensures r.Some? ==> forall k :: 0 < k < |s| ==> IsDigit(s[k])
    ensures r.Some? && r.value < 0 ==> s[0] == '-'
    ensures |s| > 0 && AllDigits(s) && DigitsValue(s) <= MaxInt64 ==> r == Some(DigitsValue(s))
    ensures |s| > 1 && s[0] == '+' && AllDigits(s[1..]) && DigitsValue(s[1..]) <= MaxInt64 ==>
      r == Some(DigitsValue(s[1..]))
    ensures |s| > 1 && s[0] == '-' && AllDigits(s[1..]) && DigitsValue(s[1..]) <= -MinInt64 ==>
      r == Some(-(DigitsValue(s[1..]) as int))
    ensures |s| > 0 && AllDigits(s) && DigitsValue(s) > MaxInt64 ==> r.None?
    ensures |s| > 1 && s[0] == '+' && AllDigits(s[1..]) && DigitsValue(s[1..]) > MaxInt64 ==> r.None?
    ensures |s| > 1 && s[0] == '-' && AllDigits(s[1..]) && DigitsValue(s[1..]) > -MinInt64 ==> r.None?
  {
    var negative := |s| > 0 && s[0] == '-';
    var digits := if |s| > 0 && (s[0] == '-' || s[0] == '+') then s[1..] else s;
    if digits == [] || !AllDigits(digits) then None
    else
      var v: int := DigitsValue(digits);
      var n := if negative then -v else v;
      if MinInt64 <= n <= MaxInt64 then Some(n) else None
  }

  /** A plus sign and leading zeros are accepted, and so is a negative zero. */
  lemma AtoiExamples()
    ensures Atoi("+5") == Some(5)
    ensures Atoi("007") == Some(7)
    ensures Atoi("-0") == Some(0)
    ensures Atoi("") == None && Atoi("-") == None && Atoi("+") == None && Atoi(" 5") == None && Atoi("5 ") == None
  {
    assert "+5"[1..] == "5" && DigitsValue("5") == 5 by { assert "5"[..0] == ""; }
    assert "-0"[1..] == "0" && DigitsValue("0") == 0 by { assert "0"[..0] == ""; }
    assert DigitsValue("007") == 7 by {
      assert "007"[..2] == "00" && "00"[..1] == "0" && "0"[..0] == "";
    }
    assert "5 "[1] == ' ';
  }

  /** `strconv.Itoa` and `%d`: a minus sign for negatives, then the shortest digits. */
  function FormatInt(i: int): (s: string)
    ensures s != []
    ensures s[0] == '-' <==> i < 0
    ensures i < 0 ==> |s| > 1 && AllDigits(s[1..]) && s[1] != '0'
    ensures i >= 0 ==> AllDigits(s) && (|s| > 1 ==> s[0] != '0')
  {
    if i < 0 then "-" + FormatNat(-i) else FormatNat(i)
  }

  /** Every 64-bit integer survives formatting and parsing back. */
  lemma AtoiFormatInt(i: int)
    requires MinInt64 <= i <= MaxInt64
    ensures Atoi(FormatInt(i)) == Some(i)
  {
    if i < 0 {
      FormatNatValue(-i);
      assert FormatInt(i)[1..] == FormatNat(-i);
    } else {
      FormatNatValue(i);
    }
  }
}
