/**
 * The field-error accumulator of internal/validator: a map from form field
 * to the first message recorded for it, and the string predicates the rule
 * checks use.
 */
module Validator {
  import opened GoStrings
  import GoStrconv
  import GoTime

  /** `m2` keeps every entry of `m1` unchanged: keys only grow, no message is replaced. */
  predicate Extends(m1: map<string, string>, m2: map<string, string>) {
    forall f :: f in m1 ==> f in m2 && m2[f] == m1[f]
  }

  lemma ExtendsTransitive(m1: map<string, string>, m2: map<string, string>, m3: map<string, string>)
    requires Extends(m1, m2) && Extends(m2, m3)
    ensures Extends(m1, m3)
  {
  }

  /** The errors after `AddError(field, message)`: the first message for a field wins. */
  function WithError(errors: map<string, string>, field: string, message: string): (r: map<string, string>)
    ensures field in r && Extends(errors, r)
    ensures field in errors ==> r == errors
    ensures field !in errors ==> r[field] == message
    ensures r.Keys == errors.Keys + {field}
    ensures forall f :: f != field ==> (f in r <==> f in errors)
  {
    if field in errors then errors else errors[field := message]
  }

  /** The errors after `Check(ok, field, message)`. */
  function Checked(errors: map<string, string>, ok: bool, field: string, message: string): (r: map<string, string>)
    ensures Extends(errors, r)
    ensures ok ==> r == errors
    ensures !ok ==> field in r && r.Keys == errors.Keys + {field}
    ensures !ok && field !in errors ==> r[field] == message
    ensures forall f :: f != field ==> (f in r <==> f in errors)
  {
    if ok then errors else WithError(errors, field, message)
  }

  class Validator {
    var errors: map<string, string>

    /** `NewValidator`: no field has an error yet. */
    constructor ()
      ensures errors == map[]
      ensures ValidData()
    {
      errors := map[];
    }

    /** `ValidData`: true exactly when no field has an error. */
    function ValidData(): (valid: bool)
      reads this
      ensures valid <==> errors == map[]
      ensures valid <==> forall f :: f !in errors
    {
      |errors| == 0
    }

    /** `AddError`: records `message` under `field` unless that field already has one. */
    method AddError(field: string, message: string)
      modifies this
      ensures errors == WithError(old(errors), field, message)
    {
      if field !in errors {
        errors := errors[field := message];
      }
    }

    /** `Check`: records the error only when `ok` is false. */
    method Check(ok: bool, field: string, message: string)
      modifies this
      ensures errors == Checked(old(errors), ok, field, message)
    {
      if !ok {
        AddError(field, message);
      }
    }
  }

  /** A fresh accumulator, then one failing check: exactly that field, with that message. */
  lemma FirstCheckOnFresh(ok: bool, field: string, message: string)
    ensures Checked(map[], ok, field, message) == if ok then map[] else map[field := message]
  {
  }

  /** `NotBlank`: the value has a code point that is not white space. */
  function NotBlank(value: string): (r: bool)
    ensures r <==> exists k :: 0 <= k < |value| && !IsSpace(value[k])
    ensures value == [] ==> !r
  {
    TrimSpace(value) != ""
  }

  /**
   * `MaxLength`: at most `n` code points (`utf8.RuneCountInString`, which is
   * RuneCount of the UTF-8 bytes), not bytes. A value of at most `n` bytes always passes, a passing value has at most
   * `4 * n` bytes, and for ASCII text code points and bytes agree.
   */
  function MaxLength(value: string, n: int): (ok: bool)
    ensures ok <==> RuneCount(Utf8Encode(value)) <= n
    ensures n < 0 ==> !ok
    ensures |Utf8Encode(value)| <= n ==> ok
    ensures ok ==> |Utf8Encode(value)| <= 4 * n
    ensures IsAscii(value) ==> (ok <==> |Utf8Encode(value)| <= n)
  {
    ByteLengthBounds(value);
    RuneCountEncode(value);
    |value| <= n
  }

  /** `MinLength`: at least `n` code points (RuneCount of the UTF-8 bytes); a value with fewer than `n` bytes always fails. */
  function MinLength(value: string, n: int): (ok: bool)
    ensures ok <==> RuneCount(Utf8Encode(value)) >= n
    ensures n <= 0 ==> ok
    ensures |Utf8Encode(value)| < n ==> !ok
    ensures ok ==> |Utf8Encode(value)| >= n
    ensures IsAscii(value) ==> (ok <==> |Utf8Encode(value)| >= n)
  {
    ByteLengthBounds(value);
    RuneCountEncode(value);
    |value| >= n
  }

  /** For every string and bound, exactly one of MaxLength(s, n) and MinLength(s, n + 1) holds. */
  lemma MaxMinLengthComplement(s: string, n: int)
    ensures MaxLength(s, n) != MinLength(s, n + 1)
  {
  }

  /** `IsValidDate`: the regular expression ^\d{4}-\d{2}-\d{2}$ (ASCII digits, nothing around). */
  function IsValidDate(value: string): (ok: bool)
    ensures ok ==> IsAscii(value) && |Utf8Encode(value)| == |value| == 10
    ensures ok ==> GoStrconv.AllDigits(value[..4]) && GoStrconv.AllDigits(value[5..7]) && GoStrconv.AllDigits(value[8..])
  {
    (ByteLengthBounds(value);
    && |value| == 10
    && (forall k :: 0 <= k < 10 && k != 4 && k != 7 ==> GoStrconv.IsDigit(value[k]))
    && value[4] == '-' && value[7] == '-')
  }

  /**
   * Every date that time.Parse accepts with the layout "2006-01-02" also passes
   * the validator's IsValidDate, and a string of that shape is refused by the
   * parser only for an impossible month or day.
   */
  lemma IsValidDateMatchesLayout(s: string)
    ensures IsValidDate(s) <==> GoTime.HasDateLayout(s)
    ensures GoTime.ParseDate(s).Some? ==> IsValidDate(s)
    ensures IsValidDate(s) && GoTime.ParseDate(s).None? ==>
      var month := GoStrconv.DigitsValue(s[5..7]);
      !(1 <= month <= 12) || !(1 <= GoStrconv.DigitsValue(s[8..10]) <= GoTime.DaysIn(month, GoStrconv.DigitsValue(s[0..4])))
  {
  }
}
