/**
 * The string helpers of internal/database. `ValidateRequired` trims white
 * space like `validator.NotBlank`; `ValidateMaxLength` and `Truncate` measure
 * and cut the string's UTF-8 bytes, not its code points.
 */
module Database {
  import opened GoStrings

  /** `ValidateRequired`: false exactly when nothing is left after trimming white space. */
  function ValidateRequired(value: string): (r: bool)
    ensures !r <==> forall k :: 0 <= k < |value| ==> IsSpace(value[k])
  {
    TrimSpace(value) != ""
  }

  /** `ValidateMaxLength`: `len(value) <= maxLength`, where `len` counts bytes. */
  function ValidateMaxLength(value: string, maxLength: int): (r: bool)
    ensures r ==> |value| <= maxLength
    ensures IsAscii(value) ==> (r <==> |value| <= maxLength)
  {
    ByteLengthBounds(value);
    |Utf8Encode(value)| <= maxLength
  }

  /**
   * `Truncate`: the first `maxLength` bytes when the value is longer. Go's
   * slice expression `value[:maxLength]` panics for a negative bound, so the
   * caller must pass a non-negative one.
   */
  function Truncate(value: seq<byte>, maxLength: int): (r: seq<byte>)
    requires maxLength >= 0
    ensures |r| == if |value| <= maxLength then |value| else maxLength
    ensures r <= value
    ensures |value| <= maxLength ==> r == value
  {
    if |value| > maxLength then value[..maxLength] else value
  }

  lemma TruncateIdempotent(value: seq<byte>, maxLength: int)
    requires maxLength >= 0
    ensures Truncate(Truncate(value, maxLength), maxLength) == Truncate(value, maxLength)
  {
  }

  /** Truncating a string's bytes changes nothing exactly when the string passes ValidateMaxLength. */
  lemma TruncateKeepsValidString(value: string, maxLength: int)
    requires maxLength >= 0
    ensures Truncate(Utf8Encode(value), maxLength) == Utf8Encode(value) <==> ValidateMaxLength(value, maxLength)
  {
  }
}
