/**
 * The parts of Go's `strings`, `unicode` and `unicode/utf8` packages that the
 * finance tracker relies on. A Go string is modelled by the sequence of code
 * points it decodes to, so `utf8.RuneCountInString(s)` is `|s|`, and its
 * length in bytes, `len(s)`, is the length of its UTF-8 encoding.
 */
module GoStrings {

  type byte = b: int | 0 <= b < 256

  /** `unicode.IsSpace`: the Latin-1 spaces plus the other White_Space code points. */
  predicate IsSpace(c: char) {
    var cp := c as int;
    cp == 0x09 || cp == 0x0A || cp == 0x0B || cp == 0x0C || cp == 0x0D || cp == 0x20
    || cp == 0x85 || cp == 0xA0
    || cp == 0x1680 || (0x2000 <= cp <= 0x200A) || cp == 0x2028 || cp == 0x2029
    || cp == 0x202F || cp == 0x205F || cp == 0x3000
  }

  /** The number of white-space code points `strings.TrimLeftFunc` drops. */
  function LeadingSpace(s: string): (n: nat)
    ensures n <= |s|
    ensures forall k :: 0 <= k < n ==> IsSpace(s[k])
    ensures n < |s| ==> !IsSpace(s[n])
    decreases |s|
  {
    if s != [] && IsSpace(s[0]) then 1 + LeadingSpace(s[1..]) else 0
  }

  /** Where the trailing white space that `strings.TrimRightFunc` drops begins. */
  function TrailingSpace(s: string): (j: nat)
    ensures j <= |s|
    ensures forall k :: j <= k < |s| ==> IsSpace(s[k])
    ensures 0 < j ==> !IsSpace(s[j - 1])
    decreases |s|
  {
    if s != [] && IsSpace(s[|s| - 1]) then TrailingSpace(s[..|s| - 1]) else |s|
  }

  /**
   * `strings.TrimSpace`: drops leading and trailing white space. What remains is
   * an infix of `s` that neither starts nor ends with white space, and it is
   * empty exactly when `s` is all white space.
   */
  function TrimSpace(s: string): (r: string)
    ensures LeadingSpace(s) + |r| <= |s| && r == s[LeadingSpace(s)..LeadingSpace(s) + |r|]
    ensures r == [] || (!IsSpace(r[0]) && !IsSpace(r[|r| - 1]))
    ensures r == [] <==> forall k :: 0 <= k < |s| ==> IsSpace(s[k])
    ensures forall k :: LeadingSpace(s) + |r| <= k < |s| ==> IsSpace(s[k])
  {
    var i := LeadingSpace(s);
    var j := TrailingSpace(s[i..]);
    TrimBounds(s, i, s[i..], j);
    s[i..i + j]
  }

  /**
   * The infix `s[i..i + j]` left between a maximal white-space prefix of `s`
   * and a maximal white-space suffix of the rest `s[i..]`: everything after
   * it is white space, its ends are not, and it is empty exactly when all of
   * `s` is white space.
   */
  lemma TrimBounds(s: string, i: nat, rest: string, j: nat)
    requires i <= |s| && rest == s[i..] && j <= |rest|
    requires forall k :: 0 <= k < i ==> IsSpace(s[k])
    requires i < |s| ==> !IsSpace(s[i])
    requires forall k :: j <= k < |rest| ==> IsSpace(rest[k])
    requires 0 < j ==> !IsSpace(rest[j - 1])
    ensures forall k :: i + j <= k < |s| ==> IsSpace(s[k])
    ensures 0 < j ==> !IsSpace(s[i]) && !IsSpace(s[i + j - 1])
    ensures j == 0 <==> forall k :: 0 <= k < |s| ==> IsSpace(s[k])
  {
    forall k | i + j <= k < |s|
      ensures IsSpace(s[k])
    {
      assert s[k] == rest[k - i];
    }
    if 0 < j {
      assert s[i + j - 1] == rest[j - 1];
    }
  }

  /**
   * The UTF-8 encoding of one code point: one byte below U+0080, two below
   * U+0800, three below U+10000 and four above, as `utf8.RuneLen` says.
   */
  function EncodeRune(c: char): (r: seq<byte>)
    ensures 1 <= |r| <= 4
    ensures (|r| == 1) <==> (c as int < 0x80)
    ensures (|r| == 2) <==> (0x80 <= c as int < 0x800)
    ensures (|r| == 3) <==> (0x800 <= c as int < 0x10000)
    ensures (|r| == 4) <==> (0x10000 <= c as int)
    ensures |r| == 1 ==> r[0] == c as int
    ensures |r| > 1 ==> 0xC0 <= r[0] < 0xF8
    ensures |r| > 1 ==> forall k :: 1 <= k < |r| ==> 0x80 <= r[k] < 0xC0
  {
    var cp := c as int;
    if cp < 0x80 then [cp]
    else if cp < 0x800 then [0xC0 + cp / 0x40, 0x80 + cp % 0x40]
    else if cp < 0x10000 then [0xE0 + cp / 0x1000, 0x80 + (cp / 0x40) % 0x40, 0x80 + cp % 0x40]
    else [0xF0 + cp / 0x40000, 0x80 + (cp / 0x1000) % 0x40, 0x80 + (cp / 0x40) % 0x40, 0x80 + cp % 0x40]
  }

  /** The UTF-8 bytes of a string, what Go's `len` and byte slicing see. */
  function Utf8Encode(s: string): (r: seq<byte>)
    ensures |s| <= |r| <= 4 * |s|
  {
    if s == [] then [] else Utf8Encode(s[..|s| - 1]) + EncodeRune(s[|s| - 1])
  }

  /** A UTF-8 continuation byte, 10xxxxxx: it never starts a code point. */
  predicate IsContinuation(b: byte) {
    0x80 <= b < 0xC0
  }

  /**
   * `utf8.RuneCount` on well-formed UTF-8: every byte that is not a
   * continuation byte starts one code point.
   */
  function RuneCount(b: seq<byte>): nat {
    if b == [] then 0
    else RuneCount(b[..|b| - 1]) + (if IsContinuation(b[|b| - 1]) then 0 else 1)
  }

  lemma {:induction false} RuneCountAppend(a: seq<byte>, b: seq<byte>)
    ensures RuneCount(a + b) == RuneCount(a) + RuneCount(b)
  {
    if b != [] {
      var init := b[..|b| - 1];
      RuneCountAppend(a, init);
      assert (a + b)[..|a + b| - 1] == a + init;
    } else {
      assert a + b == a;
    }
  }

  /** The encoding of one code point holds exactly one byte that is not a continuation byte. */
  lemma RuneCountOneRune(c: char)
    ensures RuneCount(EncodeRune(c)) == 1
  {
    LeadThenContinuations(EncodeRune(c));
  }

  lemma {:induction false} LeadThenContinuations(b: seq<byte>)
    requires |b| >= 1 && !IsContinuation(b[0])
    requires forall k :: 1 <= k < |b| ==> IsContinuation(b[k])
    ensures RuneCount(b) == 1
  {
    var init := b[..|b| - 1];
    if |b| > 1 {
      LeadThenContinuations(init);
    } else {
      assert init == [];
    }
  }

  /** Counting the code points of a string's UTF-8 bytes gives its length: `utf8.RuneCountInString(s) == |s|`. */
  lemma {:induction false} RuneCountEncode(s: string)
    ensures RuneCount(Utf8Encode(s)) == |s|
  {
    if s != [] {
      var init := s[..|s| - 1];
      RuneCountEncode(init);
      RuneCountAppend(Utf8Encode(init), EncodeRune(s[|s| - 1]));
      RuneCountOneRune(s[|s| - 1]);
    }
  }

  predicate IsAscii(s: string) {
    forall k :: 0 <= k < |s| ==> s[k] as int < 0x80
  }

  /** A string has at least as many bytes as code points, and exactly as many when it is ASCII. */
  lemma {:induction false} ByteLengthBounds(s: string)
    ensures |Utf8Encode(s)| == |s| <==> IsAscii(s)
  {
    if s != [] {
      var p := s[..|s| - 1];
      ByteLengthBounds(p);
      if |Utf8Encode(s)| == |s| {
        assert |EncodeRune(s[|s| - 1])| == 1;
        assert forall k :: 0 <= k < |p| ==> p[k] == s[k];
      }
      if IsAscii(s) {
        assert IsAscii(p) by { assert forall k :: 0 <= k < |p| ==> p[k] == s[k]; }
      }
    }
  }
}
