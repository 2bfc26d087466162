/**
 * The JavaScript string built-ins the song search applies to its query and to
 * song fields: String.prototype.trim, toLowerCase and includes.
 */
module JsString {

  /** The ECMAScript WhiteSpace and LineTerminator code points, which `trim` strips. */
  predicate IsWhitespace(c: char) {
    var n := c as int;
    (9 <= n <= 13) || n == 0x20 || n == 0xA0 || n == 0x1680 || (0x2000 <= n <= 0x200A)
    || n == 0x2028 || n == 0x2029 || n == 0x202F || n == 0x205F || n == 0x3000 || n == 0xFEFF
  }

  predicate AllWhitespace(s: string) {
    forall i :: 0 <= i < |s| ==> IsWhitespace(s[i])
  }

  /** The first index at or after `i` whose character is not whitespace, or `|s|` when there is none. */
  function SkipLeading(s: string, i: nat): (a: nat)
    requires i <= |s|
    ensures i <= a <= |s|
    ensures forall k :: i <= k < a ==> IsWhitespace(s[k])
    ensures a < |s| ==> !IsWhitespace(s[a])
    decreases |s| - i
  {
    if i < |s| && IsWhitespace(s[i]) then SkipLeading(s, i + 1) else i
  }

  /** The index just past the last non-whitespace character in `s[lo..j]`, or `lo` when there is none. */
  function SkipTrailing(s: string, lo: nat, j: nat): (b: nat)
    requires lo <= j <= |s|
    ensures lo <= b <= j
    ensures forall k :: b <= k < j ==> IsWhitespace(s[k])
    ensures b > lo ==> !IsWhitespace(s[b - 1])
    decreases j
  {
    if j > lo && IsWhitespace(s[j - 1]) then SkipTrailing(s, lo, j - 1) else j
  }

  /**
   * String.prototype.trim: the middle of `s` between a whitespace prefix and
   * a whitespace suffix, itself free of whitespace at both ends.
   */
  function Trim(s: string): (r: string)
    ensures r != [] ==> !IsWhitespace(r[0]) && !IsWhitespace(r[|r| - 1])
    ensures var a := SkipLeading(s, 0);
      && a + |r| <= |s|
      && r == s[a..a + |r|]
      && (forall k :: 0 <= k < a ==> IsWhitespace(s[k]))
      && (forall k :: a + |r| <= k < |s| ==> IsWhitespace(s[k]))
  {
    var a := SkipLeading(s, 0);
    var b := SkipTrailing(s, a, |s|);
    assert b > a ==> !IsWhitespace(s[a..b][0]);
    s[a..b]
  }

  /** A string trims to the empty string exactly when every character of it is whitespace. */
  lemma TrimEmptyIff(s: string)
    ensures Trim(s) == [] <==> AllWhitespace(s)
  {
    var a := SkipLeading(s, 0);
    if AllWhitespace(s) {
      assert a == |s|;
    }
  }

  /** Trimming keeps a string that has no whitespace at either end. */
  lemma TrimKeepsTrimmed(s: string)
    requires s == [] || (!IsWhitespace(s[0]) && !IsWhitespace(s[|s| - 1]))
    ensures Trim(s) == s
  {
  }

  /** The capitals this model lowers: ASCII `A`-`Z` and the Latin-1 capitals U+00C0-U+00DE except U+00D7. */
  predicate IsUpper(c: char) {
    var n := c as int;
    (65 <= n <= 90) || (0xC0 <= n <= 0xDE && n != 0xD7)
  }

  /** Lower-cases one code point: a capital moves 32 code points up to its small letter, anything else stays. */
  function LowerChar(c: char): (r: char)
    ensures IsUpper(c) ==> r as int == c as int + 32 && !IsUpper(r)
    ensures !IsUpper(c) ==> r == c
  {
    if IsUpper(c) then ((c as int) + 32) as char else c
  }

  /** String.prototype.toLowerCase, code point by code point. */
  function ToLower(s: string): (r: string)
    ensures |r| == |s|
    ensures forall i :: 0 <= i < |s| ==> r[i] == LowerChar(s[i])
  {
    if s == [] then [] else [LowerChar(s[0])] + ToLower(s[1..])
  }

  /** Lower-casing leaves no capital behind, changes nothing else, and is idempotent. */
  lemma ToLowerSpec(s: string)
    ensures forall i :: 0 <= i < |s| ==> !IsUpper(ToLower(s)[i])
    ensures forall i :: 0 <= i < |s| && !IsUpper(s[i]) ==> ToLower(s)[i] == s[i]
    ensures ToLower(ToLower(s)) == ToLower(s)
  {
  }

  /** `needle` occurs in `hay` starting at position `i`. */
  predicate OccursAt(hay: string, needle: string, i: int) {
    0 <= i && i + |needle| <= |hay| && hay[i..i + |needle|] == needle
  }

  /** `needle` occurs somewhere in `hay`. */
  ghost predicate Occurs(hay: string, needle: string) {
    exists i :: OccursAt(hay, needle, i)
  }

  /** String.prototype.includes: true exactly when `needle` occurs somewhere in `hay`. */
  function Includes(hay: string, needle: string): (b: bool)
    ensures b <==> Occurs(hay, needle)
    decreases |hay|
  {
    if |needle| > |hay| then
      assert forall i :: !OccursAt(hay, needle, i);
      false
    else if needle <= hay then
      assert OccursAt(hay, needle, 0);
      true
    else
      OccursShift(hay, needle);
      Includes(hay[1..], needle)
  }

  /** When `needle` is not a prefix of `hay`, its occurrences in `hay` are those in `hay[1..]`, shifted by one. */
  lemma OccursShift(hay: string, needle: string)
    requires hay != [] && !(needle <= hay)
    ensures Occurs(hay, needle) <==> Occurs(hay[1..], needle)
  {
    if i :| OccursAt(hay, needle, i) {
      assert i != 0;
      assert hay[1..][i - 1..i - 1 + |needle|] == hay[i..i + |needle|];
      assert OccursAt(hay[1..], needle, i - 1);
    }
    if i :| OccursAt(hay[1..], needle, i) {
      assert hay[1..][i..i + |needle|] == hay[i + 1..i + 1 + |needle|];
      assert OccursAt(hay, needle, i + 1);
    }
  }

  /** Every string includes the empty string. */
  lemma IncludesEmpty(hay: string)
    ensures Includes(hay, "")
  {
    assert OccursAt(hay, "", 0);
  }
}
