/** The two JavaScript string operations the reply engine relies on:
    `String.prototype.includes` (substring search) and `toLowerCase`,
    the latter restricted to the ASCII letters. */
module JsString {

  /** `needle` occurs in `haystack` starting at position `i`. */
  predicate OccursAt(haystack: string, needle: string, i: nat) {
    i + |needle| <= |haystack| && haystack[i..i + |needle|] == needle
  }

  /** `haystack` begins with `needle`, compared character by character. */
  predicate StartsWith(haystack: string, needle: string) {
    |needle| <= |haystack| && (needle == [] || (haystack[0] == needle[0] && StartsWith(haystack[1..], needle[1..])))
  }

  /** Beginning with `needle` is an occurrence at position 0. */
  lemma {:induction false} StartsWithOccurs(haystack: string, needle: string)
    ensures StartsWith(haystack, needle) <==> OccursAt(haystack, needle, 0)
  {
    if needle != [] && |needle| <= |haystack| {
      StartsWithOccurs(haystack[1..], needle[1..]);
      assert haystack[0..|needle|] == [haystack[0]] + haystack[1..][0..|needle| - 1];
      assert needle == [needle[0]] + needle[1..];
    }
  }

  /** `haystack.includes(needle)`: tries the start positions from left to right.
      The empty needle occurs everywhere, as in JavaScript. */
  predicate Contains(haystack: string, needle: string)
    decreases |haystack|
  {
    if StartsWith(haystack, needle) then true
    else if |haystack| == 0 then false
    else Contains(haystack[1..], needle)
  }

  /** The scan finds the needle exactly when it occurs at some position. */
  lemma {:induction false} ContainsOccurs(haystack: string, needle: string)
    ensures Contains(haystack, needle) <==> exists i: nat :: OccursAt(haystack, needle, i)
    decreases |haystack|
  {
    StartsWithOccurs(haystack, needle);
    if !OccursAt(haystack, needle, 0) && |haystack| > 0 {
      var tail := haystack[1..];
      ContainsOccurs(tail, needle);
      forall i: nat | OccursAt(tail, needle, i) ensures OccursAt(haystack, needle, i + 1) {
        assert haystack[i + 1..i + 1 + |needle|] == tail[i..i + |needle|];
      }
      forall i: nat | OccursAt(haystack, needle, i) && i > 0 ensures OccursAt(tail, needle, i - 1) {
        assert haystack[i..i + |needle|] == tail[i - 1..i - 1 + |needle|];
      }
    }
  }

  /** Every character of a needle that occurs in `haystack` is a character of `haystack`. */
  lemma ContainsCharsOf(haystack: string, needle: string, k: nat)
    requires Contains(haystack, needle) && k < |needle|
    ensures needle[k] in haystack
  {
    ContainsOccurs(haystack, needle);
    var i: nat :| OccursAt(haystack, needle, i);
    assert haystack[i..i + |needle|][k] == haystack[i + k];
  }

  /** Substring containment is transitive: a needle found inside a found needle is found. */
  lemma ContainsTransitive(haystack: string, middle: string, needle: string)
    requires Contains(haystack, middle) && Contains(middle, needle)
    ensures Contains(haystack, needle)
  {
    ContainsOccurs(haystack, middle);
    ContainsOccurs(middle, needle);
    ContainsOccurs(haystack, needle);
    var i: nat :| OccursAt(haystack, middle, i);
    var j: nat :| OccursAt(middle, needle, j);
    forall k | 0 <= k < |needle| ensures haystack[i + j + k] == needle[k] {
      assert needle[k] == middle[j..j + |needle|][k] == middle[j + k];
      assert middle[j + k] == haystack[i..i + |middle|][j + k];
    }
    assert haystack[i + j..i + j + |needle|] == needle;
    assert OccursAt(haystack, needle, i + j);
  }

  /** A literal occurrence, stated by its position. */
  lemma ContainsAt(haystack: string, needle: string, i: nat)
    requires OccursAt(haystack, needle, i)
    ensures Contains(haystack, needle)
  {
    ContainsOccurs(haystack, needle);
  }

  predicate IsAsciiUpper(c: char) {
    'A' <= c <= 'Z'
  }

  predicate IsAsciiAlnum(c: char) {
    'a' <= c <= 'z' || 'A' <= c <= 'Z' || '0' <= c <= '9'
  }

  /** `toLowerCase` on one character, for the ASCII range. */
  function LowerChar(c: char): (r: char)
    ensures IsAsciiUpper(c) ==> r as int == c as int + 32
    ensures !IsAsciiUpper(c) ==> r == c
    ensures !IsAsciiUpper(r)
  {
    if IsAsciiUpper(c) then (c as int + 32) as char else c
  }

  /** `toLowerCase` on a string: maps LowerChar over every character. */
  function Lower(s: string): (r: string)
    ensures |r| == |s|
    ensures forall i :: 0 <= i < |s| ==> r[i] == LowerChar(s[i])
  {
    if s == [] then [] else [LowerChar(s[0])] + Lower(s[1..])
  }

  /** Lowering an already lowered string changes nothing. */
  lemma LowerIdempotent(s: string)
    ensures Lower(Lower(s)) == Lower(s)
  {
    var l := Lower(s);
    assert forall i :: 0 <= i < |l| ==> LowerChar(l[i]) == l[i];
  }
}
