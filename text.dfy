/** The two string operations the search filter relies on: lower-casing and substring search. */
module Text {

  /** Lower-cases one character; only the ASCII letters A-Z are mapped. */
  function LowerChar(c: char): char {
    if 'A' <= c <= 'Z' then (c as int + 32) as char else c
  }

  /** `String.prototype.toLowerCase`, restricted to ASCII letters. */
  function ToLower(s: string): (r: string)
    ensures |r| == |s|
    ensures forall i :: 0 <= i < |s| ==> r[i] == LowerChar(s[i])
  {
    if s == [] then [] else [LowerChar(s[0])] + ToLower(s[1..])
  }

  /** `needle` occurs in `hay` starting at index `i`. */
  predicate OccursAt(hay: string, needle: string, i: int) {
    0 <= i && i + |needle| <= |hay| && hay[i..i + |needle|] == needle
  }

  /** The reference meaning of substring containment. */
  ghost predicate ContainsSubstring(hay: string, needle: string) {
    exists i :: OccursAt(hay, needle, i)
  }

  /** `String.prototype.includes`: scans `hay` from the left for `needle`. */
  function Includes(hay: string, needle: string): (b: bool)
    ensures b <==> ContainsSubstring(hay, needle)
    decreases |hay|
  {
    if needle <= hay then
      assert OccursAt(hay, needle, 0);
      true
    else if hay == [] then
      false
    else
      var rest := Includes(hay[1..], needle);
      IncludesStep(hay, needle);
      rest
  }

  /** Containment in a non-empty string that does not start with `needle` is containment in its tail. */
  lemma IncludesStep(hay: string, needle: string)
    requires hay != [] && !(needle <= hay)
    ensures ContainsSubstring(hay, needle) <==> ContainsSubstring(hay[1..], needle)
  {
    if ContainsSubstring(hay, needle) {
      var i :| OccursAt(hay, needle, i);
      assert i != 0;
      assert hay[1..][i - 1..i - 1 + |needle|] == hay[i..i + |needle|];
      assert OccursAt(hay[1..], needle, i - 1);
    }
    if ContainsSubstring(hay[1..], needle) {
      var i :| OccursAt(hay[1..], needle, i);
      assert hay[i + 1..i + 1 + |needle|] == hay[1..][i..i + |needle|];
      assert OccursAt(hay, needle, i + 1);
    }
  }

  /** An exact occurrence survives lower-casing both strings, so the case-insensitive search finds it. */
  lemma LowerKeepsOccurrence(hay: string, needle: string, i: int)
    requires OccursAt(hay, needle, i)
    ensures OccursAt(ToLower(hay), ToLower(needle), i)
  {
    var lowHay, lowNeedle := ToLower(hay), ToLower(needle);
    forall j | 0 <= j < |needle| ensures lowHay[i..i + |needle|][j] == lowNeedle[j] {
      assert hay[i + j] == needle[j];
    }
  }
}
