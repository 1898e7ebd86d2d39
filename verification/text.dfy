/** The Python string operations the module relies on, over ASCII: `str.lower`,
    the substring test `needle in hay`, `str.endswith` and `str.rstrip`. */
module Text {

  /** `str.lower` on one character, restricted to ASCII: upper-case Latin letters
      become lower case and every other character is kept. */
  function LowerChar(c: char): char
  {
    if 'A' <= c <= 'Z' then (c as int + 32) as char else c
  }

  /** `str.lower` on a whole string, character by character. */
  function Lower(s: string): (r: string)
    ensures |r| == |s|
    ensures forall i :: 0 <= i < |r| ==> !('A' <= r[i] <= 'Z')
    ensures forall i :: 0 <= i < |s| && 'A' <= s[i] <= 'Z' ==> r[i] as int == s[i] as int + 32
    ensures forall i :: 0 <= i < |s| && !('A' <= s[i] <= 'Z') ==> r[i] == s[i]
  {
    seq(|s|, i requires 0 <= i < |s| => LowerChar(s[i]))
  }

  /** Lower-casing twice is lower-casing once. */
  lemma LowerIdempotent(s: string)
    ensures Lower(Lower(s)) == Lower(s)
  {
  }

  /** `needle` occurs in `hay` starting at position `i`. */
  predicate OccursAt(hay: string, needle: string, i: nat)
  {
    i + |needle| <= |hay| && hay[i..i + |needle|] == needle
  }

  lemma OccursInTail(hay: string, needle: string)
    requires |hay| > 0
    ensures (exists i: nat :: OccursAt(hay[1..], needle, i))
        <==> (exists i: nat :: 1 <= i && OccursAt(hay, needle, i))
  {
    if i: nat :| OccursAt(hay[1..], needle, i) {
      assert hay[1..][i..i + |needle|] == hay[i + 1..i + 1 + |needle|];
      assert OccursAt(hay, needle, i + 1);
    }
    if i: nat :| 1 <= i && OccursAt(hay, needle, i) {
      assert hay[1..][i - 1..i - 1 + |needle|] == hay[i..i + |needle|];
      assert OccursAt(hay[1..], needle, i - 1);
    }
  }

  /** Python's `needle in hay` on strings: true exactly when `needle` occurs at some
      position of `hay` (so the empty string is in every string). */
  function Contains(hay: string, needle: string): (r: bool)
    ensures r <==> exists i: nat :: OccursAt(hay, needle, i)
    decreases |hay|
  {
    if |needle| > |hay| then false
    else if hay[..|needle|] == needle then assert OccursAt(hay, needle, 0); true
    else
      OccursInTail(hay, needle);
      Contains(hay[1..], needle)
  }

  /** `s.endswith(c)` for a single character. */
  predicate EndsWith(s: string, c: char)
  {
    |s| > 0 && s[|s| - 1] == c
  }

  /** `s.rstrip(c)` for a single character `c`: the longest prefix of `s` that does not
      end in `c`, everything after it being `c`. */
  function TrimTrailing(s: string, c: char): (r: string)
    ensures |r| <= |s| && r == s[..|r|]
    ensures !EndsWith(r, c)
    ensures forall i :: |r| <= i < |s| ==> s[i] == c
    decreases |s|
  {
    if EndsWith(s, c) then TrimTrailing(s[..|s| - 1], c) else s
  }

  /** The three properties of `TrimTrailing` pin its result down: any prefix that does
      not end in `c` and is followed only by `c` is that result. */
  lemma TrimTrailingUnique(s: string, c: char, t: string)
    requires |t| <= |s| && t == s[..|t|]
    requires !EndsWith(t, c)
    requires forall i :: |t| <= i < |s| ==> s[i] == c
    ensures t == TrimTrailing(s, c)
  {
  }

  /** An ASCII decimal digit, the class `[0-9]` of a regular expression. */
  predicate IsDigit(c: char)
  {
    '0' <= c <= '9'
  }
}
