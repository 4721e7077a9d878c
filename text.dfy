/**
 * String helpers standing for the JavaScript built-ins the core uses:
 * `toLowerCase`, `includes` and the `^0x` regular-expression prefix test.
 */
module Text {

  /** Lower-cases an ASCII capital letter; every other character is kept. */
  function LowerChar(c: char): char
  {
    if 'A' <= c <= 'Z' then (c as int + 32) as char else c
  }

  function Lower(s: string): (r: string)
    ensures |r| == |s|
    ensures forall i :: 0 <= i < |s| ==> r[i] == LowerChar(s[i])
  {
    if s == [] then [] else [LowerChar(s[0])] + Lower(s[1..])
  }

  predicate StartsWith(s: string, prefix: string)
  {
    |prefix| <= |s| && s[..|prefix|] == prefix
  }

  /** `text.includes(pat)`: pat occurs somewhere in text, scanning from the left. */
  predicate Contains(text: string, pat: string)
    decreases |text|
  {
    StartsWith(text, pat) || (|text| > 0 && Contains(text[1..], pat))
  }

  /** Reference definition of an occurrence of pat in text at position i. */
  ghost predicate OccursAt(text: string, pat: string, i: int)
  {
    0 <= i && i + |pat| <= |text| && text[i..i + |pat|] == pat
  }

  /** Reference definition of substring containment: pat occurs at some position of text. */
  ghost predicate Occurs(text: string, pat: string)
  {
    exists i :: OccursAt(text, pat, i)
  }

  /** An occurrence in the tail of text is an occurrence one place later in text. */
  lemma OccursAtShift(text: string, pat: string, i: int)
    requires |text| > 0 && 0 <= i
    ensures OccursAt(text[1..], pat, i) <==> OccursAt(text, pat, i + 1)
  {
    if i + 1 + |pat| <= |text| {
      assert text[1..][i..i + |pat|] == text[i + 1..i + 1 + |pat|];
    }
  }

  /** The scan finds pat exactly when pat occurs at some position of text. */
  lemma {:induction false} ContainsIffOccurs(text: string, pat: string)
    ensures Contains(text, pat) <==> Occurs(text, pat)
    decreases |text|
  {
    if StartsWith(text, pat) {
      assert OccursAt(text, pat, 0);
    } else if |text| == 0 {
    } else {
      assert !OccursAt(text, pat, 0);
      ContainsIffOccurs(text[1..], pat);
      if exists i :: OccursAt(text[1..], pat, i) {
        var i :| OccursAt(text[1..], pat, i);
        OccursAtShift(text, pat, i);
      }
      if exists i :: OccursAt(text, pat, i) {
        var i :| OccursAt(text, pat, i);
        OccursAtShift(text, pat, i - 1);
        assert OccursAt(text[1..], pat, i - 1);
      }
    }
  }
}
