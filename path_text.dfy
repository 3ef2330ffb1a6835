/** Small facts about the strings that make up resource paths: the ASCII
    lower-casing used for dictionary file names and substring occurrence. */
module PathText {

  /** ASCII lower-casing of one character; every other character is kept. */
  function LowerChar(c: char): (d: char)
  {
    if 'A' <= c <= 'Z' then (c as int + 32) as char else c
  }

  /** ASCII lower-casing of a whole string, character by character. */
  function ToLowerAscii(s: string): (r: string)
  {
    seq(|s|, i requires 0 <= i < |s| => LowerChar(s[i]))
  }

  /** `pat` occurs in `s` starting at index `i`. */
  predicate OccursAt(pat: string, s: string, i: int)
  {
    0 <= i && i + |pat| <= |s| && s[i..i + |pat|] == pat
  }

  /** Counting from the end, a joined string ends with its suffix. */
  lemma CharFromEnd(root: string, suffix: string, k: int)
    requires 0 < k <= |suffix|
    ensures (root + suffix)[|root + suffix| - k] == suffix[|suffix| - k]
  {
  }

  /** An occurrence of `pat` in `root + suffix` lies wholly inside `root` when
      the suffix starts with a character `pat` lacks (so no occurrence
      straddles the join) and `pat` cannot fit in the suffix, either by length
      or because its first character never appears there. */
  lemma {:induction false} OccurrenceInsidePrefix(pat: string, root: string, suffix: string, i: int)
    requires |pat| > 0 && |suffix| > 0 && suffix[0] !in pat
    requires |pat| > |suffix| || pat[0] !in suffix
    ensures OccursAt(pat, root + suffix, i) ==> i + |pat| <= |root|
  {
    var s := root + suffix;
    // An occurrence straddling the join would hold suffix[0]; one starting in
    // the suffix would put pat[0] there.
    assert s[|root|] == suffix[0];
    assert forall k :: |root| <= k < |s| ==> s[k] == suffix[k - |root|];
  }
}
