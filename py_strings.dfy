/**
 * The few Python string methods the export server relies on, as functions
 * over `string` (a sequence of `char`).
 */
module PyStrings {

  /** `c.lower()` restricted to ASCII: 'A'..'Z' map to 'a'..'z', every other character is kept. */
  function LowerChar(c: char): (r: char)
    ensures 'A' <= c <= 'Z' ==> 'a' <= r <= 'z' && r as int - c as int == 32
    ensures !('A' <= c <= 'Z') ==> r == c
  {
    if 'A' <= c <= 'Z' then (c as int + 32) as char else c
  }

  /** `s.lower()`, character by character. */
  function Lower(s: string): (r: string)
    ensures |r| == |s|
    ensures forall i :: 0 <= i < |s| ==> r[i] == LowerChar(s[i])
  {
    seq(|s|, i requires 0 <= i < |s| => LowerChar(s[i]))
  }

  predicate StartsWith(s: string, prefix: string)
  {
    |prefix| <= |s| && s[..|prefix|] == prefix
  }

  predicate EndsWith(s: string, suffix: string)
  {
    |suffix| <= |s| && s[|s| - |suffix|..] == suffix
  }

  /**
   * `s.replace(pat, rep)` for a non-empty `pat`: scanning left to right, every
   * non-overlapping occurrence of `pat` is replaced by `rep`.
   */
  function ReplaceAll(s: string, pat: string, rep: string): (r: string)
    requires |pat| > 0
    ensures |rep| >= |pat| ==> |r| >= |s|
    ensures |rep| <= |pat| ==> |r| <= |s|
    decreases |s|
  {
    if |s| == 0 then []
    else if StartsWith(s, pat) then rep + ReplaceAll(s[|pat|..], pat, rep)
    else [s[0]] + ReplaceAll(s[1..], pat, rep)
  }

  /** True when `pat` starts at no index below `bound` of `s`. */
  predicate NoOccurrenceBefore(s: string, pat: string, bound: int)
  {
    forall i :: 0 <= i < bound && i <= |s| ==> !StartsWith(s[i..], pat)
  }

  /**
   * When the first occurrence of `pat` in `stem + pat + rest` starts right
   * after `stem`, the scan copies `stem`, replaces that occurrence and goes
   * on with `rest`.
   */
  lemma {:induction false} ReplaceAllFirstOccurrence(stem: string, pat: string, rep: string, rest: string)
    requires |pat| > 0
    requires NoOccurrenceBefore(stem + pat + rest, pat, |stem|)
    ensures ReplaceAll(stem + pat + rest, pat, rep) == stem + rep + ReplaceAll(rest, pat, rep)
    decreases |stem|
  {
    var s := stem + pat + rest;
    if |stem| == 0 {
      assert s == pat + rest;
      assert StartsWith(s, pat);
      assert s[|pat|..] == rest;
    } else {
      assert s[0..] == s;
      assert !StartsWith(s, pat);
      assert s[1..] == stem[1..] + pat + rest;
      forall i | 0 <= i < |stem[1..]| && i <= |s[1..]|
        ensures !StartsWith(s[1..][i..], pat)
      {
        assert s[1..][i..] == s[i + 1..];
      }
      ReplaceAllFirstOccurrence(stem[1..], pat, rep, rest);
      assert [stem[0]] + stem[1..] == stem;
    }
  }

  /**
   * When `pat` occurs in `stem + pat` only as its final part, replacing every
   * occurrence replaces just that suffix.
   */
  lemma ReplaceAllOnlySuffix(stem: string, pat: string, rep: string)
    requires |pat| > 0
    requires NoOccurrenceBefore(stem + pat, pat, |stem|)
    ensures ReplaceAll(stem + pat, pat, rep) == stem + rep
  {
    assert stem + pat + [] == stem + pat;
    ReplaceAllFirstOccurrence(stem, pat, rep, []);
  }

  /** Two occurrences, each the first after the text before it, are both replaced. */
  lemma ReplaceAllTwoOccurrences(a: string, b: string, pat: string, rep: string)
    requires |pat| > 0
    requires NoOccurrenceBefore(a + pat + (b + pat), pat, |a|)
    requires NoOccurrenceBefore(b + pat, pat, |b|)
    ensures ReplaceAll(a + pat + (b + pat), pat, rep) == a + rep + (b + rep)
  {
    ReplaceAllFirstOccurrence(a, pat, rep, b + pat);
    ReplaceAllOnlySuffix(b, pat, rep);
  }

  /**
   * A replacement longer than the pattern makes the text strictly longer as
   * soon as the pattern occurs somewhere (at index `i`).
   */
  lemma {:induction false} ReplaceAllGrows(s: string, pat: string, rep: string, i: nat)
    requires |pat| > 0 && |rep| > |pat|
    requires i <= |s| && StartsWith(s[i..], pat)
    ensures |ReplaceAll(s, pat, rep)| > |s|
    decreases |s|
  {
    if !StartsWith(s, pat) {
      assert i > 0 by { assert s[0..] == s; }
      assert s[1..][i - 1..] == s[i..];
      ReplaceAllGrows(s[1..], pat, rep, i - 1);
    }
  }
}
