/**
 * Case-insensitive substring search: what `/pattern/i.test(text)` decides for
 * the plain ASCII patterns the error classifiers use. For such patterns a
 * non-unicode JavaScript regular expression folds only the ASCII letters.
 */
module TextMatch {

  function LowerChar(c: char): char
  {
    if 'A' <= c <= 'Z' then (c as int + 32) as char else c
  }

  function Lower(s: string): (r: string)
    ensures |r| == |s|
    ensures forall i :: 0 <= i < |s| ==> r[i] == LowerChar(s[i])
  {
    seq(|s|, i requires 0 <= i < |s| => LowerChar(s[i]))
  }

  /** `p` occurs in `s` at position `i`, up to ASCII case. */
  predicate MatchesAt(s: string, p: string, i: nat)
  {
    i + |p| <= |s| && Lower(s[i..i + |p|]) == Lower(p)
  }

  /** `/p/i.test(s)`, searching from the left. */
  predicate ContainsIgnoringCase(s: string, p: string)
    decreases |s|
  {
    MatchesAt(s, p, 0) || (|s| > 0 && ContainsIgnoringCase(s[1..], p))
  }

  /** A match at any position is found by the search... */
  lemma {:induction false} MatchFound(s: string, p: string, i: nat)
    requires MatchesAt(s, p, i)
    ensures ContainsIgnoringCase(s, p)
    decreases i
  {
    if i > 0 {
      assert s[1..][i - 1..i - 1 + |p|] == s[i..i + |p|];
      MatchFound(s[1..], p, i - 1);
    }
  }

  /** ...and the search succeeds only at a real match. */
  lemma {:induction false} MatchWitness(s: string, p: string) returns (i: nat)
    requires ContainsIgnoringCase(s, p)
    ensures MatchesAt(s, p, i)
    decreases |s|
  {
    if MatchesAt(s, p, 0) {
      i := 0;
    } else {
      var j := MatchWitness(s[1..], p);
      assert s[1..][j..j + |p|] == s[j + 1..j + 1 + |p|];
      i := j + 1;
    }
  }

  /** A text that embeds `p` (in any ASCII case) between any prefix and suffix contains it. */
  lemma ContainsEmbedded(pre: string, word: string, post: string, p: string)
    requires Lower(word) == Lower(p)
    ensures ContainsIgnoringCase(pre + word + post, p)
  {
    var s := pre + word + post;
    assert s[|pre|..|pre| + |p|] == word;
    MatchFound(s, p, |pre|);
  }

  lemma LowerLower(s: string)
    ensures Lower(Lower(s)) == Lower(s)
  {
  }

  /** Lower-casing the text first changes nothing: the search ignores case. */
  lemma {:induction false} ContainsLower(s: string, p: string)
    ensures ContainsIgnoringCase(Lower(s), p) == ContainsIgnoringCase(s, p)
    decreases |s|
  {
    var l := Lower(s);
    if |p| <= |s| {
      assert l[..|p|] == Lower(s[..|p|]);
      LowerLower(s[..|p|]);
    }
    if |s| > 0 {
      assert l[1..] == Lower(s[1..]);
      ContainsLower(s[1..], p);
    }
  }
}
