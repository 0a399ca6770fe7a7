/**
 * The achievement description is shortened to 160 characters and then
 * `preg_replace('/\s+[^ ]*$/', '', $cut)` drops the trailing partial word.
 * PCRE searches for the leftmost start from which the pattern matches, and
 * the greedy `[^ ]*` runs on to the end of the subject, so the replacement
 * cuts the subject at that start. This module states that search as a
 * specification (TailMatches, leftmost) and proves the scan that computes it.
 */
module WordCut {
  import opened Numbers

  /** No plain space (U+0020) in t: what `[^ ]*` accepts. */
  predicate NoSpace(t: string) {
    forall k | 0 <= k < |t| :: t[k] != ' '
  }

  predicate NoWhite(t: string) {
    forall k | 0 <= k < |t| :: !IsWhite(t[k])
  }

  /** t splits after its first j characters into `\s+` (j >= 1 of them) and `[^ ]*`. */
  ghost predicate SplitsAt(t: string, j: nat)
    requires j <= |t|
  {
    1 <= j && (forall k | 0 <= k < j :: IsWhite(t[k])) && NoSpace(t[j..])
  }

  /** t, a suffix of the subject, is matched as a whole by `\s+[^ ]*$`. */
  ghost predicate TailMatches(t: string) {
    exists j: nat | j <= |t| :: SplitsAt(t, j)
  }

  /** The length of the run of white space t starts with. */
  function WhiteRun(t: string): (n: nat)
    ensures n <= |t|
    ensures forall k | 0 <= k < n :: IsWhite(t[k])
    ensures n < |t| ==> !IsWhite(t[n])
  {
    if t != [] && IsWhite(t[0]) then 1 + WhiteRun(t[1..]) else 0
  }

  /** The decision the scan makes at each start: white space first, then no space after the run. */
  predicate MatchesHere(t: string) {
    t != [] && IsWhite(t[0]) && NoSpace(t[WhiteRun(t)..])
  }

  lemma MatchesHereIff(t: string)
    ensures MatchesHere(t) <==> TailMatches(t)
  {
    if MatchesHere(t) {
      assert SplitsAt(t, WhiteRun(t));
    }
    if TailMatches(t) {
      var j: nat :| j <= |t| && SplitsAt(t, j);
      var n := WhiteRun(t);
      assert n >= j;
      forall k | 0 <= k < |t| - n
        ensures t[n..][k] != ' '
      {
        assert t[n..][k] == t[j..][k + n - j];
      }
    }
  }

  /** A match cannot be preceded by white space: the match would then start one earlier. */
  lemma NoWhiteBeforeMatch(t: string)
    requires t != [] && MatchesHere(t[1..]) && !MatchesHere(t)
    ensures !IsWhite(t[0])
  {
  }

  /** The suffix that starts at the last white-space character always matches. */
  lemma MatchAtLastWhite(c: string, l: nat)
    requires l < |c| && IsWhite(c[l])
    requires forall k | l < k < |c| :: !IsWhite(c[k])
    ensures MatchesHere(c[l..])
  {
    var t := c[l..];
    assert t[0] == c[l];
    forall k | 0 <= k < |t| - WhiteRun(t)
      ensures t[WhiteRun(t)..][k] != ' '
    {
      assert t[WhiteRun(t)..][k] == c[l + WhiteRun(t) + k];
    }
  }

  /** The leftmost start at or after i where the pattern matches; |c| when there is none. */
  function FirstMatch(c: string, i: nat): (m: nat)
    requires i <= |c|
    ensures i <= m <= |c|
    ensures m < |c| ==> MatchesHere(c[m..])
    ensures forall k | i <= k < m :: !MatchesHere(c[k..])
    decreases |c| - i
  {
    if i == |c| then |c|
    else if MatchesHere(c[i..]) then i
    else FirstMatch(c, i + 1)
  }

  /** `preg_replace('/\s+[^ ]*$/', '', $c)`. */
  function StripTrailingWord(c: string): (r: string)
    ensures |r| <= |c| && r == c[..|r|]
  {
    c[..FirstMatch(c, 0)]
  }

  /** The last white-space character at or after w. */
  function LastWhite(c: string, w: nat): (l: nat)
    requires w < |c| && IsWhite(c[w])
    ensures w <= l < |c| && IsWhite(c[l])
    ensures forall k | l < k < |c| :: !IsWhite(c[k])
    decreases |c| - w
  {
    if w + 1 < |c| && exists k | w < k < |c| :: IsWhite(c[k]) then
      var k :| w < k < |c| && IsWhite(c[k]);
      LastWhite(c, k)
    else w
  }

  /**
   * What the replacement does to the 160-character cut c: it keeps a prefix
   * r of c; it keeps all of c exactly when c holds no white space; otherwise
   * what it drops is the leftmost suffix matched by `\s+[^ ]*$`; and the kept
   * prefix never ends in white space.
   */
  lemma {:induction false} StripTrailingWordSpec(c: string)
    ensures var r := StripTrailingWord(c);
      && |r| <= |c| && r == c[..|r|]
      && (r == c <==> NoWhite(c))
      && (r != c ==> TailMatches(c[|r|..]))
      && (forall i | 0 <= i < |r| :: !TailMatches(c[i..]))
      && (|r| > 0 ==> !IsWhite(r[|r| - 1]))
  {
    var m := FirstMatch(c, 0);
    var r := StripTrailingWord(c);
    assert r == c[..m];
    forall i | 0 <= i < m
      ensures !TailMatches(c[i..])
    {
      MatchesHereIff(c[i..]);
    }
    if !NoWhite(c) {
      var w :| 0 <= w < |c| && IsWhite(c[w]);
      var l := LastWhite(c, w);
      MatchAtLastWhite(c, l);
      assert m <= l;
    }
    if m < |c| {
      MatchesHereIff(c[m..]);
      assert IsWhite(c[m]) by { assert c[m..][0] == c[m]; }
      if 0 < m {
        assert c[m - 1..][1..] == c[m..];
        NoWhiteBeforeMatch(c[m - 1..]);
        assert c[m - 1..][0] == r[|r| - 1];
      }
    }
  }

  const MaxDescription := 160

  /** The achievement description as shown: cut to 160 characters at a word boundary, with "…" appended. */
  function ShortDescription(desc: string): (r: string)
    ensures desc == "N/A" || |desc| <= MaxDescription ==> r == desc
    ensures desc != "N/A" && |desc| > MaxDescription ==>
      && |r| >= 1 && r[|r| - 1] == '…'
      && |r| - 1 <= MaxDescription
      && r[..|r| - 1] == desc[..|r| - 1]
      && (|r| - 1 == MaxDescription <==> NoWhite(desc[..MaxDescription]))
      && r == StripTrailingWord(desc[..MaxDescription]) + "…"
  {
    if desc != "N/A" && |desc| > MaxDescription then
      var cut := desc[..MaxDescription];
      StripTrailingWordSpec(cut);
      StripTrailingWord(cut) + "…"
    else desc
  }
}
