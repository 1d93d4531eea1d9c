/**
  Whitespace trimming as Go's strings.TrimSpace does it: every leading and
  trailing code point for which unicode.IsSpace holds is removed.
*/
module Text {

  /** Go's unicode.IsSpace: the Latin-1 spaces plus the Unicode White_Space property. */
  predicate IsSpace(c: char) {
    || c == '\t' || c == '\n' || c == '\U{000B}' || c == '\U{000C}' || c == '\r' || c == ' '
    || c == '\U{0085}' || c == '\U{00A0}' || c == '\U{1680}'
    || ('\U{2000}' <= c <= '\U{200A}')
    || c == '\U{2028}' || c == '\U{2029}' || c == '\U{202F}' || c == '\U{205F}' || c == '\U{3000}'
  }

  predicate AllSpace(s: string) {
    forall i :: 0 <= i < |s| ==> IsSpace(s[i])
  }

  /** Every code point of s in [lo, hi) is whitespace. */
  predicate SpaceBetween(s: string, lo: nat, hi: nat)
    requires lo <= hi <= |s|
  {
    forall j :: lo <= j < hi ==> IsSpace(s[j])
  }

  /** The length of the run of whitespace starting at position i. */
  function SpaceRunFrom(s: string, i: nat): (k: nat)
    requires i <= |s|
    ensures i + k <= |s|
    decreases |s| - i
  {
    if i == |s| || !IsSpace(s[i]) then 0 else 1 + SpaceRunFrom(s, i + 1)
  }

  /** The length of the run of whitespace ending just before position n, not reaching below lo. */
  function SpaceRunBefore(s: string, lo: nat, n: nat): (k: nat)
    requires lo <= n <= |s|
    ensures k <= n - lo
    decreases n - lo
  {
    if n == lo || !IsSpace(s[n - 1]) then 0 else 1 + SpaceRunBefore(s, lo, n - 1)
  }

  /** SpaceRunFrom counts a maximal run: all of it is whitespace and what follows is not. */
  lemma {:induction false} SpaceRunFromMaximal(s: string, i: nat)
    requires i <= |s|
    ensures SpaceBetween(s, i, i + SpaceRunFrom(s, i))
    ensures i + SpaceRunFrom(s, i) < |s| ==> !IsSpace(s[i + SpaceRunFrom(s, i)])
    decreases |s| - i
  {
    if i < |s| && IsSpace(s[i]) {
      SpaceRunFromMaximal(s, i + 1);
    }
  }

  /** SpaceRunBefore counts a maximal run: all of it is whitespace and, unless it reaches lo,
      what precedes it is not. */
  lemma {:induction false} SpaceRunBeforeMaximal(s: string, lo: nat, n: nat)
    requires lo <= n <= |s|
    ensures SpaceBetween(s, n - SpaceRunBefore(s, lo, n), n)
    ensures n - SpaceRunBefore(s, lo, n) > lo ==> !IsSpace(s[n - SpaceRunBefore(s, lo, n) - 1])
    decreases n - lo
  {
    if n > lo && IsSpace(s[n - 1]) {
      SpaceRunBeforeMaximal(s, lo, n - 1);
    }
  }

  /** strings.TrimSpace: s without its leading and trailing whitespace. */
  function TrimSpace(s: string): (r: string)
    ensures |r| <= |s|
  {
    var lead := SpaceRunFrom(s, 0);
    s[lead..|s| - SpaceRunBefore(s, lead, |s|)]
  }

  /** The trimmed string neither starts nor ends with whitespace. */
  lemma TrimSpaceEdges(s: string)
    ensures var r := TrimSpace(s);
      r != [] ==> !IsSpace(r[0]) && !IsSpace(r[|r| - 1])
  {
    var lead := SpaceRunFrom(s, 0);
    var hi := |s| - SpaceRunBefore(s, lead, |s|);
    SpaceRunFromMaximal(s, 0);
    SpaceRunBeforeMaximal(s, lead, |s|);
    var r := s[lead..hi];
    if r != [] {
      assert r[0] == s[lead];
      assert r[|r| - 1] == s[hi - 1];
    }
  }

  /** r sits in s at position i with nothing but whitespace on either side of it. */
  predicate CutFrom(s: string, r: string, i: nat) {
    && i + |r| <= |s| && s[i..i + |r|] == r
    && SpaceBetween(s, 0, i) && SpaceBetween(s, i + |r|, |s|)
  }

  /** The trimmed string is the middle of s, with only whitespace cut on either side. */
  lemma TrimSpaceSubstring(s: string)
    ensures exists i :: CutFrom(s, TrimSpace(s), i)
  {
    var lead := SpaceRunFrom(s, 0);
    SpaceRunFromMaximal(s, 0);
    SpaceRunBeforeMaximal(s, lead, |s|);
    assert CutFrom(s, TrimSpace(s), lead);
  }

  /** Trimming is the identity exactly on strings without edge whitespace. */
  lemma TrimSpaceIdentity(s: string)
    ensures TrimSpace(s) == s <==> (s == [] || (!IsSpace(s[0]) && !IsSpace(s[|s| - 1])))
  {
    TrimSpaceEdges(s);
    if s != [] && !IsSpace(s[0]) && !IsSpace(s[|s| - 1]) {
      assert SpaceRunFrom(s, 0) == 0;
      assert SpaceRunBefore(s, 0, |s|) == 0;
    }
  }

  /** Trimming twice is trimming once. */
  lemma TrimSpaceIdempotent(s: string)
    ensures TrimSpace(TrimSpace(s)) == TrimSpace(s)
  {
    TrimSpaceEdges(s);
    TrimSpaceIdentity(TrimSpace(s));
  }

  /** A string of whitespace only trims to the empty string, and nothing else does. */
  lemma TrimSpaceEmpty(s: string)
    ensures TrimSpace(s) == [] <==> AllSpace(s)
  {
    var lead := SpaceRunFrom(s, 0);
    SpaceRunFromMaximal(s, 0);
    if lead < |s| {
      SpaceRunBeforeMaximal(s, lead, |s|);
      assert TrimSpace(s)[0] == s[lead];
    }
  }
}
