/** An ASCII model of the two string methods the symptom box applies to its
    input, Python's str.lower() followed by str.strip(). */
module Text {

  /** The characters of the ASCII range that Python's str.isspace() accepts:
      tab, line feed, vertical tab, form feed, carriage return, the four
      information separators (0x1C to 0x1F) and space. */
  predicate IsSpace(c: char) {
    var n := c as int;
    n == 32 || 9 <= n <= 13 || 28 <= n <= 31
  }

  predicate IsUpper(c: char) {
    'A' <= c <= 'Z'
  }

  function LowerChar(c: char): char {
    if IsUpper(c) then (c as int + 32) as char else c
  }

  predicate AllSpace(s: string) {
    forall i :: 0 <= i < |s| ==> IsSpace(s[i])
  }

  predicate NoUpper(s: string) {
    forall i :: 0 <= i < |s| ==> !IsUpper(s[i])
  }

  /** `s.lower()`, restricted to ASCII letters. */
  function Lower(s: string): (r: string)
    ensures |r| == |s|
    ensures forall i :: 0 <= i < |s| ==> r[i] == LowerChar(s[i])
  {
    if s == [] then [] else [LowerChar(s[0])] + Lower(s[1..])
  }

  /** The number of white-space characters `s` starts with. */
  function Lead(s: string): (n: nat)
    ensures n <= |s|
    ensures forall i :: 0 <= i < n ==> IsSpace(s[i])
    ensures n == |s| || !IsSpace(s[n])
  {
    if s != [] && IsSpace(s[0]) then 1 + Lead(s[1..]) else 0
  }

  /** The length of `s` without the white space it ends with. */
  function End(s: string): (n: nat)
    ensures n <= |s|
    ensures forall i :: n <= i < |s| ==> IsSpace(s[i])
    ensures n == 0 || !IsSpace(s[n - 1])
  {
    if s != [] && IsSpace(s[|s| - 1]) then End(s[..|s| - 1]) else |s|
  }

  /** Below a non-blank character, the leading white space stops before the
      trailing white space starts. */
  lemma LeadBeforeEnd(s: string)
    requires Lead(s) < |s|
    ensures Lead(s) < End(s)
  {
  }

  /** `s.strip()`: the infix of `s` between its leading and its trailing
      white space, empty when `s` is all white space (StripInfix,
      StripEmpty, StripEnds). */
  function Strip(s: string): (r: string)
    ensures |r| <= |s|
  {
    var lo := Lead(s);
    if lo == |s| then [] else
      LeadBeforeEnd(s);
      s[lo..End(s)]
  }

  /** A string is all white space exactly when its leading white space is all of it. */
  lemma BlankIsAllSpace(s: string)
    ensures Lead(s) == |s| <==> AllSpace(s)
  {
    if Lead(s) != |s| {
      assert !IsSpace(s[Lead(s)]);
    }
  }

  /** What strip returns is the infix of `s` from its first non-blank
      character, with only white space on either side of it. */
  lemma StripInfix(s: string)
    ensures var r, lo := Strip(s), Lead(s);
      lo + |r| <= |s| && r == s[lo..lo + |r|] &&
      AllSpace(s[..lo]) && AllSpace(s[lo + |r|..])
  {
    var lo := Lead(s);
    SpacePrefix(s, lo);
    if lo < |s| {
      LeadBeforeEnd(s);
      var hi := End(s);
      assert |Strip(s)| == hi - lo;
      SpaceSuffix(s, hi);
    } else {
      assert s[lo..] == [];
    }
  }

  lemma SpacePrefix(s: string, n: nat)
    requires n <= |s|
    requires forall i :: 0 <= i < n ==> IsSpace(s[i])
    ensures AllSpace(s[..n])
  {
    assert forall i :: 0 <= i < n ==> s[..n][i] == s[i];
  }

  lemma SpaceSuffix(s: string, n: nat)
    requires n <= |s|
    requires forall i :: n <= i < |s| ==> IsSpace(s[i])
    ensures AllSpace(s[n..])
  {
    assert forall i :: 0 <= i < |s| - n ==> s[n..][i] == s[n + i];
  }

  /** Strip returns the empty string exactly for a string of white space. */
  lemma StripEmpty(s: string)
    ensures Strip(s) == [] <==> AllSpace(s)
  {
    BlankIsAllSpace(s);
    if Lead(s) < |s| {
      LeadBeforeEnd(s);
    }
  }

  /** What strip returns neither starts nor ends with white space. */
  lemma StripEnds(s: string)
    ensures Strip(s) == [] || (!IsSpace(Strip(s)[0]) && !IsSpace(Strip(s)[|Strip(s)| - 1]))
  {
    var lo := Lead(s);
    if lo < |s| {
      LeadBeforeEnd(s);
      var hi := End(s);
      var r := Strip(s);
      assert r[0] == s[lo];
      assert r[|r| - 1] == s[hi - 1];
    }
  }

  lemma StripKeepsNoUpper(s: string)
    requires NoUpper(s)
    ensures NoUpper(Strip(s))
  {
    var lo := Lead(s);
    if lo < |s| {
      LeadBeforeEnd(s);
      var r := Strip(s);
      assert forall i :: 0 <= i < |r| ==> r[i] == s[lo + i];
    }
  }

  /** What a symptom key looks like: no upper-case letter and no white space
      at either end. */
  predicate IsNormal(s: string) {
    NoUpper(s) && (s == [] || (!IsSpace(s[0]) && !IsSpace(s[|s| - 1])))
  }

  /** `text.lower().strip()`, the normalisation applied to the symptom box. */
  function Normalize(s: string): (r: string)
    ensures IsNormal(r)
    ensures |r| <= |s|
  {
    var t := Lower(s);
    StripEnds(t);
    assert NoUpper(t);
    StripKeepsNoUpper(t);
    Strip(t)
  }

  lemma {:induction false} LowerAppend(a: string, b: string)
    ensures Lower(a + b) == Lower(a) + Lower(b)
  {
    if a == [] {
      assert a + b == b;
    } else {
      assert (a + b)[1..] == a[1..] + b;
      LowerAppend(a[1..], b);
    }
  }

  /** Lower-casing leaves a string without upper-case letters untouched. */
  lemma LowerKeepsLowerCase(s: string)
    requires NoUpper(s)
    ensures Lower(s) == s
  {
    assert forall i :: 0 <= i < |s| ==> Lower(s)[i] == s[i];
  }

  lemma LowerKeepsSpace(w: string)
    requires AllSpace(w)
    ensures Lower(w) == w
  {
    LowerKeepsLowerCase(w);
  }

  /** White space put in front of a string adds to its leading white space. */
  lemma {:induction false} LeadPadded(w: string, t: string)
    requires AllSpace(w)
    ensures Lead(w + t) == |w| + Lead(t)
  {
    if w != [] {
      assert (w + t)[1..] == w[1..] + t;
      LeadPadded(w[1..], t);
    } else {
      assert w + t == t;
    }
  }

  /** Text after the first non-blank character does not change the leading
      white space. */
  lemma {:induction false} LeadAppend(t: string, u: string)
    requires Lead(t) < |t|
    ensures Lead(t + u) == Lead(t)
  {
    if IsSpace(t[0]) {
      assert (t + u)[1..] == t[1..] + u;
      LeadAppend(t[1..], u);
    }
  }

  /** White space put after a string adds to its trailing white space. */
  lemma {:induction false} EndPadded(t: string, w: string)
    requires AllSpace(w)
    ensures End(t + w) == End(t)
  {
    if w != [] {
      var n := |w| - 1;
      assert (t + w)[..|t + w| - 1] == t + w[..n];
      EndPadded(t, w[..n]);
    } else {
      assert t + w == t;
    }
  }

  /** Text before the last non-blank character does not change the trailing
      white space. */
  lemma {:induction false} EndPrepend(p: string, t: string)
    requires 0 < End(t)
    ensures End(p + t) == |p| + End(t)
  {
    var n := |t| - 1;
    if IsSpace(t[n]) {
      assert (p + t)[..|p + t| - 1] == p + t[..n];
      EndPrepend(p, t[..n]);
    }
  }

  lemma SliceShift(w: string, u: string, lo: nat, hi: nat)
    requires lo <= hi <= |u|
    ensures (w + u)[|w| + lo..|w| + hi] == u[lo..hi]
  {
    assert (w + u)[|w|..] == u;
    assert (w + u)[|w| + lo..|w| + hi] == (w + u)[|w|..][lo..hi];
  }

  /** Stripping is not affected by white space in front. */
  lemma StripAfterSpace(w: string, u: string)
    requires AllSpace(w)
    ensures Strip(w + u) == Strip(u)
  {
    LeadPadded(w, u);
    if Lead(u) < |u| {
      StripAfterSpaceVisible(w, u);
    } else {
      assert Lead(w + u) == |w + u|;
    }
  }

  /** The case of `StripAfterSpace` where `u` has a non-blank character. */
  lemma StripAfterSpaceVisible(w: string, u: string)
    requires AllSpace(w) && Lead(u) < |u|
    requires Lead(w + u) == |w| + Lead(u)
    ensures Strip(w + u) == Strip(u)
  {
    var lo, hi := Lead(u), End(u);
    LeadBeforeEnd(u);
    EndPrepend(w, u);
    SliceShift(w, u, lo, hi);
    assert Strip(w + u) == (w + u)[|w| + lo..|w| + hi];
  }

  /** Stripping is not affected by white space behind. */
  lemma StripBeforeSpace(u: string, w: string)
    requires AllSpace(w)
    ensures Strip(u + w) == Strip(u)
  {
    EndPadded(u, w);
    var lo, hi := Lead(u), End(u);
    if lo < |u| {
      LeadBeforeEnd(u);
      LeadAppend(u, w);
      assert (u + w)[lo..hi] == u[lo..hi];
    } else {
      BlankIsAllSpace(u);
      LeadPadded(u, w);
      assert w + [] == w;
      LeadPadded(w, []);
    }
  }

  /** Stripping is not affected by surrounding white space. */
  lemma StripPadded(pre: string, t: string, post: string)
    requires AllSpace(pre) && AllSpace(post)
    ensures Strip(pre + t + post) == Strip(t)
  {
    assert pre + t + post == pre + (t + post);
    StripChain(pre, t + post, t, post);
  }

  lemma StripChain(pre: string, u: string, t: string, post: string)
    requires AllSpace(pre) && AllSpace(post) && u == t + post
    ensures Strip(pre + u) == Strip(t)
  {
    StripAfterSpace(pre, u);
    StripBeforeSpace(t, post);
  }

  /** Normalising ignores white space around the text typed into the box. */
  lemma NormalizePadded(pre: string, s: string, post: string)
    requires AllSpace(pre) && AllSpace(post)
    ensures Normalize(pre + s + post) == Normalize(s)
  {
    LowerAppend(pre + s, post);
    LowerAppend(pre, s);
    LowerKeepsSpace(pre);
    LowerKeepsSpace(post);
    StripPadded(pre, Lower(s), post);
  }

  /** The normal strings are exactly the fixed points of normalisation. */
  lemma NormalizeFixed(s: string)
    ensures Normalize(s) == s <==> IsNormal(s)
  {
    if IsNormal(s) {
      LowerKeepsLowerCase(s);
      if s != [] {
        assert Lead(s) == 0 && End(s) == |s|;
        assert s[0..|s|] == s;
      }
    }
  }

  /** Normalising twice is normalising once. */
  lemma NormalizeIdempotent(s: string)
    ensures Normalize(Normalize(s)) == Normalize(s)
  {
    NormalizeFixed(Normalize(s));
  }
}
