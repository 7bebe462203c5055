/** The few Python string operations the message router relies on:
    str.strip() with no argument, str.lower(), str.startswith() and
    str.replace(pat, "") (used to delete a keyword). */
module PyString {

  /** Exactly the characters for which Python's str.isspace() holds; these
      are the characters str.strip() removes when called with no argument. */
  predicate IsSpace(c: char) {
    || ('\U{0009}' <= c <= '\U{000D}')
    || ('\U{001C}' <= c <= '\U{001F}')
    || c == ' '
    || c == '\U{0085}'
    || c == '\U{00A0}'
    || c == '\U{1680}'
    || ('\U{2000}' <= c <= '\U{200A}')
    || c == '\U{2028}'
    || c == '\U{2029}'
    || c == '\U{202F}'
    || c == '\U{205F}'
    || c == '\U{3000}'
  }

  /** Removes leading whitespace. */
  function StripLeft(s: string): (r: string)
    ensures |r| <= |s| && r == s[|s| - |r|..]
    ensures r != [] ==> !IsSpace(r[0])
  {
    if s != [] && IsSpace(s[0]) then StripLeft(s[1..]) else s
  }

  /** Removes trailing whitespace. */
  function StripRight(s: string): (r: string)
    ensures |r| <= |s| && r == s[..|r|]
    ensures r != [] ==> !IsSpace(r[|r| - 1])
  {
    if s != [] && IsSpace(s[|s| - 1]) then StripRight(s[..|s| - 1]) else s
  }

  /** Everything StripLeft cuts off is whitespace. */
  lemma {:induction false} StripLeftCutsSpace(s: string)
    ensures forall i :: 0 <= i < |s| - |StripLeft(s)| ==> IsSpace(s[i])
    decreases |s|
  {
    if s != [] && IsSpace(s[0]) {
      StripLeftCutsSpace(s[1..]);
      forall i | 1 <= i < |s| - |StripLeft(s)| ensures IsSpace(s[i]) {
        assert s[i] == s[1..][i - 1];
      }
    }
  }

  /** Everything StripRight cuts off is whitespace. */
  lemma {:induction false} StripRightCutsSpace(s: string)
    ensures forall i :: |StripRight(s)| <= i < |s| ==> IsSpace(s[i])
    decreases |s|
  {
    if s != [] && IsSpace(s[|s| - 1]) {
      StripRightCutsSpace(s[..|s| - 1]);
      forall i | |StripRight(s)| <= i < |s| - 1 ensures IsSpace(s[i]) {
        assert s[i] == s[..|s| - 1][i];
      }
    }
  }

  /** Python's s.strip(): the input with leading and trailing whitespace cut.
      The result neither starts nor ends with whitespace. */
  function Strip(s: string): (r: string)
    ensures |r| <= |s|
    ensures r != [] ==> !IsSpace(r[0]) && !IsSpace(r[|r| - 1])
  {
    StripRight(StripLeft(s))
  }

  /** What Strip keeps is one slice s[lo..hi] of its input, and all it cuts
      off on either side is whitespace. */
  lemma StripCutsWhitespace(s: string) returns (lo: int, hi: int)
    ensures 0 <= lo <= hi <= |s| && Strip(s) == s[lo..hi]
    ensures forall i :: 0 <= i < lo ==> IsSpace(s[i])
    ensures forall i :: hi <= i < |s| ==> IsSpace(s[i])
  {
    var left := StripLeft(s);
    lo := |s| - |left|;
    StripLeftCutsSpace(s);
    RightCutOfSuffix(s, lo, left);
    hi := lo + |StripRight(left)|;
  }

  /** Stripping the right end of the suffix s[lo..] keeps a slice of s and
      cuts off only whitespace. */
  lemma RightCutOfSuffix(s: string, lo: int, left: string)
    requires 0 <= lo <= |s| && left == s[lo..]
    ensures lo + |StripRight(left)| <= |s|
    ensures StripRight(left) == s[lo..lo + |StripRight(left)|]
    ensures forall i :: lo + |StripRight(left)| <= i < |s| ==> IsSpace(s[i])
  {
    var r := StripRight(left);
    StripRightCutsSpace(left);
    assert r == left[..|r|];
    forall i | lo + |r| <= i < |s| ensures IsSpace(s[i]) {
      assert s[i] == left[i - lo];
    }
  }

  lemma StripLeftOfTrimmed(s: string)
    requires s != [] ==> !IsSpace(s[0])
    ensures StripLeft(s) == s
  {
  }

  lemma StripRightOfTrimmed(s: string)
    requires s != [] ==> !IsSpace(s[|s| - 1])
    ensures StripRight(s) == s
  {
  }

  /** Stripping twice is stripping once. */
  lemma StripIdempotent(s: string)
    ensures Strip(Strip(s)) == Strip(s)
  {
    var t := Strip(s);
    StripLeftOfTrimmed(t);
    StripRightOfTrimmed(t);
  }

  /** Python's str.lower() on one character, for the characters whose lower
      case is a single ASCII letter: 'A'..'Z' and U+212A KELVIN SIGN. */
  function LowerChar(c: char): char {
    if 'A' <= c <= 'Z' then (c as int + 32) as char
    else if c == '\U{212A}' then 'k'
    else c
  }

  /** Python's s.lower(), character by character. */
  function Lower(s: string): (r: string)
    ensures |r| == |s|
    ensures forall i :: 0 <= i < |s| ==> r[i] == LowerChar(s[i])
  {
    if s == [] then [] else [LowerChar(s[0])] + Lower(s[1..])
  }

  /** A character that lowering leaves alone and that no other character
      lowers to. */
  predicate Caseless(c: char) {
    LowerChar(c) == c && !('a' <= c <= 'z')
  }

  /** Python's s.startswith(p): s is at least as long as p and agrees with
      it at every index of p. */
  predicate StartsWith(s: string, p: string)
    ensures StartsWith(s, p) <==> |p| <= |s| && forall i :: 0 <= i < |p| ==> s[i] == p[i]
  {
    |p| <= |s| && s[..|p|] == p
  }

  /** A string whose first character differs from the prefix's does not start with it. */
  lemma FirstCharBlocksPrefix(s: string, p: string)
    requires p != [] && (s == [] || s[0] != p[0])
    ensures !StartsWith(s, p)
  {
  }

  /** Lowering first does not change whether a string starts with a prefix
      made of caseless characters such as CJK ideographs. */
  lemma {:induction false} StartsWithLower(s: string, p: string)
    requires forall i :: 0 <= i < |p| ==> Caseless(p[i])
    ensures StartsWith(Lower(s), p) <==> StartsWith(s, p)
  {
    var l := Lower(s);
    if StartsWith(l, p) {
      forall i | 0 <= i < |p| ensures s[i] == p[i] {
        assert l[i] == p[i];
        assert LowerChar(s[i]) == p[i];
      }
      assert s[..|p|] == p;
    }
    if StartsWith(s, p) {
      forall i | 0 <= i < |p| ensures l[i] == p[i] {
        assert s[i] == p[i];
      }
      assert l[..|p|] == p;
    }
  }

  /** pat occurs somewhere in s. */
  predicate Contains(s: string, pat: string) {
    exists i :: 0 <= i <= |s| && OccursAt(s, pat, i)
  }

  /** pat occurs in s starting at index i. */
  predicate OccursAt(s: string, pat: string, i: int) {
    0 <= i && i + |pat| <= |s| && s[i..i + |pat|] == pat
  }

  /** Python's s.replace(pat, ""): scanning left to right, every
      non-overlapping occurrence of pat is deleted. */
  function RemoveAll(s: string, pat: string): (r: string)
    requires pat != []
    ensures |r| <= |s|
    decreases |s|
  {
    if |s| < |pat| then s
    else if s[..|pat|] == pat then RemoveAll(s[|pat|..], pat)
    else [s[0]] + RemoveAll(s[1..], pat)
  }

  /** Nothing to delete: replace leaves the string as it is. */
  lemma {:induction false} RemoveAllAbsent(s: string, pat: string)
    requires pat != [] && !Contains(s, pat)
    ensures RemoveAll(s, pat) == s
    decreases |s|
  {
    if |s| >= |pat| {
      assert s[0..0 + |pat|] == s[..|pat|];
      assert !OccursAt(s, pat, 0);
      if Contains(s[1..], pat) {
        var i :| 0 <= i <= |s[1..]| && OccursAt(s[1..], pat, i);
        OccursInTail(s, pat, i);
        assert false;
      }
      RemoveAllAbsent(s[1..], pat);
      assert [s[0]] + s[1..] == s;
    }
  }

  /** An occurrence in s[1..] is an occurrence in s, one place further on. */
  lemma OccursInTail(s: string, pat: string, i: int)
    requires s != [] && OccursAt(s[1..], pat, i)
    ensures OccursAt(s, pat, i + 1)
  {
    assert s[i + 1..i + 1 + |pat|] == s[1..][i..i + |pat|];
  }

  /** A leading occurrence is deleted and the scan goes on after it. */
  lemma RemoveAllLeading(pat: string, s: string)
    requires pat != []
    ensures RemoveAll(pat + s, pat) == RemoveAll(s, pat)
  {
    assert (pat + s)[..|pat|] == pat;
    assert (pat + s)[|pat|..] == s;
  }

  /** A two-character keyword with distinct characters cannot straddle a
      boundary, so deleting it from a + k + b deletes the k in the middle and
      handles a and b on their own: every occurrence is deleted, wherever it
      stands. */
  lemma {:induction false} RemoveAllSplits(a: string, b: string, k: string)
    requires |k| == 2 && k[0] != k[1]
    ensures RemoveAll(a + k + b, k) == RemoveAll(a, k) + RemoveAll(b, k)
    decreases |a|
  {
    if a == [] {
      assert a + k + b == k + b;
      RemoveAllLeading(k, b);
    } else if |a| >= 2 && a[..2] == k {
      var rest := a[2..];
      RemoveAllSplits(rest, b, k);
      SplitsAfterLeading(rest, b, k);
      assert a == k + rest;
    } else {
      var rest := a[1..];
      RemoveAllSplits(rest, b, k);
      SplitsAfterKept(a, b, k);
    }
  }

  /** The inductive step of RemoveAllSplits when a starts with k. */
  lemma SplitsAfterLeading(rest: string, b: string, k: string)
    requires |k| == 2
    requires RemoveAll(rest + k + b, k) == RemoveAll(rest, k) + RemoveAll(b, k)
    ensures RemoveAll(k + rest + k + b, k) == RemoveAll(k + rest, k) + RemoveAll(b, k)
  {
    assert k + rest + k + b == k + (rest + k + b);
    RemoveAllLeading(k, rest + k + b);
    RemoveAllLeading(k, rest);
  }

  /** The inductive step of RemoveAllSplits when a's first character is kept. */
  lemma SplitsAfterKept(a: string, b: string, k: string)
    requires |k| == 2 && k[0] != k[1] && a != []
    requires !(|a| >= 2 && a[..2] == k)
    requires RemoveAll(a[1..] + k + b, k) == RemoveAll(a[1..], k) + RemoveAll(b, k)
    ensures RemoveAll(a + k + b, k) == RemoveAll(a, k) + RemoveAll(b, k)
  {
    var c, rest := a[0], a[1..];
    var x, y := RemoveAll(rest, k), RemoveAll(b, k);
    var s := [c] + (rest + k + b);
    ConsAppend(a, k, b);
    if c == k[0] {
      if |a| == 1 {
        assert s[1] == k[0];
      } else {
        assert s[1] == a[1];
        assert a[..2] == [c, a[1]];
      }
    }
    assert s[0] != k[0] || s[1] != k[1];
    RemoveAllKeep(c, rest + k + b, k);
    if |a| == 1 {
      assert rest == [] && x == [];
      assert RemoveAll(a, k) == a;
    } else {
      assert a == [c] + rest;
      RemoveAllKeep(c, rest, k);
    }
    assert RemoveAll(a, k) == [c] + x;
    ConsAssoc(c, x, y);
  }

  lemma ConsAppend(a: string, k: string, b: string)
    requires a != []
    ensures a + k + b == [a[0]] + (a[1..] + k + b)
  {
  }

  lemma ConsAssoc(c: char, x: string, y: string)
    ensures [c] + (x + y) == ([c] + x) + y
  {
  }

  /** A leading character that does not start an occurrence is kept. */
  lemma RemoveAllKeep(c: char, s: string, pat: string)
    requires pat != []
    requires !StartsWith([c] + s, pat)
    ensures RemoveAll([c] + s, pat) == [c] + RemoveAll(s, pat)
  {
    assert ([c] + s)[1..] == s;
  }
}
