/**
 * The few ECMAScript string operations the tooltip mark relies on:
 * `String.prototype.trimEnd`, `String.prototype.trim` and `slice(0, j)`.
 */
module JsText {

  /**
   * The code points that `trim` and `trimEnd` remove: WhiteSpace and
   * LineTerminator of ECMA-262 (sections 12.2 and 12.3). U+200B ZERO WIDTH SPACE is a
   * format character (category Cf), not white space, so it is never trimmed.
   */
  predicate IsSpace(c: char) {
    || c in {'\U{0009}', '\U{000A}', '\U{000B}', '\U{000C}', '\U{000D}', '\U{0020}'}
    || c in {'\U{00A0}', '\U{1680}', '\U{2028}', '\U{2029}', '\U{202F}', '\U{205F}'}
    || c in {'\U{3000}', '\U{FEFF}'}
    || ('\U{2000}' <= c <= '\U{200A}')
  }

  /** `s.trimEnd()`: the longest prefix of `s` that does not end in white space. */
  function TrimEnd(s: string): (r: string)
    ensures r <= s
    ensures r == [] || !IsSpace(r[|r| - 1])
    ensures forall i :: |r| <= i < |s| ==> IsSpace(s[i])
    decreases |s|
  {
    if |s| > 0 && IsSpace(s[|s| - 1]) then TrimEnd(s[..|s| - 1]) else s
  }

  /** `s.trimStart()`: the longest suffix of `s` that does not start with white space. */
  function TrimStart(s: string): (r: string)
    ensures |r| <= |s| && r == s[|s| - |r|..]
    ensures r == [] || !IsSpace(r[0])
    ensures forall i :: 0 <= i < |s| - |r| ==> IsSpace(s[i])
    decreases |s|
  {
    if |s| > 0 && IsSpace(s[0]) then TrimStart(s[1..]) else s
  }

  /** `r` is `s` with white space, and only white space, removed before index `i` and after `r`. */
  predicate TrimmedAt(s: string, r: string, i: nat) {
    && i + |r| <= |s|
    && r == s[i..i + |r|]
    && (forall k | 0 <= k < i :: IsSpace(s[k]))
    && (forall k | i + |r| <= k < |s| :: IsSpace(s[k]))
  }

  /**
   * A prefix `e` of `s` followed only by white space, and a suffix `r` of `e`
   * preceded only by white space: `r` is `s` trimmed at both ends.
   */
  lemma TrimBothEnds(s: string, e: string, r: string)
    requires e <= s && forall k :: |e| <= k < |s| ==> IsSpace(s[k])
    requires |r| <= |e| && r == e[|e| - |r|..] && forall k :: 0 <= k < |e| - |r| ==> IsSpace(e[k])
    ensures 0 <= |e| - |r| <= |s| - |r| && TrimmedAt(s, r, |e| - |r|)
    ensures r == [] || r[|r| - 1] == e[|e| - 1]
  {
    var i := |e| - |r|;
    assert e == s[..|e|];
    assert r == e[i..];
    if r != [] {
      assert r[|r| - 1] == e[i + |r| - 1];
    }
    assert r == s[i..i + |r|];
    forall k | 0 <= k < i
      ensures IsSpace(s[k])
    {
      assert s[k] == e[k];
    }
  }

  /** `s.trim()`: white space removed from both ends. */
  function Trim(s: string): (r: string)
    ensures |r| <= |s|
    ensures r == [] || (!IsSpace(r[0]) && !IsSpace(r[|r| - 1]))
    ensures s == [] || (!IsSpace(s[0]) && !IsSpace(s[|s| - 1])) ==> r == s
    ensures s != [] && !IsSpace(s[|s| - 1]) ==> r != [] && r[|r| - 1] == s[|s| - 1]
    // r is s with white space, and only white space, removed from its two ends
    ensures exists i | 0 <= i <= |s| - |r| :: TrimmedAt(s, r, i)
  {
    var e := TrimEnd(s);
    var r := TrimStart(e);
    TrimBothEnds(s, e, r);
    r
  }

  /** `s.slice(0, j)` for a non-negative `j`: JavaScript clamps `j` to the length. */
  function Prefix(s: string, j: nat): (r: string)
    ensures r <= s
    ensures |r| == if j < |s| then j else |s|
  {
    if j < |s| then s[..j] else s
  }
}
