/**
 * The JavaScript string operations the pipeline relies on: `String.prototype.trim`,
 * the `length` property (UTF-16 code units) and `Array.prototype.join`.
 */
module Text {

  /** The white-space and line-terminator code points that `trim` removes. */
  predicate IsJsWhitespace(c: char)
  {
    || c == '\t' || c == '\n' || c == '\U{B}' || c == '\U{C}' || c == '\r' || c == ' '
    || c == '\U{A0}' || c == '\U{1680}' || ('\U{2000}' <= c <= '\U{200A}')
    || c == '\U{2028}' || c == '\U{2029}' || c == '\U{202F}' || c == '\U{205F}'
    || c == '\U{3000}' || c == '\U{FEFF}'
  }

  /** Drops leading white space: the result is a suffix of `s` and starts with a non-space. */
  function TrimStart(s: string): (r: string)
    ensures |r| <= |s| && r == s[|s| - |r|..]
    ensures r == [] || !IsJsWhitespace(r[0])
    ensures forall k :: 0 <= k < |s| - |r| ==> IsJsWhitespace(s[k])
  {
    if s != [] && IsJsWhitespace(s[0]) then TrimStart(s[1..]) else s
  }

  /** Drops trailing white space: the result is a prefix of `s` and ends with a non-space. */
  function TrimEnd(s: string): (r: string)
    ensures |r| <= |s| && r == s[..|r|]
    ensures r == [] || !IsJsWhitespace(r[|r| - 1])
    ensures forall k :: |r| <= k < |s| ==> IsJsWhitespace(s[k])
  {
    if s != [] && IsJsWhitespace(s[|s| - 1]) then TrimEnd(s[..|s| - 1]) else s
  }

  /** `r` is `s[lo..lo + |r|]` and everything of `s` outside that slice is white space. */
  predicate CutFrom(r: string, s: string, lo: nat)
  {
    && OccursAt(r, s, lo)
    && (forall k :: 0 <= k < lo ==> IsJsWhitespace(s[k]))
    && (forall k :: lo + |r| <= k < |s| ==> IsJsWhitespace(s[k]))
  }

  /**
   * `s.trim()`: a contiguous slice of `s` that neither starts nor ends with white space,
   * and what was cut off on either side is white space only.
   */
  function Trim(s: string): (r: string)
    ensures exists lo: nat :: CutFrom(r, s, lo)
    ensures r == [] || (!IsJsWhitespace(r[0]) && !IsJsWhitespace(r[|r| - 1]))
  {
    var t := TrimStart(s);
    var r := TrimEnd(t);
    var lo := |s| - |t|;
    assert CutFrom(r, s, lo);
    r
  }

  /** The number of UTF-16 code units of one character: two for an astral code point. */
  function Utf16Units(c: char): nat
  {
    if c as int > 0xFFFF then 2 else 1
  }

  /** JavaScript's `s.length`, which counts UTF-16 code units rather than characters. */
  function Utf16Length(s: string): (n: nat)
    ensures |s| <= n <= 2 * |s|
  {
    if s == [] then 0 else Utf16Units(s[0]) + Utf16Length(s[1..])
  }

  /** `xs.join(sep)`. */
  function Join(xs: seq<string>, sep: string): (r: string)
    ensures |xs| == 0 ==> r == ""
    ensures |xs| == 1 ==> r == xs[0]
    ensures |xs| > 1 ==> |xs[0] + sep| <= |r| && r[..|xs[0] + sep|] == xs[0] + sep
  {
    if |xs| == 0 then "" else if |xs| == 1 then xs[0] else xs[0] + sep + Join(xs[1..], sep)
  }

  /** `t` occurs in `s` at position `p`. */
  predicate OccursAt(t: string, s: string, p: nat)
  {
    p + |t| <= |s| && s[p..p + |t|] == t
  }

  /** Each element of `xs` occurs in `xs.join(sep)`. */
  lemma {:induction false} JoinContains(xs: seq<string>, sep: string, k: nat)
    requires k < |xs|
    ensures exists p: nat :: OccursAt(xs[k], Join(xs, sep), p)
  {
    if |xs| == 1 {
      assert OccursAt(xs[0], Join(xs, sep), 0);
    } else if k == 0 {
      assert Join(xs, sep) == xs[0] + (sep + Join(xs[1..], sep));
      assert OccursAt(xs[0], Join(xs, sep), 0);
    } else {
      JoinContains(xs[1..], sep, k - 1);
      var p: nat :| OccursAt(xs[1..][k - 1], Join(xs[1..], sep), p);
      var off := |xs[0]| + |sep|;
      var j := Join(xs, sep);
      assert j == (xs[0] + sep) + Join(xs[1..], sep);
      assert j[off + p..off + p + |xs[k]|] == Join(xs[1..], sep)[p..p + |xs[k]|];
      assert OccursAt(xs[k], j, off + p);
    }
  }
}
