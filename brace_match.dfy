/**
 * Both analyzers pull the JSON answer out of the model's free text with
 * `result.match(/\{[\s\S]*\}/)`. A non-global `match` returns the leftmost match, and the
 * greedy `[\s\S]*` makes it the longest one starting there: the text from the FIRST `{`
 * to the LAST `}` after it, inclusive. This is not the first balanced JSON object.
 */
module BraceMatch {
  import opened Wrappers

  /** The position of the first `c` in `s`, if any. */
  function FirstIndexOf(s: string, c: char): (r: Option<nat>)
    ensures r.Some? ==> r.value < |s| && s[r.value] == c && forall k :: 0 <= k < r.value ==> s[k] != c
    ensures r.None? ==> forall k :: 0 <= k < |s| ==> s[k] != c
  {
    if s == [] then None
    else if s[0] == c then Some(0)
    else match FirstIndexOf(s[1..], c)
      case None => None
      case Some(i) => Some(i + 1)
  }

  /** The position of the last `c` in `s`, if any. */
  function LastIndexOf(s: string, c: char): (r: Option<nat>)
    ensures r.Some? ==> r.value < |s| && s[r.value] == c && forall k :: r.value < k < |s| ==> s[k] != c
    ensures r.None? ==> forall k :: 0 <= k < |s| ==> s[k] != c
  {
    if s == [] then None
    else if s[|s| - 1] == c then Some(|s| - 1)
    else LastIndexOf(s[..|s| - 1], c)
  }

  /**
   * The substring `result.match(/\{[\s\S]*\}/)[0]`, or None when the match is null. It runs
   * from the first `{` to the last `}`, and there is none unless some `}` follows the first `{`.
   */
  function ExtractBraced(s: string): (r: Option<string>)
    ensures r.None? <==> (FirstIndexOf(s, '{').None?
                          || forall k :: FirstIndexOf(s, '{').value < k < |s| ==> s[k] != '}')
    ensures r.Some? ==>
      exists i: nat, j: nat :: i < j < |s| && r.value == s[i..j + 1]
        && FirstIndexOf(s, '{') == Some(i) && LastIndexOf(s, '}') == Some(j)
  {
    match FirstIndexOf(s, '{')
    case None => None
    case Some(i) =>
      match LastIndexOf(s, '}')
      case None => None
      case Some(j) => if i < j then Some(s[i..j + 1]) else None
  }

  // The regular expression's own semantics, as a reference definition.

  /** `s[i..j]` is matched by /\{[\s\S]*\}/: a `{`, anything, then a `}`. */
  ghost predicate IsMatch(s: string, i: int, j: int)
  {
    0 <= i && i + 2 <= j <= |s| && s[i] == '{' && s[j - 1] == '}'
  }

  /** `s[i..j]` is the match `String.prototype.match` reports: leftmost start, then longest. */
  ghost predicate IsReportedMatch(s: string, i: int, j: int)
  {
    && IsMatch(s, i, j)
    && forall i', j' :: IsMatch(s, i', j') ==> i < i' || (i == i' && j' <= j)
  }

  /** ExtractBraced finds a match exactly when the regular expression matches somewhere. */
  lemma ExtractBracedFindsAnyMatch(s: string)
    ensures ExtractBraced(s).Some? <==> exists i, j :: IsMatch(s, i, j)
  {
    if ExtractBraced(s).Some? {
      var i := FirstIndexOf(s, '{').value;
      var j := LastIndexOf(s, '}').value;
      assert IsMatch(s, i, j + 1);
    }
  }

  /** What ExtractBraced returns is the leftmost-longest match of the regular expression. */
  lemma ExtractBracedIsReportedMatch(s: string)
    requires ExtractBraced(s).Some?
    ensures exists i, j :: IsReportedMatch(s, i, j) && ExtractBraced(s).value == s[i..j]
  {
  }

  /** The reported match is unique, so the reference definition pins the substring down. */
  lemma ReportedMatchUnique(s: string, i: int, j: int, i': int, j': int)
    requires IsReportedMatch(s, i, j) && IsReportedMatch(s, i', j')
    ensures i == i' && j == j'
  {
  }

  /**
   * Prose around the JSON does not disturb it: an object preceded by text without `{` and
   * followed by text without `}` is extracted exactly.
   */
  lemma ExtractBracedIgnoresProse(prefix: string, json: string, suffix: string)
    requires |json| >= 2 && json[0] == '{' && json[|json| - 1] == '}'
    requires forall k :: 0 <= k < |prefix| ==> prefix[k] != '{'
    requires forall k :: 0 <= k < |suffix| ==> suffix[k] != '}'
    ensures ExtractBraced(prefix + json + suffix) == Some(json)
  {
    var s := prefix + json + suffix;
    var i, j := |prefix|, |prefix| + |json| - 1;
    assert s[i] == '{' && s[j] == '}';
    assert forall k :: 0 <= k < i ==> s[k] == prefix[k];
    assert forall k :: j < k < |s| ==> s[k] == suffix[k - |prefix| - |json|];
    FirstIndexOfIs(s, '{', i);
    LastIndexOfIs(s, '}', j);
    assert s[i..j + 1] == json;
  }

  /** An extracted substring extracts to itself: running the rule twice changes nothing. */
  lemma ExtractBracedIdempotent(s: string)
    requires ExtractBraced(s).Some?
    ensures ExtractBraced(ExtractBraced(s).value) == ExtractBraced(s)
  {
    var i, j := FirstIndexOf(s, '{').value, LastIndexOf(s, '}').value;
    var t := ExtractBraced(s).value;
    assert t == s[i..j + 1] && |t| == j + 1 - i;
    assert forall k :: 0 <= k < |t| ==> t[k] == s[i + k];
    FirstIndexOfIs(t, '{', 0);
    LastIndexOfIs(t, '}', |t| - 1);
    assert t[0..|t| - 1 + 1] == t;
  }

  /** Text without any `}` after the first `{` (in particular plain prose) yields nothing. */
  lemma ExtractBracedNoClosing(s: string)
    requires forall k :: 0 <= k < |s| ==> s[k] != '}'
    ensures ExtractBraced(s).None?
  {
  }

  lemma FirstIndexOfIs(s: string, c: char, i: nat)
    requires i < |s| && s[i] == c && forall k :: 0 <= k < i ==> s[k] != c
    ensures FirstIndexOf(s, c) == Some(i)
  {
  }

  lemma LastIndexOfIs(s: string, c: char, j: nat)
    requires j < |s| && s[j] == c && forall k :: j < k < |s| ==> s[k] != c
    ensures LastIndexOf(s, c) == Some(j)
  {
  }
}
