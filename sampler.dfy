/**
 * `scrapeRecentPosts` and `extractPostText`: the post texts of one account that the page
 * currently renders. The document is the sequence of its `article` elements in document
 * order; `extractUsername`, which the model does not see, is a parameter.
 */
module Sampler {
  import opened Wrappers
  import opened Text

  /**
   * One `article`: its `[data-testid="User-Name"]` element, if any, and the text content
   * of its `[data-testid="tweetText"]` element, if any.
   */
  datatype Article<E> = Article(userElement: Option<E>, tweetText: Option<string>)

  /** The most texts a sample holds. */
  const SampleLimit := 5

  /** Texts must be longer than this many UTF-16 code units. */
  const MinTextLength := 10

  /** `extractPostText`: the trimmed tweet text, or '' when the article has none. */
  function ExtractPostText<E>(a: Article<E>): (r: string)
    ensures a.tweetText.None? ==> r == ""
    ensures a.tweetText.Some? ==> r == Trim(a.tweetText.value)
  {
    match a.tweetText
    case None => ""
    case Some(t) => Trim(t)
  }

  /** The article was written by `username` and its text is long enough to be kept. */
  predicate Qualifies<E>(a: Article<E>, username: string, extractUsername: E -> Option<string>)
  {
    && a.userElement.Some?
    && extractUsername(a.userElement.value) == Some(username)
    && Utf16Length(ExtractPostText(a)) > MinTextLength
  }

  /** The elements of `xs` that `keep` accepts, mapped by `f`, in order. */
  function Select<T, U>(xs: seq<T>, keep: T -> bool, f: T -> U): seq<U>
  {
    if xs == [] then []
    else
      var n := |xs| - 1;
      Select(xs[..n], keep, f) + if keep(xs[n]) then [f(xs[n])] else []
  }

  /** The positions of the elements of `xs` that `keep` accepts, in order. */
  function Positions<T>(xs: seq<T>, keep: T -> bool): (r: seq<nat>)
    ensures forall k :: 0 <= k < |r| ==> r[k] < |xs|
  {
    if xs == [] then []
    else
      var n := |xs| - 1;
      Positions(xs[..n], keep) + if keep(xs[n]) then [n] else []
  }

  /** The positions are strictly increasing, each is accepted, and every accepted one is present. */
  lemma {:induction false} PositionsSpec<T>(xs: seq<T>, keep: T -> bool)
    ensures forall k :: 0 <= k < |Positions(xs, keep)| ==> keep(xs[Positions(xs, keep)[k]])
    ensures forall k, l :: 0 <= k < l < |Positions(xs, keep)| ==> Positions(xs, keep)[k] < Positions(xs, keep)[l]
    ensures forall i :: 0 <= i < |xs| && keep(xs[i]) ==> i in Positions(xs, keep)
  {
    if xs != [] {
      var n := |xs| - 1;
      var front := xs[..n];
      PositionsSpec(front, keep);
      var r0 := Positions(front, keep);
      var r := Positions(xs, keep);
      assert r == r0 + if keep(xs[n]) then [n] else [];
      forall k | 0 <= k < |r|
        ensures keep(xs[r[k]])
      {
        if k < |r0| {
          assert r[k] == r0[k] && xs[r0[k]] == front[r0[k]];
          assert keep(front[r0[k]]);
        } else {
          assert keep(xs[n]) && r[k] == n;
        }
      }
      forall i | 0 <= i < |xs| && keep(xs[i])
        ensures i in r
      {
        if i < n {
          assert xs[i] == front[i];
          assert i in r0;
        }
      }
    }
  }

  /** The selected elements are `f` of the elements at the accepted positions. */
  lemma {:induction false} SelectAtPositions<T, U>(xs: seq<T>, keep: T -> bool, f: T -> U)
    ensures |Select(xs, keep, f)| == |Positions(xs, keep)|
    ensures forall k :: 0 <= k < |Select(xs, keep, f)| ==>
      Select(xs, keep, f)[k] == f(xs[Positions(xs, keep)[k]])
  {
    if xs != [] {
      var n := |xs| - 1;
      var front := xs[..n];
      SelectAtPositions(front, keep, f);
      var r0 := Positions(front, keep);
      assert forall k :: 0 <= k < |r0| ==> xs[r0[k]] == front[r0[k]];
    }
  }

  /** Selecting from a prefix yields a prefix of the selection. */
  lemma {:induction false} SelectOfPrefix<T, U>(xs: seq<T>, i: nat, keep: T -> bool, f: T -> U)
    requires i <= |xs|
    ensures var p := Select(xs[..i], keep, f);
            var q := Select(xs, keep, f);
            |p| <= |q| && p == q[..|p|]
    decreases |xs| - i
  {
    if i < |xs| {
      SelectOfPrefix(xs, i + 1, keep, f);
      assert xs[..i + 1][..i] == xs[..i];
    } else {
      assert xs[..i] == xs;
    }
  }

  /** Selecting from one more element adds that element's image when it is accepted. */
  lemma SelectStep<T, U>(xs: seq<T>, i: nat, keep: T -> bool, f: T -> U)
    requires i < |xs|
    ensures Select(xs[..i + 1], keep, f) == Select(xs[..i], keep, f) + if keep(xs[i]) then [f(xs[i])] else []
  {
    assert xs[..i + 1][..i] == xs[..i];
  }

  /** `Qualifies` for one account, as a test on articles. */
  function ByAccount<E>(username: string, extractUsername: E -> Option<string>): Article<E> -> bool
  {
    a => Qualifies(a, username, extractUsername)
  }

  /** The texts of all qualifying articles, in document order. */
  function QualifyingTexts<E>(articles: seq<Article<E>>, username: string,
                              extractUsername: E -> Option<string>): seq<string>
  {
    Select(articles, ByAccount(username, extractUsername), ExtractPostText)
  }

  /** The positions of the qualifying articles, in document order. */
  function QualifyingIndices<E>(articles: seq<Article<E>>, username: string,
                                extractUsername: E -> Option<string>): (r: seq<nat>)
    ensures forall k :: 0 <= k < |r| ==> r[k] < |articles|
  {
    Positions(articles, ByAccount(username, extractUsername))
  }

  /** What `scrapeRecentPosts(username)` returns: the first five qualifying texts. */
  function SampledPosts<E>(articles: seq<Article<E>>, username: string,
                           extractUsername: E -> Option<string>): (r: seq<string>)
    ensures |r| <= SampleLimit
    ensures r <= QualifyingTexts(articles, username, extractUsername)
    ensures |QualifyingTexts(articles, username, extractUsername)| <= SampleLimit
            ==> r == QualifyingTexts(articles, username, extractUsername)
    ensures |QualifyingTexts(articles, username, extractUsername)| > SampleLimit ==> |r| == SampleLimit
  {
    var q := QualifyingTexts(articles, username, extractUsername);
    if |q| <= SampleLimit then q else q[..SampleLimit]
  }

  /**
   * What the sample promises: at most five texts; each one is the trimmed text, longer than
   * ten code units, of an article by `username`; they appear in document order as the first
   * qualifying ones; and when fewer than five articles qualify, all of them are present.
   */
  lemma {:induction false} SampledPostsSpec<E>(articles: seq<Article<E>>, username: string,
                           extractUsername: E -> Option<string>)
    ensures var r := SampledPosts(articles, username, extractUsername);
            var idx := QualifyingIndices(articles, username, extractUsername);
            && |r| <= SampleLimit
            && |r| == (if |idx| <= SampleLimit then |idx| else SampleLimit)
            && (forall k :: 0 <= k < |r| ==>
                  && r[k] == ExtractPostText(articles[idx[k]])
                  && Utf16Length(r[k]) > MinTextLength
                  && articles[idx[k]].userElement.Some?
                  && extractUsername(articles[idx[k]].userElement.value) == Some(username))
  {
    var keep := ByAccount(username, extractUsername);
    SelectAtPositions(articles, keep, ExtractPostText);
    PositionsSpec(articles, keep);
  }

  /** Every element of the sample is already trimmed. */
  lemma {:induction false} SampledPostsTrimmed<E>(articles: seq<Article<E>>, username: string,
                              extractUsername: E -> Option<string>, k: nat)
    requires k < |SampledPosts(articles, username, extractUsername)|
    ensures exists t :: SampledPosts(articles, username, extractUsername)[k] == Trim(t)
  {
    var idx := QualifyingIndices(articles, username, extractUsername);
    SampledPostsSpec(articles, username, extractUsername);
    assert articles[idx[k]].tweetText.Some?;
  }

  /** `scrapeRecentPosts(username)`: walks the articles, stopping once five texts are kept. */
  method ScrapeRecentPosts<E>(articles: seq<Article<E>>, username: string,
                              extractUsername: E -> Option<string>) returns (posts: seq<string>)
    ensures posts == SampledPosts(articles, username, extractUsername)
  {
    ghost var keep := ByAccount(username, extractUsername);
    posts := [];
    var i := 0;
    while i < |articles|
      invariant 0 <= i <= |articles|
      invariant posts == Select(articles[..i], keep, ExtractPostText)
      invariant |posts| < SampleLimit
    {
      var article := articles[i];
      SelectStep(articles, i, keep, ExtractPostText);
      if article.userElement.Some? {
        var articleUsername := extractUsername(article.userElement.value);
        if articleUsername == Some(username) {
          var postText := ExtractPostText(article);
          if postText != "" && Utf16Length(postText) > MinTextLength {
            posts := posts + [postText];
            if |posts| >= SampleLimit {
              SelectOfPrefix(articles, i + 1, keep, ExtractPostText);
              break;
            }
          }
        }
      }
      i := i + 1;
    }
    assert i == |articles| ==> articles[..i] == articles;
  }
}
