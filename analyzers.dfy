/**
 * The two heuristic analyzers, `analyzeInteractionPatterns` and `analyzePostContent`. Each
 * is gated by its feature flag and a minimum amount of data, sends one prompt through the
 * gateway, cuts the JSON out of the reply with the brace rule and hands it to `JSON.parse`.
 * `JSON.parse` is the parameter `parse`: None stands for a thrown SyntaxError. A parsed object
 * is a record of the fields the code reads; a field that is absent (undefined) is None.
 */
module Analyzers {
  import opened Wrappers
  import opened Text
  import opened BraceMatch
  import opened Config
  import opened Gateway

  /** One stored interaction: its `type` and `timestamp`. */
  datatype Interaction = Interaction(kind: string, timestamp: int)

  /** The object the pattern prompt asks for. */
  datatype PatternReport = PatternReport(
    suggestedSentiment: Option<string>,
    confidence: real,
    reasoning: Option<string>)

  /**
   * The object the content prompt asks for; `topics` is None when it is not an array, and
   * `concerns`, which the prompt does not ask for, is copied into suggestions all the same.
   */
  datatype ContentReport = ContentReport(
    overallSentiment: Option<string>,
    topics: Option<seq<string>>,
    confidence: real,
    reasoning: Option<string>,
    expertise: Option<string>,
    perspectives: Option<string>,
    keyQuotes: Option<seq<string>>,
    concerns: Option<string>)

  /** Pattern analysis needs at least this many interactions. */
  const MinInteractions := 3

  /** At most this many posts go into the content prompt. */
  const MaxPromptPosts := 5

  /** The separator between posts in the content prompt. */
  const PostSeparator := "\n\n---\n\n"

  const PatternSystemPrompt := "You are a pattern analyzer. Based on user interactions, suggest sentiment. Respond ONLY with JSON: { \"suggestedSentiment\": \"agree|disagree|mixed|expert|biased|neutral\", \"confidence\": 0.0-1.0, \"reasoning\": \"brief explanation\" }"

  const ContentSystemPrompt := "You are analyzing social media posts to help a user track whether they agree or disagree with accounts. Focus on SPECIFIC VIEWPOINTS and POSITIONS with concrete examples. Respond ONLY with JSON: { \"overallSentiment\": \"agree|disagree|mixed|expert|neutral\", \"topics\": [\"topic1\", \"topic2\", \"topic3\"], \"confidence\": 0.0-1.0, \"reasoning\": \"DETAILED: specific positions they take with examples from posts\", \"expertise\": \"specific subjects they show knowledge about\", \"perspectives\": \"ideological stance with specific examples (e.g., 'pro-market, skeptical of regulation - argues for free trade', 'progressive environmental views - advocates carbon tax')\", \"keyQuotes\": [\"memorable/representative quote 1\", \"quote 2\"] }"

  /** The fixed text the content prompt ends with. */
  const ContentInstructions := " Provide SPECIFIC analysis: - What exact viewpoints/positions do they express? Give examples. - What topics do they discuss? List specific subjects. - What ideological leanings are evident? Be concrete. - Are they presenting facts, opinions, or advocacy? How? - What memorable quotes capture their stance? Be detailed and specific. Use examples from the posts. Don't be vague. Respond with JSON only."

  /** `${i.type} on ${date}` for each interaction; `formatDate` is `toLocaleDateString`. */
  function DescribeInteractions(interactions: seq<Interaction>, formatDate: int -> string): (r: seq<string>)
    ensures |r| == |interactions|
    ensures forall k :: 0 <= k < |r| ==>
      r[k] == interactions[k].kind + " on " + formatDate(interactions[k].timestamp)
  {
    if interactions == [] then []
    else [interactions[0].kind + " on " + formatDate(interactions[0].timestamp)]
         + DescribeInteractions(interactions[1..], formatDate)
  }

  function PatternPrompt(username: string, summary: string): string
  {
    "User's interactions with @" + username + ": " + summary
      + " What sentiment does this suggest? Respond with JSON only."
  }

  function ContentPrompt(username: string, recentPosts: string): string
  {
    "Analyze these recent posts from @" + username + ": " + recentPosts
      + ContentInstructions
  }

  /** The posts the content prompt embeds: `posts.slice(0, 5)`. */
  function PromptPosts(posts: seq<string>): (r: seq<string>)
    ensures |r| <= MaxPromptPosts && r <= posts
    ensures |posts| <= MaxPromptPosts ==> r == posts
    ensures |posts| > MaxPromptPosts ==> r == posts[..MaxPromptPosts]
  {
    if |posts| <= MaxPromptPosts then posts else posts[..MaxPromptPosts]
  }

  /**
   * The common tail of both analyzers: a null or empty reply (falsy) gives null; otherwise the
   * brace substring, if any, is parsed.
   */
  function ParseReply<T>(reply: Option<string>, parse: string -> Option<T>): (r: Option<T>)
    ensures r.Some? ==> reply.Some? && ExtractBraced(reply.value).Some?
                        && parse(ExtractBraced(reply.value).value) == r
    ensures reply.Some? && ExtractBraced(reply.value).Some? ==> r == parse(ExtractBraced(reply.value).value)
  {
    if reply.None? || reply.value == "" then None
    else
      match ExtractBraced(reply.value)
      case None => None
      case Some(json) => parse(json)
  }

  /** The prompt pattern analysis sends for these interactions. */
  function PatternUserPrompt(username: string, interactions: seq<Interaction>, formatDate: int -> string): (r: string)
    ensures var head := "User's interactions with @" + username + ": ";
            && |head| <= |r| && r[..|head|] == head
            && OccursAt(Join(DescribeInteractions(interactions, formatDate), ", "), r, |head|)
  {
    PatternPrompt(username, Join(DescribeInteractions(interactions, formatDate), ", "))
  }

  /**
   * `analyzeInteractionPatterns(username)`, given the stored interactions: null when the flag
   * is off or fewer than three interactions exist; otherwise whatever the parsed reply is.
   */
  function AnalyzeInteractionPatterns(cfg: AIConfig, username: string, interactions: seq<Interaction>,
                                      formatDate: int -> string, send: FetchMessage -> Option<Envelope>,
                                      parse: string -> Option<PatternReport>): (r: Option<PatternReport>)
    ensures !cfg.features.patternRecognition || |interactions| < MinInteractions ==> r.None?
    ensures !cfg.enabled ==> r.None?
    ensures cfg.features.patternRecognition && |interactions| >= MinInteractions ==>
      r == ParseReply(AnalyzeWithOllama(cfg, PatternUserPrompt(username, interactions, formatDate),
                                        PatternSystemPrompt, send), parse)
  {
    if !cfg.features.patternRecognition then None
    else if |interactions| < MinInteractions then None
    else
      var result := AnalyzeWithOllama(cfg, PatternUserPrompt(username, interactions, formatDate),
                                      PatternSystemPrompt, send);
      ParseReply(result, parse)
  }

  /** The prompt content analysis sends for these posts. */
  function ContentUserPrompt(username: string, posts: seq<string>): (r: string)
    ensures var head := "Analyze these recent posts from @" + username + ": ";
            && |head| <= |r| && r[..|head|] == head
            && OccursAt(Join(PromptPosts(posts), PostSeparator), r, |head|)
  {
    ContentPrompt(username, Join(PromptPosts(posts), PostSeparator))
  }

  /**
   * `analyzePostContent(username, posts)`: null when the flag is off or there are no posts;
   * null when the reply is missing, has no brace substring or does not parse; null when the
   * parsed `topics` is not an array (`parsed.topics.join` throws inside the `try`).
   */
  function AnalyzePostContent(cfg: AIConfig, username: string, posts: seq<string>,
                              send: FetchMessage -> Option<Envelope>,
                              parse: string -> Option<ContentReport>): (r: Option<ContentReport>)
    ensures !cfg.features.contentAnalysis || posts == [] ==> r.None?
    ensures !cfg.enabled ==> r.None?
    ensures r.Some? ==> r.value.topics.Some?
    ensures cfg.features.contentAnalysis && posts != [] ==>
      var parsed := ParseReply(AnalyzeWithOllama(cfg, ContentUserPrompt(username, posts),
                                                 ContentSystemPrompt, send), parse);
      r == if parsed.Some? && parsed.value.topics.Some? then parsed else None
  {
    if !cfg.features.contentAnalysis || |posts| == 0 then None
    else
      var recentPosts := Join(PromptPosts(posts), PostSeparator);
      var result := AnalyzeWithOllama(cfg, ContentPrompt(username, recentPosts), ContentSystemPrompt, send);
      match ParseReply(result, parse)
      case None => None
      case Some(parsed) => if parsed.topics.Some? then Some(parsed) else None
  }

  /**
   * Whatever the interactions contain, fewer than three of them give null, and the gateway
   * and the parser are never consulted: the result is the same for any of them.
   */
  lemma PatternGateIgnoresInference(cfg: AIConfig, username: string, interactions: seq<Interaction>,
                                    formatDate: int -> string,
                                    send1: FetchMessage -> Option<Envelope>, send2: FetchMessage -> Option<Envelope>,
                                    parse1: string -> Option<PatternReport>, parse2: string -> Option<PatternReport>)
    requires !cfg.features.patternRecognition || |interactions| < MinInteractions
    ensures AnalyzeInteractionPatterns(cfg, username, interactions, formatDate, send1, parse1)
         == AnalyzeInteractionPatterns(cfg, username, interactions, formatDate, send2, parse2)
         == None
  {
  }

  /** The content prompt is built from the first five posts only. */
  lemma ContentPromptUsesFirstFivePosts(username: string, posts: seq<string>)
    requires |posts| > MaxPromptPosts
    ensures ContentUserPrompt(username, posts) == ContentUserPrompt(username, posts[..MaxPromptPosts])
  {
  }

  /** Posts after the fifth do not influence content analysis. */
  lemma ContentUsesFirstFivePosts(cfg: AIConfig, username: string, posts: seq<string>,
                                                     send: FetchMessage -> Option<Envelope>,
                                                     parse: string -> Option<ContentReport>)
    requires |posts| > MaxPromptPosts
    ensures AnalyzePostContent(cfg, username, posts, send, parse)
         == AnalyzePostContent(cfg, username, posts[..MaxPromptPosts], send, parse)
  {
  }

  /** Each of the first five posts appears verbatim in the content prompt. */
  lemma ContentPromptEmbedsPost(username: string, posts: seq<string>, k: nat)
    requires k < |posts| && k < MaxPromptPosts
    ensures exists p: nat :: OccursAt(posts[k], ContentUserPrompt(username, posts), p)
  {
    var pp := PromptPosts(posts);
    assert pp[k] == posts[k];
    JoinContains(pp, PostSeparator, k);
    var joined := Join(pp, PostSeparator);
    var p: nat :| OccursAt(posts[k], joined, p);
    var at := |"Analyze these recent posts from @" + username + ": "|;
    var prompt := ContentUserPrompt(username, posts);
    assert prompt[at..at + |joined|] == joined;
    assert prompt[at + p..at + p + |posts[k]|] == joined[p..p + |posts[k]|];
    assert OccursAt(posts[k], prompt, at + p);
  }

  /**
   * The brace rule is the only way the reply reaches the parser: replies with the same brace
   * substring give the same analysis, and a reply without one gives null.
   */
  lemma ParseReplyDependsOnBracesOnly<T>(reply1: string, reply2: string, parse: string -> Option<T>)
    requires reply1 != "" && reply2 != ""
    requires ExtractBraced(reply1) == ExtractBraced(reply2)
    ensures ParseReply(Some(reply1), parse) == ParseReply(Some(reply2), parse)
  {
  }

  /** A reply that is plain prose without braces yields no hypothesis. */
  lemma NoBracesNoHypothesis<T>(reply: string, parse: string -> Option<T>)
    requires forall k :: 0 <= k < |reply| ==> reply[k] != '{'
    ensures ParseReply(Some(reply), parse).None?
  {
  }
}
