/**
 * `getCombinedAISuggestion(username)`: consult each analyzer whose feature flag is on,
 * sample the page's posts for the content side, and fuse the two hypotheses. The stored
 * interactions, the page's articles and the oracles are parameters.
 */
module Pipeline {
  import opened Wrappers
  import opened Config
  import opened Gateway
  import opened Sampler
  import opened Analyzers
  import opened Fusion

  /** The pattern hypothesis, consulted only when pattern recognition is on. */
  function PatternSide(cfg: AIConfig, username: string, interactions: seq<Interaction>,
                       formatDate: int -> string, send: FetchMessage -> Option<Envelope>,
                       parse: string -> Option<PatternReport>): Option<PatternReport>
  {
    if cfg.features.patternRecognition
    then AnalyzeInteractionPatterns(cfg, username, interactions, formatDate, send, parse)
    else None
  }

  /** The content hypothesis, consulted only when content analysis is on and posts were found. */
  function ContentSide<E>(cfg: AIConfig, username: string, articles: seq<Article<E>>,
                          extractUsername: E -> Option<string>, send: FetchMessage -> Option<Envelope>,
                          parse: string -> Option<ContentReport>): Option<ContentReport>
  {
    if cfg.features.contentAnalysis then
      var posts := SampledPosts(articles, username, extractUsername);
      if |posts| > 0 then AnalyzePostContent(cfg, username, posts, send, parse) else None
    else None
  }

  /** The suggestion `getCombinedAISuggestion` resolves to. */
  function CombinedSuggestion<E>(cfg: AIConfig, username: string, interactions: seq<Interaction>,
                                 formatDate: int -> string, articles: seq<Article<E>>,
                                 extractUsername: E -> Option<string>, send: FetchMessage -> Option<Envelope>,
                                 parsePattern: string -> Option<PatternReport>,
                                 parseContent: string -> Option<ContentReport>): (r: Option<Suggestion>)
    ensures !cfg.enabled ==> r.None?
    ensures r.Some? && ContentSource in r.value.sources ==> cfg.features.contentAnalysis
    ensures r.Some? && PatternsSource in r.value.sources ==> cfg.features.patternRecognition
    ensures r.Some? ==> r.value.sources != []
  {
    Fuse(PatternSide(cfg, username, interactions, formatDate, send, parsePattern),
         ContentSide(cfg, username, articles, extractUsername, send, parseContent))
  }

  /** `getCombinedAISuggestion(username)`, step by step as content.js runs it. */
  method GetCombinedAISuggestion<E>(cfg: AIConfig, username: string, interactions: seq<Interaction>,
                                    formatDate: int -> string, articles: seq<Article<E>>,
                                    extractUsername: E -> Option<string>,
                                    send: FetchMessage -> Option<Envelope>,
                                    parsePattern: string -> Option<PatternReport>,
                                    parseContent: string -> Option<ContentReport>)
    returns (suggestion: Option<Suggestion>)
    ensures suggestion == CombinedSuggestion(cfg, username, interactions, formatDate, articles,
                                             extractUsername, send, parsePattern, parseContent)
    ensures suggestion.Some? ==> cfg.enabled
  {
    var patternAnalysis: Option<PatternReport> := None;
    var contentAnalysis: Option<ContentReport> := None;
    if cfg.features.patternRecognition {
      patternAnalysis := AnalyzeInteractionPatterns(cfg, username, interactions, formatDate, send, parsePattern);
    }
    if cfg.features.contentAnalysis {
      var posts := ScrapeRecentPosts(articles, username, extractUsername);
      if |posts| > 0 {
        contentAnalysis := AnalyzePostContent(cfg, username, posts, send, parseContent);
      }
    }
    suggestion := Fuse(patternAnalysis, contentAnalysis);
  }

  /** With content analysis off, neither the page nor the content parser is consulted. */
  lemma ContentOffNeverConsulted<E>(cfg: AIConfig, username: string, interactions: seq<Interaction>,
                                    formatDate: int -> string, send: FetchMessage -> Option<Envelope>,
                                    parsePattern: string -> Option<PatternReport>,
                                    articles1: seq<Article<E>>, extract1: E -> Option<string>,
                                    parseContent1: string -> Option<ContentReport>,
                                    articles2: seq<Article<E>>, extract2: E -> Option<string>,
                                    parseContent2: string -> Option<ContentReport>)
    requires !cfg.features.contentAnalysis
    ensures CombinedSuggestion(cfg, username, interactions, formatDate, articles1, extract1, send, parsePattern, parseContent1)
         == CombinedSuggestion(cfg, username, interactions, formatDate, articles2, extract2, send, parsePattern, parseContent2)
    ensures var r := CombinedSuggestion(cfg, username, interactions, formatDate, articles1, extract1, send,
                                        parsePattern, parseContent1);
            r.Some? ==> r.value.sources == [PatternsSource]
  {
  }

  /** With pattern recognition off, neither the interactions nor the pattern parser is consulted. */
  lemma PatternOffNeverConsulted<E>(cfg: AIConfig, username: string, formatDate: int -> string,
                                    articles: seq<Article<E>>, extractUsername: E -> Option<string>,
                                    send: FetchMessage -> Option<Envelope>,
                                    parseContent: string -> Option<ContentReport>,
                                    interactions1: seq<Interaction>, parsePattern1: string -> Option<PatternReport>,
                                    interactions2: seq<Interaction>, parsePattern2: string -> Option<PatternReport>)
    requires !cfg.features.patternRecognition
    ensures CombinedSuggestion(cfg, username, interactions1, formatDate, articles, extractUsername, send, parsePattern1, parseContent)
         == CombinedSuggestion(cfg, username, interactions2, formatDate, articles, extractUsername, send, parsePattern2, parseContent)
    ensures var r := CombinedSuggestion(cfg, username, interactions1, formatDate, articles, extractUsername, send,
                                        parsePattern1, parseContent);
            r.Some? ==> r.value.sources == [ContentSource]
  {
  }

  /** With AI disabled there is never a suggestion, whatever the flags and the data. */
  lemma DisabledConfigNoSuggestion<E>(cfg: AIConfig, username: string, interactions: seq<Interaction>,
                                      formatDate: int -> string, articles: seq<Article<E>>,
                                      extractUsername: E -> Option<string>, send: FetchMessage -> Option<Envelope>,
                                      parsePattern: string -> Option<PatternReport>,
                                      parseContent: string -> Option<ContentReport>)
    requires !cfg.enabled
    ensures CombinedSuggestion(cfg, username, interactions, formatDate, articles, extractUsername, send,
                               parsePattern, parseContent).None?
  {
  }

  /** A page without posts by the account yields no content hypothesis. */
  lemma NoPostsNoContent<E>(cfg: AIConfig, username: string, articles: seq<Article<E>>,
                            extractUsername: E -> Option<string>, send: FetchMessage -> Option<Envelope>,
                            parse: string -> Option<ContentReport>)
    requires forall i :: 0 <= i < |articles| ==> !Qualifies(articles[i], username, extractUsername)
    ensures ContentSide(cfg, username, articles, extractUsername, send, parse).None?
  {
    SampledPostsSpec(articles, username, extractUsername);
    PositionsSpec(articles, ByAccount(username, extractUsername));
    var idx := QualifyingIndices(articles, username, extractUsername);
    if |idx| > 0 {
      assert Qualifies(articles[idx[0]], username, extractUsername);
    }
  }
}
