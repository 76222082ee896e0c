/**
 * The fusion rule of `getCombinedAISuggestion`: one suggestion from an optional pattern
 * hypothesis and an optional content hypothesis. Confidences are exact reals; the rule is a
 * decision, not a numerical method.
 */
module Fusion {
  import opened Wrappers
  import opened Analyzers

  /** The tags of `sources`: 'content' and 'patterns'. */
  datatype Source = ContentSource | PatternsSource

  /**
   * The suggestion object. A key the source object does not set, or sets to undefined,
   * is None.
   */
  datatype Suggestion = Suggestion(
    suggestedSentiment: Option<string>,
    confidence: real,
    reasoning: Option<string>,
    topics: Option<seq<string>>,
    expertise: Option<string>,
    concerns: Option<string>,
    sources: seq<Source>)

  /** The cap on a boosted confidence. */
  const ConfidenceCap: real := 0.95

  /** The factor by which agreement boosts the content confidence. */
  const AgreementBoost: real := 1.2

  function Min(a: real, b: real): real
  {
    if a <= b then a else b
  }

  /** A template literal's rendering of a possibly undefined string. */
  function Render(s: Option<string>): string
  {
    match s
    case Some(v) => v
    case None => "undefined"
  }

  /**
   * `===` on the two sentiment labels; two absent labels are both undefined and compare equal,
   * which the Option encoding reproduces.
   */
  predicate Agree(pattern: PatternReport, content: ContentReport)
  {
    content.overallSentiment == pattern.suggestedSentiment
  }

  /** The fused confidence: boosted and capped when the two agree, their mean when they do not. */
  function FusedConfidence(pattern: PatternReport, content: ContentReport): (r: real)
    ensures Agree(pattern, content) ==> r <= ConfidenceCap
    ensures Agree(pattern, content) && 0.0 <= content.confidence <= ConfidenceCap ==> content.confidence <= r
    ensures !Agree(pattern, content) ==>
      Min(content.confidence, pattern.confidence) <= r <= -Min(-content.confidence, -pattern.confidence)
  {
    if Agree(pattern, content) then Min(ConfidenceCap, content.confidence * AgreementBoost)
    else (content.confidence + pattern.confidence) / 2.0
  }

  /** The fused reasoning text. */
  function FusedReasoning(pattern: PatternReport, content: ContentReport): (r: string)
    ensures var head := "Content shows: " + Render(content.reasoning) + ". Your interactions ";
            |head| <= |r| && r[..|head|] == head
    ensures var tail := " " + Render(pattern.suggestedSentiment) + " sentiment.";
            |tail| <= |r| && r[|r| - |tail|..] == tail
  {
    "Content shows: " + Render(content.reasoning) + ". Your interactions "
      + (if Agree(pattern, content) then "confirm" else "show") + " "
      + Render(pattern.suggestedSentiment) + " sentiment."
  }

  /** The pattern-only suggestion `{ ...patternAnalysis, sources: ['patterns'] }`. */
  function FromPattern(pattern: PatternReport): (s: Suggestion)
    ensures s.suggestedSentiment == pattern.suggestedSentiment && s.confidence == pattern.confidence
    ensures s.reasoning == pattern.reasoning && s.sources == [PatternsSource]
    ensures s.topics.None? && s.expertise.None? && s.concerns.None?
  {
    Suggestion(pattern.suggestedSentiment, pattern.confidence, pattern.reasoning, None, None, None,
               [PatternsSource])
  }

  /**
   * The fusion rule. There is a suggestion exactly when some hypothesis is present; when
   * content is present its sentiment, topics, expertise and concerns are the suggestion's
   * (so `perspectives` and `keyQuotes` are dropped); `sources` says which were used.
   */
  function Fuse(pattern: Option<PatternReport>, content: Option<ContentReport>): (r: Option<Suggestion>)
    ensures r.None? <==> pattern.None? && content.None?
    ensures content.Some? ==>
      && r.Some?
      && r.value.suggestedSentiment == content.value.overallSentiment
      && r.value.topics == content.value.topics
      && r.value.expertise == content.value.expertise
      && r.value.concerns == content.value.concerns
    ensures content.Some? && pattern.Some? ==>
      && r.value.sources == [ContentSource, PatternsSource]
      && r.value.confidence == FusedConfidence(pattern.value, content.value)
      && r.value.reasoning == Some(FusedReasoning(pattern.value, content.value))
    ensures content.Some? && pattern.None? ==>
      && r.value.sources == [ContentSource]
      && r.value.confidence == content.value.confidence
      && r.value.reasoning == content.value.reasoning
    ensures content.None? && pattern.Some? ==> r == Some(FromPattern(pattern.value))
  {
    match (content, pattern)
    case (Some(c), Some(p)) =>
      Some(Suggestion(c.overallSentiment, FusedConfidence(p, c), Some(FusedReasoning(p, c)),
                      c.topics, c.expertise, c.concerns, [ContentSource, PatternsSource]))
    case (Some(c), None) =>
      Some(Suggestion(c.overallSentiment, c.confidence, c.reasoning, c.topics, c.expertise, c.concerns,
                      [ContentSource]))
    case (None, Some(p)) => Some(FromPattern(p))
    case (None, None) => None
  }

  /**
   * Agreement: the confidence never exceeds 0.95; below the cap it is 1.2 times the content
   * confidence, and for a content confidence in [0, 0.95] it is at least that confidence.
   */
  lemma AgreeingConfidence(pattern: PatternReport, content: ContentReport)
    requires Agree(pattern, content)
    ensures var c := Fuse(Some(pattern), Some(content)).value.confidence;
      && c <= ConfidenceCap
      && (content.confidence * AgreementBoost <= ConfidenceCap ==> c == content.confidence * AgreementBoost)
      && (content.confidence * AgreementBoost >= ConfidenceCap ==> c == ConfidenceCap)
      && (0.0 <= content.confidence <= ConfidenceCap ==> c >= content.confidence)
  {
  }

  /** Disagreement: the confidence is the mean of the two, so it lies between them. */
  lemma DisagreeingConfidence(pattern: PatternReport, content: ContentReport)
    requires !Agree(pattern, content)
    ensures var c := Fuse(Some(pattern), Some(content)).value.confidence;
      && c == (content.confidence + pattern.confidence) / 2.0
      && Min(content.confidence, pattern.confidence) <= c
      && c <= -Min(-content.confidence, -pattern.confidence)
  {
  }

  /** Confidences in [0, 1] fuse to a confidence in [0, 1]; the rule never clamps by itself. */
  lemma FusedConfidenceInUnitInterval(pattern: Option<PatternReport>, content: Option<ContentReport>)
    requires pattern.Some? ==> 0.0 <= pattern.value.confidence <= 1.0
    requires content.Some? ==> 0.0 <= content.value.confidence <= 1.0
    requires pattern.Some? || content.Some?
    ensures 0.0 <= Fuse(pattern, content).value.confidence <= 1.0
  {
  }

  /** `s` ends with `t`. */
  predicate EndsWith(s: string, t: string)
  {
    |t| <= |s| && s[|s| - |t|..] == t
  }

  /**
   * The fused reasoning says the interactions "confirm" the pattern sentiment exactly
   * when the two hypotheses agree.
   */
  lemma {:induction false} ReasoningConfirmsIffAgree(pattern: PatternReport, content: ContentReport)
    ensures EndsWith(FusedReasoning(pattern, content),
                     "confirm " + Render(pattern.suggestedSentiment) + " sentiment.")
            <==> Agree(pattern, content)
  {
    var s := FusedReasoning(pattern, content);
    var tail := " " + Render(pattern.suggestedSentiment) + " sentiment.";
    var head := "Content shows: " + Render(content.reasoning) + ". Your interactions ";
    var confirm := "confirm" + tail;
    assert "confirm " + Render(pattern.suggestedSentiment) + " sentiment." == confirm;
    if Agree(pattern, content) {
      assert s == head + confirm;
      assert s[|s| - |confirm|..] == confirm;
    } else {
      var show := "show" + tail;
      assert s == head + show;
      // Both endings share `tail`; just before it one has "show", the other "confirm".
      assert s[|s| - |tail| - 1] == 'w' && confirm[|confirm| - |tail| - 1] == 'm';
    }
  }

  /**
   * Agreeing hypotheses do not always fuse to a confidence at least as high as either input:
   * the cap lowers a content confidence above 0.95, and the pattern confidence is not used.
   */
  lemma AgreementCanLowerConfidence()
    ensures var p := PatternReport(Some("agree"), 0.5, None);
            var c := ContentReport(Some("agree"), Some([]), 0.99, None, None, None, None, None);
            Fuse(Some(p), Some(c)).value.confidence < c.confidence
    ensures var p := PatternReport(Some("agree"), 0.9, None);
            var c := ContentReport(Some("agree"), Some([]), 0.1, None, None, None, None, None);
            Fuse(Some(p), Some(c)).value.confidence < p.confidence
  {
  }

  /** Content agree 0.8 with pattern agree 0.6 fuses to agree at 0.95 from both sources. */
  lemma ScenarioAgreeing()
    ensures var p := PatternReport(Some("agree"), 0.6, None);
            var c := ContentReport(Some("agree"), Some([]), 0.8, None, None, None, None, None);
            var r := Fuse(Some(p), Some(c)).value;
            r.suggestedSentiment == Some("agree") && r.confidence == 0.95
            && r.sources == [ContentSource, PatternsSource]
  {
  }

  /** Content disagree 0.7 with pattern agree 0.5 fuses to disagree at 0.6. */
  lemma ScenarioDisagreeing()
    ensures var p := PatternReport(Some("agree"), 0.5, None);
            var c := ContentReport(Some("disagree"), Some([]), 0.7, None, None, None, None, None);
            var r := Fuse(Some(p), Some(c)).value;
            r.suggestedSentiment == Some("disagree") && r.confidence == 0.6
            && r.sources == [ContentSource, PatternsSource]
  {
  }
}
