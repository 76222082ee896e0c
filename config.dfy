/**
 * The AI configuration: the module-wide `aiConfig` of content.js, its defaults, and the
 * shallow merge `{ ...aiConfig, ...stored }` that `loadAIConfig` applies to what storage
 * returned. The storage read itself is not modelled; its result is a parameter.
 */
module Config {
  import opened Wrappers

  datatype Features = Features(
    contentAnalysis: bool,
    patternRecognition: bool,
    topicExtraction: bool,
    autoSuggest: bool)

  datatype AIConfig = AIConfig(
    enabled: bool,
    ollamaUrl: string,
    model: string,
    features: Features)

  /** The initial value of `aiConfig`: everything off, a local service, a small model. */
  const DefaultConfig := AIConfig(false, "http://localhost:11434", "llama3.2:3b",
                                  Features(false, false, false, false))

  /** A stored `features` object; a missing key reads as `undefined`. */
  datatype StoredFeatures = StoredFeatures(
    contentAnalysis: Option<bool>,
    patternRecognition: Option<bool>,
    topicExtraction: Option<bool>,
    autoSuggest: Option<bool>)

  /** A stored `aiConfig` object; only the keys it has override the current value. */
  datatype StoredConfig = StoredConfig(
    enabled: Option<bool>,
    ollamaUrl: Option<string>,
    model: Option<string>,
    features: Option<StoredFeatures>)

  /** A stored features object as read by the flag tests: an `undefined` flag is falsy. */
  function FeaturesOf(f: StoredFeatures): (r: Features)
    ensures r.contentAnalysis <==> f.contentAnalysis == Some(true)
    ensures r.patternRecognition <==> f.patternRecognition == Some(true)
    ensures r.topicExtraction <==> f.topicExtraction == Some(true)
    ensures r.autoSuggest <==> f.autoSuggest == Some(true)
  {
    Features(f.contentAnalysis.GetOr(false), f.patternRecognition.GetOr(false),
             f.topicExtraction.GetOr(false), f.autoSuggest.GetOr(false))
  }

  /**
   * `{ ...current, ...stored }` when storage held an `aiConfig`, else `current`. The merge is
   * shallow: a stored `features` object replaces the current one as a whole.
   */
  function MergeConfig(current: AIConfig, stored: Option<StoredConfig>): (r: AIConfig)
    ensures stored.None? ==> r == current
    ensures stored.Some? ==>
      && r.enabled == stored.value.enabled.GetOr(current.enabled)
      && r.ollamaUrl == stored.value.ollamaUrl.GetOr(current.ollamaUrl)
      && r.model == stored.value.model.GetOr(current.model)
      && r.features == (if stored.value.features.Some? then FeaturesOf(stored.value.features.value)
                        else current.features)
  {
    match stored
    case None => current
    case Some(s) =>
      AIConfig(s.enabled.GetOr(current.enabled), s.ollamaUrl.GetOr(current.ollamaUrl),
               s.model.GetOr(current.model),
               match s.features case Some(f) => FeaturesOf(f) case None => current.features)
  }

  /** Loading the same stored configuration twice has the effect of loading it once. */
  lemma MergeConfigIdempotent(current: AIConfig, stored: Option<StoredConfig>)
    ensures MergeConfig(MergeConfig(current, stored), stored) == MergeConfig(current, stored)
  {
  }

  /**
   * Because the merge is shallow, a stored `features` object that lacks a flag switches that
   * flag off, even when it was on before.
   */
  lemma ShallowMergeDropsMissingFlags(current: AIConfig, stored: StoredConfig)
    requires stored.features.Some? && stored.features.value.patternRecognition.None?
    ensures !MergeConfig(current, Some(stored)).features.patternRecognition
  {
  }

  /** The holder of the module-wide `aiConfig`, which `loadAIConfig` reassigns. */
  class ConfigStore {
    var aiConfig: AIConfig

    constructor ()
      ensures aiConfig == DefaultConfig
    {
      aiConfig := DefaultConfig;
    }

    /** `loadAIConfig`, given what storage returned for the key 'aiConfig'. */
    method LoadAIConfig(stored: Option<StoredConfig>) returns (loaded: AIConfig)
      modifies this
      ensures aiConfig == MergeConfig(old(aiConfig), stored)
      ensures loaded == aiConfig
    {
      if stored.Some? {
        var s := stored.value;
        var features := aiConfig.features;
        if s.features.Some? {
          features := FeaturesOf(s.features.value);
        }
        aiConfig := AIConfig(s.enabled.GetOr(aiConfig.enabled), s.ollamaUrl.GetOr(aiConfig.ollamaUrl),
                             s.model.GetOr(aiConfig.model), features);
      }
      loaded := aiConfig;
    }
  }
}
