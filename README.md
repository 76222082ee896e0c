# X Account Tracker: the AI suggestion pipeline, in Dafny

X Account Tracker is a browser extension that lets a user tag accounts on X with a
sentiment (agree, disagree, mixed, expert, biased, neutral) and can propose a tag on its own.
This project models how the content script `content.js` computes that proposal.

- **Pattern analyzer** (`analyzeInteractionPatterns`). It turns the user's stored interactions
  with an account into a sentiment hypothesis.
- **Post sampler** (`scrapeRecentPosts`, `extractPostText`). It collects up to five posts of
  the account that the page currently shows.
- **Content analyzer** (`analyzePostContent`). It turns those posts into a richer hypothesis
  with topics and expertise.
- **Inference gateway** (`analyzeWithOllama`, `ollamaApiRequest`). It sends one chat request to
  a local Ollama service through the extension's background context.
- **JSON extraction**. It cuts the JSON answer out of the model's free text.
- **Fusion rule** (`getCombinedAISuggestion`). It merges the two hypotheses into one suggestion.
- **Configuration**. It holds the module-wide `aiConfig` and the shallow merge `loadAIConfig`
  applies.

The browser, the message channel, the Ollama service, `JSON.parse`, `extractUsername` and
date formatting are parameters of the model: function-typed arguments that stand for what
those collaborators return. Confidences are exact `real`s. A JavaScript `undefined` or `null`
field is `None`.

Modules, one per component: `Wrappers` (Option), `Text` (JavaScript `trim`, `length`, `join`),
`BraceMatch` (the regular expression `/\{[\s\S]*\}/`), `Config`, `Gateway`, `Sampler`,
`Analyzers`, `Fusion`, `Pipeline`.

Behaviour of the code worth knowing:

- The content-only suggestion does not pass the content hypothesis through verbatim. It copies
  six fields and drops `perspectives` and `keyQuotes`.
- JSON extraction does not take the first balanced object. It takes everything from the first
  `{` to the last `}`.
- Confidences are never clamped to [0, 1]. The fusion rule only preserves that range
  (`Fusion.FusedConfidenceInUnitInterval`).
- A post must be longer than 10 UTF-16 code units. This is strictly greater, so a post of
  exactly 10 is dropped.
- Sentiment labels outside the fixed list are passed on unchanged.
- Agreeing hypotheses do not always fuse to a confidence at least as high as either input: the
  cap can lower a high content confidence and the pattern confidence is ignored
  (`Fusion.AgreementCanLowerConfidence`).

## Model

| member | source | states |
|---|---|---|
| `Text.Trim` | content.js:117 | the trimmed text is a slice of the input, does not start or end with JavaScript white space, and only white space was cut off on either side |
| `Text.Utf16Length` | content.js:130 | `length` counts UTF-16 code units: between the number of characters and twice that |
| `Text.Join` | content.js:143 | the empty list joins to "", one element joins to itself, and a longer list starts with its first element followed by the separator |
| `Text.JoinContains` | content.js:143 | every element of a joined list occurs verbatim in the joined string |
| `BraceMatch.FirstIndexOf` | content.js:152 | the position returned holds the character and no earlier position does; None means the character is absent |
| `BraceMatch.LastIndexOf` | content.js:222 | the position returned holds the character and no later position does; None means the character is absent |
| `BraceMatch.ExtractBraced` | content.js:152-153 | the match is the substring from the first `{` to the last `}`, inclusive; there is none exactly when no `}` follows the first `{` |
| `BraceMatch.ExtractBracedFindsAnyMatch` | content.js:152 | the extraction succeeds exactly when the regular expression matches somewhere in the text |
| `BraceMatch.ExtractBracedIsReportedMatch` | content.js:222 | the extracted substring is the leftmost, then longest, match of the regular expression, the one `String.prototype.match` reports |
| `BraceMatch.ReportedMatchUnique` | content.js:152 | the leftmost-longest match is unique |
| `BraceMatch.ExtractBracedIgnoresProse` | content.js:152-154 | a JSON object with prose before it (no `{`) and after it (no `}`) is extracted exactly |
| `BraceMatch.ExtractBracedIdempotent` | content.js:222-224 | extracting from an extracted substring gives it back unchanged |
| `BraceMatch.ExtractBracedNoClosing` | content.js:152-153 | text with no `}` gives no match |
| `Config.MergeConfig` | content.js:76-78 | stored keys override the current ones; a stored `features` object replaces the current one as a whole, and a flag missing from it reads as off |
| `Config.FeaturesOf` | content.js:77 | a flag of a stored `features` object reads as on exactly when it is stored as `true`; a missing flag reads as off |
| `Config.MergeConfigIdempotent` | content.js:77 | loading the same stored configuration twice equals loading it once |
| `Config.ShallowMergeDropsMissingFlags` | content.js:77 | a stored `features` object without `patternRecognition` turns pattern recognition off, even when it was on |
| `Config.ConfigStore.constructor` | content.js:8-18 | the initial configuration: AI disabled, every feature off, local service URL, default model |
| `Config.ConfigStore.LoadAIConfig` | content.js:73-82 | the module-wide configuration becomes the merge of its old value with what storage returned, and that value is returned |
| `Gateway.ChatMessages` | content.js:97-99 | a system message exactly when the system prompt is non-empty, then exactly one user message carrying the prompt, and only the last message has the user role |
| `Gateway.BuildMessages` | content.js:97-99 | the messages built by pushes are the ones `ChatMessages` specifies |
| `Gateway.ChatRequest` | content.js:23-29 | the message sent is an `OLLAMA_FETCH` POST to the configured URL plus `/api/chat`, with the configured model, `stream` off, temperature 0.3 and at most 200 predicted tokens |
| `Gateway.EnvelopeData` | content.js:30-36 | the result is `data` only when a response arrived and its `success` is set; otherwise it is null |
| `Gateway.AnalyzeWithOllama` | content.js:94-112 | a disabled configuration gives null; there is a reply exactly when the gateway delivered data with message content, and the reply is that content |
| `Gateway.SilentGatewayYieldsNothing` | content.js:31-32 | a gateway that never responds makes every inference call return null |
| `Sampler.ExtractPostText` | content.js:115-118 | an article without a tweet-text element gives the empty string; otherwise the text is trimmed |
| `Sampler.Positions` | content.js:124-134 | every position of a selected article lies inside the document |
| `Sampler.PositionsSpec` | content.js:124-134 | the qualifying positions are strictly increasing, each one qualifies, and every qualifying article is among them |
| `Sampler.SelectAtPositions` | content.js:129-131 | the kept texts are the texts of the articles at the qualifying positions, one for one |
| `Sampler.SelectOfPrefix` | content.js:124-132 | the texts kept from a prefix of the document are a prefix of the texts kept from all of it |
| `Sampler.SelectStep` | content.js:128-131 | reading one more article appends its text exactly when it qualifies |
| `Sampler.QualifyingIndices` | content.js:124-128 | the qualifying positions lie inside the document |
| `Sampler.SampledPosts` | content.js:121-137 | at most five texts, a prefix of the qualifying texts: all of them when at most five qualify, otherwise exactly five |
| `Sampler.SampledPostsSpec` | content.js:121-137 | the sample has at most five texts, and exactly five unless fewer qualify. Each text is the trimmed text of an article by the account, longer than 10 code units, taken from the first qualifying articles in document order |
| `Sampler.SampledPostsTrimmed` | content.js:117 | every sampled text is the result of a trim |
| `Sampler.ScrapeRecentPosts` | content.js:121-137 | the loop (skip articles without a user element, keep matching long texts, stop at five) returns exactly the specified sample |
| `Analyzers.DescribeInteractions` | content.js:213 | one `<type> on <date>` entry per interaction, in order |
| `Analyzers.PromptPosts` | content.js:143 | `slice(0, 5)`: all the posts when there are five or fewer, otherwise exactly the first five |
| `Analyzers.PatternUserPrompt` | content.js:213-215 | the pattern prompt names the account and then carries the comma-joined interaction summary verbatim |
| `Analyzers.ContentUserPrompt` | content.js:143-145 | the content prompt names the account and then carries the first five posts, joined by the separator, verbatim |
| `Analyzers.ParseReply` | content.js:147-157 | a hypothesis exists only when the reply has a brace substring, and it is what the parser makes of that substring |
| `Analyzers.AnalyzeInteractionPatterns` | content.js:205-232 | null when pattern recognition is off, when AI is disabled or when there are fewer than three interactions; otherwise the parsed brace substring of the reply to the interaction summary prompt |
| `Analyzers.AnalyzePostContent` | content.js:140-162 | null when content analysis is off, when AI is disabled or when there are no posts; otherwise the parsed reply, which must have an array `topics` or the result is null |
| `Analyzers.PatternGateIgnoresInference` | content.js:206-211 | below three interactions, or with the flag off, the result is null for every gateway and every parser, so inference is never consulted |
| `Analyzers.ContentPromptUsesFirstFivePosts` | content.js:143-145 | the content prompt for more than five posts equals the prompt for the first five |
| `Analyzers.ContentUsesFirstFivePosts` | content.js:143 | posts after the fifth do not change the content analysis |
| `Analyzers.ContentPromptEmbedsPost` | content.js:143-145 | each of the first five posts appears verbatim in the content prompt |
| `Analyzers.ParseReplyDependsOnBracesOnly` | content.js:152-154 | two non-empty replies with the same brace substring give the same hypothesis; both analyzers use this one rule |
| `Analyzers.NoBracesNoHypothesis` | content.js:222-227 | a reply without `{` yields no hypothesis |
| `Fusion.FromPattern` | content.js:198-199 | the pattern-only suggestion keeps the pattern's sentiment, confidence and reasoning and is tagged `['patterns']` |
| `Fusion.FusedConfidence` | content.js:181 | agreeing hypotheses give at most 0.95 and never lower a content confidence in [0, 0.95]; disagreeing ones give a value between the two confidences |
| `Fusion.FusedReasoning` | content.js:182 | the fused reasoning starts with the content reasoning and ends with the pattern sentiment |
| `Fusion.Fuse` | content.js:177-201 | a suggestion exists exactly when some hypothesis does. With content, its sentiment, topics, expertise and concerns come from content. With both, the sources are `['content','patterns']` and the confidence and reasoning are fused. Content alone copies confidence and reasoning with `['content']`. Pattern alone passes the pattern through |
| `Fusion.AgreeingConfidence` | content.js:178-181 | agreeing hypotheses fuse to at most 0.95; below the cap the result is 1.2 times the content confidence, and a content confidence in [0, 0.95] is never lowered |
| `Fusion.DisagreeingConfidence` | content.js:181 | disagreeing hypotheses fuse to the mean of the two confidences, which lies between them |
| `Fusion.FusedConfidenceInUnitInterval` | content.js:181-199 | confidences in [0, 1] fuse to a confidence in [0, 1] in every branch |
| `Fusion.ReasoningConfirmsIffAgree` | content.js:182 | the fused reasoning ends in "confirm <pattern sentiment> sentiment." exactly when the sentiments agree |
| `Fusion.AgreementCanLowerConfidence` | content.js:181 | concrete agreeing inputs whose fused confidence is below the content confidence (0.99 becomes 0.95), and below the pattern confidence (content 0.1, pattern 0.9) |
| `Fusion.ScenarioAgreeing` | content.js:177-187 | content agree 0.8 with pattern agree 0.6 fuses to agree, 0.95, both sources |
| `Fusion.ScenarioDisagreeing` | content.js:177-187 | content disagree 0.7 with pattern agree 0.5 fuses to disagree, 0.6, both sources |
| `Pipeline.CombinedSuggestion` | content.js:165-202 | AI disabled gives no suggestion; a suggestion tagged with a source means that source's feature flag was on; every suggestion names at least one source |
| `Pipeline.GetCombinedAISuggestion` | content.js:165-202 | the method returns the fusion of the flag-gated pattern hypothesis and the flag-gated content hypothesis over the sampled posts; any suggestion implies AI is enabled |
| `Pipeline.ContentOffNeverConsulted` | content.js:171-176 | with content analysis off, the page and the content parser do not affect the result, and any suggestion comes from patterns only |
| `Pipeline.PatternOffNeverConsulted` | content.js:168-170 | with pattern recognition off, the interactions and the pattern parser do not affect the result, and any suggestion comes from content only |
| `Pipeline.DisabledConfigNoSuggestion` | content.js:95 | with AI disabled there is never a suggestion |
| `Pipeline.NoPostsNoContent` | content.js:172-175 | a page without a qualifying post by the account yields no content hypothesis |

## Left out

- I/O and the Chrome extension APIs are not modelled: `chrome.runtime.sendMessage`, `chrome.storage.local.get`, IndexedDB (`initDB`, content.js:42-70) and `getInteractions`, which is not part of this model. The message round trip is the parameter `send`, the stored configuration is a parameter of `LoadAIConfig`, and the interactions are a given sequence.
- Console logging is left out, with one exception. The log message at content.js:155 evaluates `parsed.topics.join(', ')`, which throws when `topics` is not an array. The model keeps that as the `topics` condition of `Analyzers.AnalyzePostContent`.
- The async and Promise machinery and message-channel lifetime are left out. The configuration is assumed not to change during one suggestion. In the code, `aiConfig` is module-wide, and `loadAIConfig` (content.js:77) could reassign it while `getCombinedAISuggestion` waits at content.js:169, 172 or 174. The model passes one fixed `cfg` throughout.
- The background side of the gateway is not modelled, because `service-worker.js` is not part of this model. Its listener answers only messages whose `action` is `'ollamaRequest'` (service-worker.js:10), but content.js sends `type: 'OLLAMA_FETCH'` with no `action`, so as deployed no response may ever arrive. `Gateway.SilentGatewayYieldsNothing` states the consequence.
- `testOllamaConnection` (content.js:87-91) is left out. It is a connectivity probe that nothing in the pipeline calls.
- `JSON.parse` is a parameter that returns a typed record or None for a thrown error. The model assumes each field has the type the prompt asks for. A non-numeric `confidence`, which would give `NaN`, is not modelled.
- A JSON `null` field is not told apart from a missing one: both are `None`. In JavaScript `null === undefined` is false, and `${null}` renders as "null". So the model's `Fusion.Agree` and `Fusion.Render` differ from the code when a report field is explicitly `null`.
- `Fusion.FromPattern`: carries only the three fields the pattern prompt asks for. Any extra key the model returns, which the spread in content.js:199 would copy, is not modelled.
- `querySelector` and `textContent` are abstracted, and `extractUsername` is not part of this model. An article is a record of an optional user element and optional tweet text, and `extractUsername` is a parameter.
- `toLocaleDateString` of a timestamp depends on the locale and the time zone, so it is the parameter `formatDate`.
- Floating-point behaviour (rounding of `0.8 * 1.2`, `NaN`, `Math.round` in logs) is not modelled. Confidences are exact reals.
- JavaScript strings may hold unpaired surrogates. Dafny strings cannot, so such text is not modelled.
- Badge scanning, menus and identity extraction are not part of this model (content.js:236 marks them as omitted).
