/**
 * The inference gateway as content.js sees it: `analyzeWithOllama` builds a chat request,
 * `ollamaApiRequest` sends it across the extension's message boundary and maps the reply
 * envelope to its `data` or to null. The boundary itself (chrome.runtime.sendMessage, the
 * service worker, the HTTP call) is the parameter `send`: None stands for "no response".
 */
module Gateway {
  import opened Wrappers
  import opened Config

  datatype Role = System | User

  datatype ChatMessage = ChatMessage(role: Role, content: string)

  /** `options` of the chat request: `temperature` and `num_predict`. */
  datatype ChatOptions = ChatOptions(temperature: real, numPredict: nat)

  /** The body of the `/api/chat` request. */
  datatype ChatPayload = ChatPayload(
    model: string,
    messages: seq<ChatMessage>,
    stream: bool,
    options: ChatOptions)

  /** The message content.js hands to the background context. */
  datatype FetchMessage = FetchMessage(kind: string, url: string, payload: ChatPayload, httpMethod: string)

  /** The `data` of a successful reply; `content` is `data.message.content`, None when absent. */
  datatype ChatResponse = ChatResponse(content: Option<string>)

  /** The reply envelope `{ success, data }`. */
  datatype Envelope = Envelope(success: bool, data: Option<ChatResponse>)

  /** The fixed inference options: low temperature, at most 200 predicted tokens. */
  const FixedOptions := ChatOptions(0.3, 200)

  /**
   * The messages array: a system message exactly when `systemPrompt` is non-empty (the
   * empty string is falsy), followed by exactly one user message carrying `prompt`.
   */
  function ChatMessages(systemPrompt: string, prompt: string): (r: seq<ChatMessage>)
    ensures |r| == if systemPrompt != "" then 2 else 1
    ensures r[|r| - 1] == ChatMessage(User, prompt)
    ensures systemPrompt != "" ==> r[0] == ChatMessage(System, systemPrompt)
    ensures forall k :: 0 <= k < |r| ==> (r[k].role == User <==> k == |r| - 1)
  {
    (if systemPrompt != "" then [ChatMessage(System, systemPrompt)] else []) + [ChatMessage(User, prompt)]
  }

  /** `analyzeWithOllama`'s construction of `messages` by successive pushes. */
  method BuildMessages(systemPrompt: string, prompt: string) returns (messages: seq<ChatMessage>)
    ensures messages == ChatMessages(systemPrompt, prompt)
  {
    messages := [];
    if systemPrompt != "" {
      messages := messages + [ChatMessage(System, systemPrompt)];
    }
    messages := messages + [ChatMessage(User, prompt)];
  }

  /** The message `ollamaApiRequest('/api/chat', payload)` sends for one analysis. */
  function ChatRequest(cfg: AIConfig, prompt: string, systemPrompt: string): (m: FetchMessage)
    ensures m.kind == "OLLAMA_FETCH" && m.httpMethod == "POST"
    ensures m.url == cfg.ollamaUrl + "/api/chat"
    ensures m.payload.model == cfg.model && !m.payload.stream
    ensures m.payload.options.temperature == 0.3 && m.payload.options.numPredict == 200
    ensures m.payload.messages == ChatMessages(systemPrompt, prompt)
  {
    FetchMessage("OLLAMA_FETCH", cfg.ollamaUrl + "/api/chat",
                 ChatPayload(cfg.model, ChatMessages(systemPrompt, prompt), false, FixedOptions), "POST")
  }

  /**
   * The callback of `ollamaApiRequest`: it resolves to `response.data` only when a response
   * arrived and its `success` is set; otherwise to null.
   */
  function EnvelopeData(response: Option<Envelope>): (r: Option<ChatResponse>)
    ensures response.None? ==> r.None?
    ensures response.Some? && !response.value.success ==> r.None?
    ensures response.Some? && response.value.success ==> r == response.value.data
  {
    if response.None? || !response.value.success then None else response.value.data
  }

  /**
   * `analyzeWithOllama(prompt, systemPrompt)`: null when AI is disabled or when the
   * gateway gave no data; otherwise the reply's message content.
   */
  function AnalyzeWithOllama(cfg: AIConfig, prompt: string, systemPrompt: string,
                             send: FetchMessage -> Option<Envelope>): (r: Option<string>)
    ensures !cfg.enabled ==> r.None?
    ensures r.Some? <==>
      cfg.enabled && EnvelopeData(send(ChatRequest(cfg, prompt, systemPrompt))).Some?
      && EnvelopeData(send(ChatRequest(cfg, prompt, systemPrompt))).value.content.Some?
    ensures r.Some? ==> EnvelopeData(send(ChatRequest(cfg, prompt, systemPrompt))) == Some(ChatResponse(r))
  {
    if !cfg.enabled then None
    else
      match EnvelopeData(send(ChatRequest(cfg, prompt, systemPrompt)))
      case None => None
      case Some(data) => data.content
  }

  /** A gateway that never answers makes every analysis request come back empty. */
  lemma SilentGatewayYieldsNothing(cfg: AIConfig, prompt: string, systemPrompt: string,
                                   send: FetchMessage -> Option<Envelope>)
    requires forall m :: send(m).None?
    ensures AnalyzeWithOllama(cfg, prompt, systemPrompt, send).None?
  {
  }
}
