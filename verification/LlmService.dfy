/** The LLM provider client (src/services/llmService.ts): it holds one
    mutable configuration and sends a list of role-tagged messages through
    one of four vendor adapters, selected by the configuration's provider
    tag. Each adapter reshapes the messages for its vendor, fills in the
    sampling defaults, and maps the vendor's reply to one response shape.

    The network is not modelled: a `Network` value says what each vendor
    endpoint answers to a request, either a status that is not ok or a
    reply body. */
module LlmService {

  import opened Wrappers
  import opened Seqs
  import opened LlmTypes

  const DefaultTemperature: real := 0.7
  const DefaultMaxTokens: int := 1000

  /** `config.temperature || 0.7`: an absent or zero temperature (both falsy)
      is replaced by the default; any other configured value is sent as is. */
  function SentTemperature(t: Option<real>): (r: real)
    ensures r != 0.0
    ensures r == DefaultTemperature || t == Some(r)
    ensures t.Some? && t.value != 0.0 ==> r == t.value
  {
    if t.Some? && t.value != 0.0 then t.value else DefaultTemperature
  }

  /** `config.maxTokens || 1000`, the same rule for the output length cap. */
  function SentMaxTokens(m: Option<int>): (r: int)
    ensures r != 0
    ensures r == DefaultMaxTokens || m == Some(r)
    ensures m.Some? && m.value != 0 ==> r == m.value
  {
    if m.Some? && m.value != 0 then m.value else DefaultMaxTokens
  }

  // ---------------------------------------------------------------------
  // Reshaping the message list

  predicate IsConversational(m: LLMMessage)
  {
    m.role != System
  }

  /** `messages.filter(m => m.role !== 'system')`: every message that is not
      a system message, each as often as in the input, in input order
      (`ConversationConcat`). */
  function Conversation(msgs: seq<LLMMessage>): (r: seq<LLMMessage>)
    ensures forall m :: m in r <==> m in msgs && m.role != System
    ensures forall m :: multiset(r)[m] == if m.role == System then 0 else multiset(msgs)[m]
  {
    Filter(msgs, IsConversational)
  }

  /** The conversation of a concatenation is the concatenation of the
      conversations: removing system messages never reorders the rest. */
  lemma ConversationConcat(a: seq<LLMMessage>, b: seq<LLMMessage>)
    ensures Conversation(a + b) == Conversation(a) + Conversation(b)
  {
    FilterConcat(a, b, IsConversational);
  }

  /** The position of the first system message, as `messages.find` meets it. */
  function FirstSystemIndex(msgs: seq<LLMMessage>): (r: Option<nat>)
    ensures r.None? <==> forall i :: 0 <= i < |msgs| ==> msgs[i].role != System
    ensures r.Some? ==> r.value < |msgs| && msgs[r.value].role == System
                        && forall j :: 0 <= j < r.value ==> msgs[j].role != System
  {
    if |msgs| == 0 then None
    else if msgs[0].role == System then Some(0)
    else
      match FirstSystemIndex(msgs[1..])
      case None => None
      case Some(i) => Some(i + 1)
  }

  /** `messages.find(m => m.role === 'system')?.content`: the content of
      the first system message, none exactly when there is no system message. */
  function FirstSystemContent(msgs: seq<LLMMessage>): (r: Option<string>)
    ensures r.None? <==> forall i :: 0 <= i < |msgs| ==> msgs[i].role != System
    ensures r.Some? ==> exists i :: 0 <= i < |msgs| && msgs[i] == LLMMessage(System, r.value)
                                    && forall j :: 0 <= j < i ==> msgs[j].role != System
  {
    match FirstSystemIndex(msgs)
    case None => None
    case Some(i) => Some(msgs[i].content)
  }

  // ---------------------------------------------------------------------
  // Requests, one shape per vendor

  /** The OpenAI-compatible body, sent by both the OpenAI and the custom adapter. */
  datatype ChatRequest = ChatRequest(model: string, messages: seq<LLMMessage>, temperature: real, maxTokens: int)

  /** The Anthropic body: the system prompt travels in its own field. */
  datatype ClaudeRequest = ClaudeRequest(model: string, maxTokens: int, messages: seq<LLMMessage>, system: Option<string>)

  datatype GeminiRole = GeminiUser | GeminiModel

  /** One entry of Gemini's `contents`: a role and a single text part. */
  datatype GeminiContent = GeminiContent(role: GeminiRole, text: string)

  /** The Google generative body; the model and key go in the URL. */
  datatype GeminiRequest = GeminiRequest(
    contents: seq<GeminiContent>,
    systemInstruction: Option<string>,
    temperature: real,
    maxOutputTokens: int)

  /** What an adapter sends: the credential, the address parts that vary,
      and the body. */
  datatype WireRequest =
    | OpenAICall(apiKey: string, chat: ChatRequest)
    | ClaudeCall(apiKey: string, claude: ClaudeRequest)
    | GeminiCall(model: string, apiKey: string, gemini: GeminiRequest)
    | CustomCall(url: Option<string>, apiKey: string, chat: ChatRequest)
  {
    /** The provider tag whose adapter sends this request. */
    function Provider(): string
    {
      match this
      case OpenAICall(_, _) => "openai"
      case ClaudeCall(_, _) => "claude"
      case GeminiCall(_, _, _) => "gemini"
      case CustomCall(_, _, _) => "custom"
    }
  }

  /** The OpenAI-compatible body: the messages exactly as given, the model,
      and the sampling settings with their defaults filled in. */
  function ChatRequestOf(c: LLMConfig, msgs: seq<LLMMessage>): (r: ChatRequest)
    ensures r.messages == msgs && r.model == c.model
    ensures r.temperature != 0.0 && (r.temperature == DefaultTemperature || c.temperature == Some(r.temperature))
    ensures r.maxTokens != 0 && (r.maxTokens == DefaultMaxTokens || c.maxTokens == Some(r.maxTokens))
  {
    ChatRequest(c.model, msgs, SentTemperature(c.temperature), SentMaxTokens(c.maxTokens))
  }

  /** The Anthropic body: no system message among the messages, the first
      system message's content as `system`, the output cap defaulted. */
  function ClaudeRequestOf(c: LLMConfig, msgs: seq<LLMMessage>): (r: ClaudeRequest)
    ensures r.model == c.model
    ensures r.maxTokens != 0 && (r.maxTokens == DefaultMaxTokens || c.maxTokens == Some(r.maxTokens))
    ensures forall m :: m in r.messages <==> m in msgs && m.role != System
    ensures r.system.None? <==> forall i :: 0 <= i < |msgs| ==> msgs[i].role != System
  {
    ClaudeRequest(c.model, SentMaxTokens(c.maxTokens), Conversation(msgs), FirstSystemContent(msgs))
  }

  /** `m.role === 'assistant' ? 'model' : 'user'`. */
  function GeminiContentOf(m: LLMMessage): GeminiContent
  {
    GeminiContent(if m.role == Assistant then GeminiModel else GeminiUser, m.content)
  }

  /** The conversation, each message mapped to a Gemini entry: same length
      and texts, `assistant` as `model` and every other role as `user`. */
  function GeminiContents(msgs: seq<LLMMessage>): (r: seq<GeminiContent>)
    ensures |r| == |Conversation(msgs)|
    ensures forall i :: 0 <= i < |r| ==>
              && r[i].text == Conversation(msgs)[i].content
              && (r[i].role == GeminiModel <==> Conversation(msgs)[i].role == Assistant)
  {
    var conv := Conversation(msgs);
    seq(|conv|, i requires 0 <= i < |conv| => GeminiContentOf(conv[i]))
  }

  /** The system instruction is sent only when the first system message
      exists and its content is not empty (the empty string is falsy). */
  function GeminiSystemInstruction(msgs: seq<LLMMessage>): (r: Option<string>)
    ensures r.Some? <==> FirstSystemContent(msgs).Some? && FirstSystemContent(msgs).value != ""
    ensures r.Some? ==> r == FirstSystemContent(msgs)
  {
    match FirstSystemContent(msgs)
    case Some(s) => if s != "" then Some(s) else None
    case None => None
  }

  /** The Google body: the mapped conversation, the system instruction when
      there is a non-empty one, and both sampling settings defaulted. */
  function GeminiRequestOf(c: LLMConfig, msgs: seq<LLMMessage>): (r: GeminiRequest)
    ensures |r.contents| == |Conversation(msgs)|
    ensures r.systemInstruction.Some? ==> r.systemInstruction.value != ""
    ensures r.temperature != 0.0 && (r.temperature == DefaultTemperature || c.temperature == Some(r.temperature))
    ensures r.maxOutputTokens != 0 && (r.maxOutputTokens == DefaultMaxTokens || c.maxTokens == Some(r.maxOutputTokens))
  {
    GeminiRequest(GeminiContents(msgs), GeminiSystemInstruction(msgs),
                  SentTemperature(c.temperature), SentMaxTokens(c.maxTokens))
  }

  /** The four provider tags the client has an adapter for. */
  predicate IsSupportedProvider(provider: string)
  {
    provider == "openai" || provider == "claude" || provider == "gemini" || provider == "custom"
  }

  /** The request the adapter selected by `c.provider` sends for `msgs`. */
  function RequestFor(c: LLMConfig, msgs: seq<LLMMessage>): (r: WireRequest)
    requires IsSupportedProvider(c.provider)
    ensures r.Provider() == c.provider
    ensures r.apiKey == c.apiKey
  {
    if c.provider == "openai" then OpenAICall(c.apiKey, ChatRequestOf(c, msgs))
    else if c.provider == "claude" then ClaudeCall(c.apiKey, ClaudeRequestOf(c, msgs))
    else if c.provider == "gemini" then GeminiCall(c.model, c.apiKey, GeminiRequestOf(c, msgs))
    else CustomCall(c.baseUrl, c.apiKey, ChatRequestOf(c, msgs))
  }

  /** OpenAI and custom requests carry the messages exactly as given;
      Claude and Gemini requests are exactly their vendors' bodies; all
      requests but Claude's carry the temperature default rule, and all
      carry the output-cap default rule. */
  lemma RequestDefaults(c: LLMConfig, msgs: seq<LLMMessage>)
    requires IsSupportedProvider(c.provider)
    ensures match RequestFor(c, msgs)
            case OpenAICall(_, chat) =>
              chat.messages == msgs && chat.model == c.model
              && chat.temperature == SentTemperature(c.temperature) && chat.maxTokens == SentMaxTokens(c.maxTokens)
            case CustomCall(url, _, chat) =>
              url == c.baseUrl && chat.messages == msgs && chat.model == c.model
              && chat.temperature == SentTemperature(c.temperature) && chat.maxTokens == SentMaxTokens(c.maxTokens)
            case ClaudeCall(_, claude) =>
              claude == ClaudeRequestOf(c, msgs)
              && claude.model == c.model && claude.maxTokens == SentMaxTokens(c.maxTokens)
            case GeminiCall(model, _, gemini) =>
              gemini == GeminiRequestOf(c, msgs) && model == c.model
              && gemini.temperature == SentTemperature(c.temperature) && gemini.maxOutputTokens == SentMaxTokens(c.maxTokens)
  {
  }

  /** Claude's conversation holds no system message and loses no other
      message; its `system` field is the content of the first system
      message, and is absent exactly when there is none. */
  lemma ClaudeSeparatesSystem(c: LLMConfig, msgs: seq<LLMMessage>)
    ensures var r := ClaudeRequestOf(c, msgs);
            && (forall i :: 0 <= i < |r.messages| ==> r.messages[i].role != System)
            && (forall m: LLMMessage :: m.role != System ==> multiset(r.messages)[m] == multiset(msgs)[m])
            && (r.system.None? <==> forall i :: 0 <= i < |msgs| ==> msgs[i].role != System)
            && (r.system.Some? ==> exists i :: 0 <= i < |msgs| && msgs[i] == LLMMessage(System, r.system.value)
                                     && forall j :: 0 <= j < i ==> msgs[j].role != System)
  {
  }

  /** Gemini's contents are the conversation in order, `assistant` turned
      into `model` and `user` kept as `user`; its system instruction is
      present only for a first system message with non-empty content. */
  lemma GeminiReshapes(c: LLMConfig, msgs: seq<LLMMessage>)
    ensures var r := GeminiRequestOf(c, msgs);
            var conv := Conversation(msgs);
            && |r.contents| == |conv|
            && (forall i :: 0 <= i < |conv| ==>
                  && r.contents[i].text == conv[i].content
                  && (r.contents[i].role == GeminiModel <==> conv[i].role == Assistant)
                  && (r.contents[i].role == GeminiUser <==> conv[i].role == User))
            && (r.systemInstruction.Some? <==>
                  FirstSystemIndex(msgs).Some? && msgs[FirstSystemIndex(msgs).value].content != "")
            && (r.systemInstruction.Some? ==> r.systemInstruction.value == msgs[FirstSystemIndex(msgs).value].content)
  {
  }

  /** For the generator's `[system, user]` pair, Claude sends the user
      message alone with the prompt in `system`, and Gemini sends one user
      entry with the prompt as instruction when the prompt is not empty. */
  lemma PromptPairRequests(c: LLMConfig, prompt: string, input: string)
    ensures var msgs := [LLMMessage(System, prompt), LLMMessage(User, input)];
            && ClaudeRequestOf(c, msgs).messages == [LLMMessage(User, input)]
            && ClaudeRequestOf(c, msgs).system == Some(prompt)
            && GeminiRequestOf(c, msgs).contents == [GeminiContent(GeminiUser, input)]
            && GeminiRequestOf(c, msgs).systemInstruction == (if prompt != "" then Some(prompt) else None)
  {
  }

  // ---------------------------------------------------------------------
  // Replies, one shape per vendor

  /** What an endpoint answers: a status that is not ok, or a body. */
  datatype HttpReply<B> = NotOk(statusText: string) | Ok(data: B)

  /** `usage.prompt_tokens`, `usage.completion_tokens`, `usage.total_tokens`. */
  datatype OpenAIUsage = OpenAIUsage(promptTokens: int, completionTokens: int, totalTokens: int)

  /** The message content of each choice, and the usage record if present. */
  datatype OpenAIReply = OpenAIReply(choices: seq<string>, usage: Option<OpenAIUsage>)

  /** `usage.input_tokens`, `usage.output_tokens`. */
  datatype ClaudeUsage = ClaudeUsage(inputTokens: int, outputTokens: int)

  /** The text of each content block, and the usage record if present. */
  datatype ClaudeReply = ClaudeReply(content: seq<string>, usage: Option<ClaudeUsage>)

  /** `usageMetadata`'s three counts, each possibly missing. */
  datatype GeminiUsage = GeminiUsage(
    promptTokenCount: Option<int>,
    candidatesTokenCount: Option<int>,
    totalTokenCount: Option<int>)

  /** The part texts of each candidate, and the usage metadata if present. */
  datatype GeminiReply = GeminiReply(candidates: seq<seq<string>>, usageMetadata: Option<GeminiUsage>)

  /** `choices[i].message.content` for each choice (absent when the path is
      missing), the top-level `content`, and the top-level `usage`. */
  datatype CustomReply = CustomReply(choices: seq<Option<string>>, content: Option<string>, usage: Option<Usage>)

  /** What `callLLM` can throw. `MalformedReply` is the TypeError raised when
      an adapter reads a field of a reply part that is missing. */
  datatype LLMError =
    | ConfigNotSet
    | UnsupportedProvider(provider: string)
    | ApiError(vendor: string, statusText: string)
    | MalformedReply(vendor: string)
  {
    function Message(): string
    {
      match this
      case ConfigNotSet => "LLM configuration not set"
      case UnsupportedProvider(p) => "Unsupported LLM provider: " + p
      case ApiError(vendor, statusText) => vendor + " API error: " + statusText
      case MalformedReply(_) => "TypeError"
    }
  }

  /** `x || 0` on a count that may be missing. */
  function CountOrZero(n: Option<int>): int
  {
    if n.Some? then n.value else 0
  }

  /** A non-empty string, the only strings JavaScript treats as true. */
  predicate IsTruthy(s: Option<string>)
  {
    s.Some? && s.value != ""
  }

  /** The OpenAI adapter's reply mapping: the first choice's content and the
      vendor's three usage counts, copied. */
  function OpenAIResponse(reply: HttpReply<OpenAIReply>): (r: Result<LLMResponse, LLMError>)
    ensures reply.NotOk? ==> r == Failure(ApiError("OpenAI", reply.statusText))
    ensures reply.Ok? ==> (r.Success? <==> |reply.data.choices| > 0 && reply.data.usage.Some?)
    ensures r.Success? ==>
              var u := reply.data.usage.value;
              r.value == LLMResponse(reply.data.choices[0], Some(Usage(u.promptTokens, u.completionTokens, u.totalTokens)))
  {
    match reply
    case NotOk(statusText) => Failure(ApiError("OpenAI", statusText))
    case Ok(data) =>
      if |data.choices| == 0 || data.usage.None? then Failure(MalformedReply("OpenAI"))
      else
        var u := data.usage.value;
        Success(LLMResponse(data.choices[0], Some(Usage(u.promptTokens, u.completionTokens, u.totalTokens))))
  }

  /** The Claude adapter's reply mapping: the first content block's text;
      the total is the sum of input and output tokens. */
  function ClaudeResponse(reply: HttpReply<ClaudeReply>): (r: Result<LLMResponse, LLMError>)
    ensures reply.NotOk? ==> r == Failure(ApiError("Claude", reply.statusText))
    ensures reply.Ok? ==> (r.Success? <==> |reply.data.content| > 0 && reply.data.usage.Some?)
    ensures r.Success? ==>
              && r.value.content == reply.data.content[0]
              && r.value.usage.Some?
              && r.value.usage.value.promptTokens == reply.data.usage.value.inputTokens
              && r.value.usage.value.completionTokens == reply.data.usage.value.outputTokens
              && r.value.usage.value.totalTokens == r.value.usage.value.promptTokens + r.value.usage.value.completionTokens
  {
    match reply
    case NotOk(statusText) => Failure(ApiError("Claude", statusText))
    case Ok(data) =>
      if |data.content| == 0 || data.usage.None? then Failure(MalformedReply("Claude"))
      else
        var u := data.usage.value;
        Success(LLMResponse(data.content[0], Some(Usage(u.inputTokens, u.outputTokens, u.inputTokens + u.outputTokens))))
  }

  /** The Gemini adapter's reply mapping: the first part of the first
      candidate; each usage count is the vendor's, or 0 when it or the whole
      metadata record is missing. */
  function GeminiResponse(reply: HttpReply<GeminiReply>): (r: Result<LLMResponse, LLMError>)
    ensures reply.NotOk? ==> r == Failure(ApiError("Gemini", reply.statusText))
    ensures reply.Ok? ==> (r.Success? <==> |reply.data.candidates| > 0 && |reply.data.candidates[0]| > 0)
    ensures r.Success? ==>
              && r.value.content == reply.data.candidates[0][0]
              && r.value.usage.Some?
              && (reply.data.usageMetadata.None? ==> r.value.usage == Some(Usage(0, 0, 0)))
              && (reply.data.usageMetadata.Some? ==>
                    var m := reply.data.usageMetadata.value;
                    && (m.promptTokenCount.None? ==> r.value.usage.value.promptTokens == 0)
                    && (m.promptTokenCount.Some? ==> r.value.usage.value.promptTokens == m.promptTokenCount.value)
                    && (m.candidatesTokenCount.None? ==> r.value.usage.value.completionTokens == 0)
                    && (m.candidatesTokenCount.Some? ==> r.value.usage.value.completionTokens == m.candidatesTokenCount.value)
                    && (m.totalTokenCount.None? ==> r.value.usage.value.totalTokens == 0)
                    && (m.totalTokenCount.Some? ==> r.value.usage.value.totalTokens == m.totalTokenCount.value))
  {
    match reply
    case NotOk(statusText) => Failure(ApiError("Gemini", statusText))
    case Ok(data) =>
      if |data.candidates| == 0 || |data.candidates[0]| == 0 then Failure(MalformedReply("Gemini"))
      else
        var usage := match data.usageMetadata
          case None => Usage(0, 0, 0)
          case Some(m) => Usage(CountOrZero(m.promptTokenCount), CountOrZero(m.candidatesTokenCount), CountOrZero(m.totalTokenCount));
        Success(LLMResponse(data.candidates[0][0], Some(usage)))
  }

  /** The custom adapter's reply mapping, which never fails on an ok reply:
      the first choice's content if it is a non-empty string, else the
      top-level content if that is, else the empty string; the vendor's
      usage record passed through, or all zeros when it is absent. */
  function CustomResponse(reply: HttpReply<CustomReply>): (r: Result<LLMResponse, LLMError>)
    ensures reply.NotOk? ==> r == Failure(ApiError("Custom", reply.statusText))
    ensures reply.Ok? ==> r.Success?
    ensures r.Success? ==>
              var d := reply.data;
              var first := if |d.choices| > 0 then d.choices[0] else None;
              && (IsTruthy(first) ==> r.value.content == first.value)
              && (!IsTruthy(first) && IsTruthy(d.content) ==> r.value.content == d.content.value)
              && (!IsTruthy(first) && !IsTruthy(d.content) ==> r.value.content == "")
              && (d.usage.Some? ==> r.value.usage == d.usage)
              && (d.usage.None? ==> r.value.usage == Some(Usage(0, 0, 0)))
  {
    match reply
    case NotOk(statusText) => Failure(ApiError("Custom", statusText))
    case Ok(data) =>
      var first := if |data.choices| > 0 then data.choices[0] else None;
      var content := if IsTruthy(first) then first.value
                     else if IsTruthy(data.content) then data.content.value
                     else "";
      Success(LLMResponse(content, Some(if data.usage.Some? then data.usage.value else Usage(0, 0, 0))))
  }

  /** What each vendor endpoint answers to a request. */
  datatype Network = Network(
    openai: WireRequest -> HttpReply<OpenAIReply>,
    claude: WireRequest -> HttpReply<ClaudeReply>,
    gemini: WireRequest -> HttpReply<GeminiReply>,
    custom: WireRequest -> HttpReply<CustomReply>)

  /** The request sent to the endpoint its provider names, and the reply mapped back. */
  function Respond(req: WireRequest, net: Network): (r: Result<LLMResponse, LLMError>)
    ensures r.Failure? ==> r.error.ApiError? || r.error.MalformedReply?
  {
    match req
    case OpenAICall(_, _) => OpenAIResponse(net.openai(req))
    case ClaudeCall(_, _) => ClaudeResponse(net.claude(req))
    case GeminiCall(_, _, _) => GeminiResponse(net.gemini(req))
    case CustomCall(_, _, _) => CustomResponse(net.custom(req))
  }

  /** One `callLLM`: the request that went out (none when the call failed
      before reaching an adapter) and what the call returned or threw. */
  datatype Exchange = Exchange(sent: Option<WireRequest>, result: Result<LLMResponse, LLMError>)

  /** The client: one configuration, replaced by `SetConfig`, read by every call. */
  class LLMService {
    var config: Option<LLMConfig>

    constructor ()
      ensures GetConfig() == None
    {
      config := None;
    }

    method SetConfig(c: LLMConfig)
      modifies this
      ensures GetConfig() == Some(c)
    {
      config := Some(c);
    }

    function GetConfig(): (r: Option<LLMConfig>)
      reads this
      ensures r == config
    {
      config
    }

    /** `callLLM`: fails without configuration and for an unknown provider
        tag, in both cases before any request goes out; otherwise sends the
        request of the adapter the tag names and maps that endpoint's reply. */
    function CallLLM(messages: seq<LLMMessage>, net: Network): (x: Exchange)
      reads this
      ensures config.None? ==> x == Exchange(None, Failure(ConfigNotSet))
      ensures config.Some? && !IsSupportedProvider(config.value.provider) ==>
                x == Exchange(None, Failure(UnsupportedProvider(config.value.provider)))
      ensures x.sent.Some? <==> config.Some? && IsSupportedProvider(config.value.provider)
      ensures x.sent.Some? ==> x.sent.value.Provider() == config.value.provider
      ensures x.sent.Some? ==> x.sent.value == RequestFor(config.value, messages)
                               && x.result == Respond(x.sent.value, net)
    {
      match config
      case None => Exchange(None, Failure(ConfigNotSet))
      case Some(c) =>
        if IsSupportedProvider(c.provider) then
          var req := RequestFor(c, messages);
          Exchange(Some(req), Respond(req, net))
        else
          Exchange(None, Failure(UnsupportedProvider(c.provider)))
    }
  }

  /** 'DMXAPI' is admitted by the configuration type but has no adapter. */
  lemma DmxApiRejected(service: LLMService, messages: seq<LLMMessage>, net: Network)
    requires service.config.Some? && service.config.value.provider == "DMXAPI"
    ensures service.CallLLM(messages, net) == Exchange(None, Failure(UnsupportedProvider("DMXAPI")))
    ensures service.CallLLM(messages, net).result.error.Message() == "Unsupported LLM provider: DMXAPI"
  {
  }

  /** A status that is not ok surfaces as an error naming the vendor and
      carrying the status text, whichever adapter was used. */
  lemma NotOkIsApiError(service: LLMService, messages: seq<LLMMessage>, net: Network)
    requires service.CallLLM(messages, net).sent.Some?
    ensures var req := service.CallLLM(messages, net).sent.value;
            var status := match req
              case OpenAICall(_, _) => net.openai(req).NotOk?
              case ClaudeCall(_, _) => net.claude(req).NotOk?
              case GeminiCall(_, _, _) => net.gemini(req).NotOk?
              case CustomCall(_, _, _) => net.custom(req).NotOk?;
            status ==> service.CallLLM(messages, net).result.Failure?
                       && service.CallLLM(messages, net).result.error.ApiError?
  {
  }
}
