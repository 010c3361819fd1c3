/** The task-generation orchestrator (src/services/taskGenerationService.ts):
    it keeps a replaceable system prompt, sends one `[system, user]` message
    pair through the provider client, and turns the reply text into tasks
    with a recovery ladder that never fails: parse the whole text; else
    parse the span from the first `{` to the last `}`; else make one task
    from the input itself.

    JSON parsing is not modelled: `parse` is any partial function from
    text to a parsed value, and a parsed value is returned as it is. */
module TaskGeneration {

  import opened Wrappers
  import opened Seqs
  import opened JsStrings
  import opened LlmTypes
  import opened KanbanTypes
  import opened LlmService

  /** The built-in instruction template. */
  const DefaultSystemPrompt: string :=
    "你是一个专业的任务管理助手。请根据用户的输入，生成相应的任务卡片。\n" +
    "\n" +
    "规则：\n" +
    "1. 将用户输入转换为具体的、可执行的任务\n" +
    "2. 每个任务应该有清晰的标题和描述\n" +
    "3. 根据任务复杂度和紧急程度设置合适的状态\n" +
    "4. 返回JSON格式，包含tasks数组\n" +
    "5. 每个任务包含title、description、status字段\n" +
    "6. status只能是：todo、in-progress、done、archived\n" +
    "\n" +
    "返回格式示例：\n" +
    "{\n" +
    "  \"tasks\": [\n" +
    "    {\n" +
    "      \"title\": \"任务标题\",\n" +
    "      \"description\": \"任务详细描述\",\n" +
    "      \"status\": \"todo\"\n" +
    "    }\n" +
    "  ]\n" +
    "}"

  /** Titles made from free text keep at most this many characters. */
  const TitleLimit: nat := 50

  /** `request.systemPrompt || this.systemPrompt`: a non-empty override wins;
      an absent or empty one falls back to the stored prompt. */
  function EffectivePrompt(override: Option<string>, stored: string): (p: string)
    ensures p == stored || override == Some(p)
    ensures override.Some? && override.value != "" ==> p == override.value
    ensures override.None? || override.value == "" ==> p == stored
  {
    if override.Some? && override.value != "" then override.value else stored
  }

  /** The two messages every generation call sends, in this order. */
  function PromptMessages(prompt: string, input: string): (r: seq<LLMMessage>)
    ensures |r| == 2 && r[0] == LLMMessage(System, prompt) && r[1] == LLMMessage(User, input)
    ensures FirstSystemContent(r) == Some(prompt)
    ensures Conversation(r) == [LLMMessage(User, input)]
  {
    [LLMMessage(System, prompt), LLMMessage(User, input)]
  }

  /** The match of `/\{[\s\S]*\}/`: the leftmost `{` that has a `}` somewhere
      after it, extended greedily to the last `}` of the text. There is a
      match exactly when some `{` comes before some `}`; it then runs from
      the first `{` to the last `}`. */
  function BraceSpan(s: string): (r: Option<string>)
    ensures r.Some? <==> exists i, j :: 0 <= i < j < |s| && s[i] == '{' && s[j] == '}'
    ensures r.Some? ==> exists i, j :: 0 <= i < j < |s| && r.value == s[i..j + 1]
                                       && s[i] == '{' && s[j] == '}'
                                       && '{' !in s[..i] && '}' !in s[j + 1..]
  {
    BraceSpanExists(s);
    var first, last := IndexOf(s, '{'), LastIndexOf(s, '}');
    if first.Some? && last.Some? && first.value < last.value then
      var i, j := first.value, last.value;
      assert s[i] == '{' && s[j] == '}' && '{' !in s[..i] && '}' !in s[j + 1..];
      Some(s[i..j + 1])
    else
      None
  }

  /** Some `{` comes before some `}` exactly when the first `{` comes before
      the last `}`. */
  lemma BraceSpanExists(s: string)
    ensures (exists i, j :: 0 <= i < j < |s| && s[i] == '{' && s[j] == '}') <==>
            (IndexOf(s, '{').Some? && LastIndexOf(s, '}').Some?
             && IndexOf(s, '{').value < LastIndexOf(s, '}').value)
  {
  }

  /** The fallback title, `input.slice(0, 50) + (input.length > 50 ? '...' : '')`:
      the input itself when it has at most 50 characters, otherwise its
      first 50 characters followed by an ellipsis. */
  function FallbackTitle(input: string): (t: string)
    ensures |input| <= TitleLimit ==> t == input
    ensures |input| > TitleLimit ==> |t| == TitleLimit + 3 && t[..TitleLimit] == input[..TitleLimit] && t[TitleLimit..] == "..."
  {
    Prefix(input, TitleLimit) + (if |input| > TitleLimit then "..." else "")
  }

  /** The one task made when the reply holds no parsable object: the
      truncated title, the whole input as description, status `todo`. */
  function FallbackDraft(input: string): (d: TaskDraft)
    ensures d.description == input && d.status == Todo.Id()
    ensures d.title == FallbackTitle(input) && |d.title| <= TitleLimit + 3
  {
    TaskDraft(FallbackTitle(input), input, Todo.Id())
  }

  /** What generation returns: a parsed value, unvalidated, or the fallback
      list of drafts. */
  datatype Generated<J> = Parsed(value: J) | Drafts(tasks: seq<TaskDraft>)

  /** The recovery ladder applied to the reply text, first success wins. */
  function Recover<J>(content: string, input: string, parse: string -> Option<J>): (g: Generated<J>)
    ensures parse(content).Some? ==> g == Parsed(parse(content).value)
    ensures parse(content).None? && BraceSpan(content).Some? && parse(BraceSpan(content).value).Some? ==>
              g == Parsed(parse(BraceSpan(content).value).value)
    ensures g.Drafts? <==> parse(content).None? && (BraceSpan(content).None? || parse(BraceSpan(content).value).None?)
    ensures g.Drafts? ==> g.tasks == [FallbackDraft(input)]
  {
    match parse(content)
    case Some(v) => Parsed(v)
    case None =>
      match BraceSpan(content)
      case Some(span) =>
        (match parse(span)
         case Some(v) => Parsed(v)
         case None => Drafts([FallbackDraft(input)]))
      case None => Drafts([FallbackDraft(input)])
  }

  /** An object embedded in prose is found: when the text before it has no
      `{` and the text after it has no `}`, the span parsed is the object. */
  lemma EmbeddedObjectRecovered<J>(before: string, obj: string, after: string, input: string, parse: string -> Option<J>)
    requires '{' !in before && '}' !in after
    requires |obj| >= 2 && obj[0] == '{' && obj[|obj| - 1] == '}'
    requires parse(before + obj + after).None? && parse(obj).Some?
    ensures Recover(before + obj + after, input, parse) == Parsed(parse(obj).value)
  {
    var s := before + obj + after;
    var i, j := |before|, |before| + |obj| - 1;
    assert s[i] == '{' && s[j] == '}';
    assert BraceSpan(s).Some?;
    assert s[..i] == before;
    assert s[j + 1..] == after;
    assert s[i..j + 1] == obj;
  }

  /** Prose with no `{` before a `}` never parses partially: it yields
      exactly one `todo` task whose description is the whole input. */
  lemma ProseFallsBack<J>(content: string, input: string, parse: string -> Option<J>)
    requires parse(content).None?
    requires forall i, j :: 0 <= i < j < |content| ==> !(content[i] == '{' && content[j] == '}')
    ensures var g := Recover(content, input, parse);
            && g == Drafts([FallbackDraft(input)])
            && g.tasks[0].description == input && g.tasks[0].status == "todo"
            && |g.tasks[0].title| <= TitleLimit + 3
  {
  }

  /** What `testPrompt` returns: the raw reply text and usage. */
  datatype PromptProbe = PromptProbe(response: string, usage: Option<Usage>)

  /** The orchestrator: one system prompt, replaced by `SetSystemPrompt`. */
  class TaskGenerationService {
    var systemPrompt: string

    constructor ()
      ensures GetSystemPrompt() == DefaultSystemPrompt
    {
      systemPrompt := DefaultSystemPrompt;
    }

    method SetSystemPrompt(prompt: string)
      modifies this
      ensures GetSystemPrompt() == prompt
    {
      systemPrompt := prompt;
    }

    function GetSystemPrompt(): (p: string)
      reads this
      ensures p == systemPrompt
    {
      systemPrompt
    }

    /** The built-in template; it reads no state, so no earlier
        `SetSystemPrompt` can change it. */
    function GetDefaultSystemPrompt(): (p: string)
      ensures p == DefaultSystemPrompt
    {
      DefaultSystemPrompt
    }

    /** `generateTasks`: one call with exactly the effective prompt and the
        input, in that order; a failed call is rethrown unchanged, and a
        successful one always yields the recovery ladder's result. */
    function GenerateTasks<J>(request: TaskGenerationRequest, llm: LLMService, net: Network, parse: string -> Option<J>)
      : (r: Result<Generated<J>, LLMError>)
      reads this, llm
      ensures var prompt := EffectivePrompt(request.systemPrompt, systemPrompt);
              var reply := llm.CallLLM([LLMMessage(System, prompt), LLMMessage(User, request.input)], net).result;
              && (reply.Failure? ==> r == Failure(reply.error))
              && (reply.Success? ==> r == Success(Recover(reply.value.content, request.input, parse)))
    {
      var prompt := EffectivePrompt(request.systemPrompt, systemPrompt);
      match llm.CallLLM(PromptMessages(prompt, request.input), net).result
      case Failure(e) => Failure(e)
      case Success(response) => Success(Recover(response.content, request.input, parse))
    }

    /** `testPrompt`: the same call, with the reply's text and usage returned
        untouched and no parsing. */
    function TestPrompt(input: string, override: Option<string>, llm: LLMService, net: Network)
      : (r: Result<PromptProbe, LLMError>)
      reads this, llm
      ensures var prompt := EffectivePrompt(override, systemPrompt);
              var reply := llm.CallLLM([LLMMessage(System, prompt), LLMMessage(User, input)], net).result;
              && (reply.Failure? ==> r == Failure(reply.error))
              && (reply.Success? ==> r == Success(PromptProbe(reply.value.content, reply.value.usage)))
    {
      var prompt := EffectivePrompt(override, systemPrompt);
      match llm.CallLLM(PromptMessages(prompt, input), net).result
      case Failure(e) => Failure(e)
      case Success(response) => Success(PromptProbe(response.content, response.usage))
    }
  }

  /** Generation raises only when the provider call itself fails; without a
      configuration it raises the configuration error. */
  lemma GenerateRaisesOnlyOnCallFailure<J>(service: TaskGenerationService, request: TaskGenerationRequest,
                                           llm: LLMService, net: Network, parse: string -> Option<J>)
    ensures var prompt := EffectivePrompt(request.systemPrompt, service.systemPrompt);
            service.GenerateTasks(request, llm, net, parse).Failure? <==>
              llm.CallLLM(PromptMessages(prompt, request.input), net).result.Failure?
    ensures llm.config.None? ==> service.GenerateTasks(request, llm, net, parse) == Failure(ConfigNotSet)
  {
  }
}
