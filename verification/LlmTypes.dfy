/** The records exchanged with the LLM provider client and the task
    generator (src/types/llm.ts). */
module LlmTypes {

  import opened Wrappers

  /** The connection settings. `provider` is the string tag the client
      dispatches on: the type admits 'openai', 'claude', 'gemini', 'DMXAPI'
      and 'custom', and a stored configuration may hold any string.
      `temperature` is a JavaScript number, kept here as a real. */
  datatype LLMConfig = LLMConfig(
    provider: string,
    apiKey: string,
    baseUrl: Option<string>,
    model: string,
    temperature: Option<real>,
    maxTokens: Option<int>)

  datatype Role = System | User | Assistant

  datatype LLMMessage = LLMMessage(role: Role, content: string)

  /** Token accounting in the client's own field names. */
  datatype Usage = Usage(promptTokens: int, completionTokens: int, totalTokens: int)

  datatype LLMResponse = LLMResponse(content: string, usage: Option<Usage>)

  /** Free text to turn into tasks, with an optional system prompt override. */
  datatype TaskGenerationRequest = TaskGenerationRequest(input: string, systemPrompt: Option<string>)
}
