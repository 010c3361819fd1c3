/** Configuration persistence (src/services/configService.ts): the provider
    configuration and the system prompt are kept in the browser's key–value
    store under two fixed keys and pushed into the provider client and the
    task generator when loaded or saved.

    The store is a map field. Serialising a configuration is not modelled:
    a `Codec` gives the text a configuration is saved as and the
    configuration a text parses to, if any (a text that fails to parse is
    the exception the source catches). */
module ConfigService {

  import opened Wrappers
  import opened LlmTypes
  import opened LlmService
  import opened TaskGeneration

  const LLMConfigKey: string := "llm_config"
  const SystemPromptKey: string := "system_prompt"

  /** `JSON.stringify` and `JSON.parse` for configurations. */
  datatype Codec = Codec(stringify: LLMConfig -> string, parse: string -> Option<LLMConfig>)

  /** The codec reads back what it writes, and never writes the empty text
      (which the store would treat as absent). */
  predicate RoundTrips(codec: Codec, c: LLMConfig)
  {
    codec.parse(codec.stringify(c)) == Some(c) && codec.stringify(c) != ""
  }

  /** The configuration the store holds: none when the key is missing or
      its text is empty or does not parse. */
  function StoredConfig(storage: map<string, string>, codec: Codec): (r: Option<LLMConfig>)
    ensures LLMConfigKey !in storage ==> r.None?
    ensures r.Some? ==> storage[LLMConfigKey] != "" && codec.parse(storage[LLMConfigKey]) == r
    ensures LLMConfigKey in storage && storage[LLMConfigKey] != "" ==> r == codec.parse(storage[LLMConfigKey])
  {
    if LLMConfigKey in storage && storage[LLMConfigKey] != "" then codec.parse(storage[LLMConfigKey]) else None
  }

  /** The prompt the store holds: none when the key is missing or its text
      is empty. */
  function StoredPrompt(storage: map<string, string>): (r: Option<string>)
    ensures r.Some? <==> SystemPromptKey in storage && storage[SystemPromptKey] != ""
    ensures r.Some? ==> r.value == storage[SystemPromptKey] && r.value != ""
  {
    if SystemPromptKey in storage && storage[SystemPromptKey] != "" then Some(storage[SystemPromptKey]) else None
  }

  /** A saved configuration is read back, whatever else the store holds. */
  lemma SavedConfigLoads(storage: map<string, string>, codec: Codec, c: LLMConfig)
    requires RoundTrips(codec, c)
    ensures StoredConfig(storage[LLMConfigKey := codec.stringify(c)], codec) == Some(c)
  {
  }

  /** A non-empty saved prompt is read back; an empty one reads as absent. */
  lemma SavedPromptLoads(storage: map<string, string>, p: string)
    ensures StoredPrompt(storage[SystemPromptKey := p]) == if p == "" then None else Some(p)
  {
  }

  /** The two entries are independent: saving one leaves the other as it
      was read. */
  lemma EntriesIndependent(storage: map<string, string>, codec: Codec, c: LLMConfig, p: string)
    ensures StoredPrompt(storage[LLMConfigKey := codec.stringify(c)]) == StoredPrompt(storage)
    ensures StoredConfig(storage[SystemPromptKey := p], codec) == StoredConfig(storage, codec)
  {
  }

  /** After a clear the next loads find nothing. */
  lemma ClearedLoadsNothing(storage: map<string, string>, codec: Codec)
    ensures var cleared := storage - {LLMConfigKey, SystemPromptKey};
            StoredConfig(cleared, codec).None? && StoredPrompt(cleared).None?
  {
  }

  /** `isLLMConfigured` on the client's current configuration: one is set
      and its api key, model and provider are all non-empty. */
  predicate Configured(config: Option<LLMConfig>)
  {
    config.Some? && config.value.apiKey != "" && config.value.model != "" && config.value.provider != ""
  }

  class ConfigService {
    const llm: LLMService
    const generator: TaskGenerationService
    var storage: map<string, string>

    constructor (llm: LLMService, generator: TaskGenerationService, storage: map<string, string>)
      ensures this.llm == llm && this.generator == generator && this.storage == storage
    {
      this.llm := llm;
      this.generator := generator;
      this.storage := storage;
    }

    /** `loadLLMConfig`: a stored configuration is handed to the client and
        returned; without one nothing changes. */
    method LoadLLMConfig(codec: Codec) returns (r: Option<LLMConfig>)
      modifies llm
      ensures r == StoredConfig(storage, codec)
      ensures r.Some? ==> llm.GetConfig() == r
      ensures r.None? ==> llm.GetConfig() == old(llm.GetConfig())
    {
      if LLMConfigKey in storage && storage[LLMConfigKey] != "" {
        r := codec.parse(storage[LLMConfigKey]);
        if r.Some? {
          llm.SetConfig(r.value);
        }
      } else {
        r := None;
      }
    }

    /** `saveLLMConfig`: stores the configuration's text under its key and
        hands it to the client; a codec that round-trips makes the next load
        return it. */
    method SaveLLMConfig(codec: Codec, c: LLMConfig)
      modifies this, llm
      ensures storage == old(storage)[LLMConfigKey := codec.stringify(c)]
      ensures llm.GetConfig() == Some(c)
      ensures RoundTrips(codec, c) ==> StoredConfig(storage, codec) == Some(c)
      ensures StoredPrompt(storage) == StoredPrompt(old(storage))
    {
      storage := storage[LLMConfigKey := codec.stringify(c)];
      llm.SetConfig(c);
      EntriesIndependent(old(storage), codec, c, "");
    }

    /** `loadSystemPrompt`: a stored non-empty prompt is handed to the
        generator and returned; otherwise nothing changes. */
    method LoadSystemPrompt() returns (r: Option<string>)
      modifies generator
      ensures r == StoredPrompt(storage)
      ensures r.Some? ==> generator.GetSystemPrompt() == r.value
      ensures r.None? ==> generator.GetSystemPrompt() == old(generator.GetSystemPrompt())
    {
      if SystemPromptKey in storage && storage[SystemPromptKey] != "" {
        r := Some(storage[SystemPromptKey]);
        generator.SetSystemPrompt(r.value);
      } else {
        r := None;
      }
    }

    /** `saveSystemPrompt`: stores the prompt under its key and hands it to
        the generator; the next load returns it unless it is empty. */
    method SaveSystemPrompt(p: string)
      modifies this, generator
      ensures storage == old(storage)[SystemPromptKey := p]
      ensures generator.GetSystemPrompt() == p
      ensures StoredPrompt(storage) == if p == "" then None else Some(p)
    {
      storage := storage[SystemPromptKey := p];
      generator.SetSystemPrompt(p);
    }

    /** `initializeConfigs`: loads the configuration, then the prompt. */
    method InitializeConfigs(codec: Codec)
      modifies llm, generator
      ensures StoredConfig(storage, codec).Some? ==> llm.GetConfig() == StoredConfig(storage, codec)
      ensures StoredConfig(storage, codec).None? ==> llm.GetConfig() == old(llm.GetConfig())
      ensures StoredPrompt(storage).Some? ==> generator.GetSystemPrompt() == StoredPrompt(storage).value
      ensures StoredPrompt(storage).None? ==> generator.GetSystemPrompt() == old(generator.GetSystemPrompt())
    {
      var _ := LoadLLMConfig(codec);
      var _ := LoadSystemPrompt();
    }

    function IsLLMConfigured(): (b: bool)
      reads llm
      ensures b <==> Configured(llm.GetConfig())
    {
      Configured(llm.GetConfig())
    }

    /** `getLLMConfig`: the client's current configuration. */
    function GetLLMConfig(): (r: Option<LLMConfig>)
      reads llm
      ensures r == llm.config
    {
      llm.GetConfig()
    }

    /** `clearConfigs`: removes exactly the two keys; the configuration and
        prompt already handed out stay in place. */
    method ClearConfigs()
      modifies this
      ensures storage == old(storage) - {LLMConfigKey, SystemPromptKey}
      ensures llm.GetConfig() == old(llm.GetConfig())
      ensures generator.GetSystemPrompt() == old(generator.GetSystemPrompt())
    {
      storage := storage - {LLMConfigKey, SystemPromptKey};
    }
  }

  /** Being configured gets a call past the configuration check; it does
      not make the provider supported. */
  lemma ConfiguredPassesConfigCheck(llm: LLMService, messages: seq<LLMMessage>, net: Network)
    requires Configured(llm.config)
    ensures llm.CallLLM(messages, net).result != Failure(ConfigNotSet)
  {
  }

  /** A 'DMXAPI' configuration counts as configured and is still rejected
      by every call. */
  lemma ConfiguredDmxApiRejected(llm: LLMService, messages: seq<LLMMessage>, net: Network)
    requires llm.config.Some? && llm.config.value.provider == "DMXAPI"
    requires llm.config.value.apiKey != "" && llm.config.value.model != ""
    ensures Configured(llm.config)
    ensures llm.CallLLM(messages, net).result == Failure(UnsupportedProvider("DMXAPI"))
  {
  }
}
