/**
 * The chatbot's configuration: `ChatConfigurable` and its
 * `from_runnable_config`. Unlike the memory graph's, nothing is converted:
 * `memory_types` is passed through as given. The default `system_prompt`
 * lives in a prompts module that is not part of this model; it is the
 * parameter `systemPrompt`.
 */
module ChatbotConfiguration {
  import opened PyValues
  import opened Strings
  import opened ConfigSource

  datatype ChatConfigurable = ChatConfigurable(
    userId: PyValue,
    memAssistantId: PyValue,
    model: PyValue,
    delaySeconds: PyValue,
    systemPrompt: PyValue,
    memoryTypes: PyValue)

  /** The dataclass fields. */
  const FIELD_NAMES: set<string> := {"user_id", "mem_assistant_id", "model", "delay_seconds", "system_prompt", "memory_types"}

  /** `ChatConfigurable()`: every field at its default. */
  function Defaults(systemPrompt: string): ChatConfigurable {
    ChatConfigurable(
      PyStr("default-user"),
      PyStr("memory_graph"),
      PyStr("anthropic/claude-3-5-sonnet-20240620"),
      PyInt(10),
      PyStr(systemPrompt),
      PyNone)
  }

  /**
   * Everything `from_runnable_config` does once `configurable` is known.
   * Every field follows the precedence rule under its upper-cased name: the
   * environment variable if set (the empty string giving the default),
   * otherwise a truthy `configurable` entry, otherwise the default.
   */
  function FromConfigurable(env: Env, configurable: Mapping, systemPrompt: string): (c: ChatConfigurable)
    ensures c.userId == Resolved(env, configurable, "user_id", "USER_ID", PyStr("default-user"))
    ensures c.memAssistantId == Resolved(env, configurable, "mem_assistant_id", "MEM_ASSISTANT_ID", PyStr("memory_graph"))
    ensures c.model == Resolved(env, configurable, "model", "MODEL", PyStr("anthropic/claude-3-5-sonnet-20240620"))
    ensures c.delaySeconds == Resolved(env, configurable, "delay_seconds", "DELAY_SECONDS", PyInt(10))
    ensures c.systemPrompt == Resolved(env, configurable, "system_prompt", "SYSTEM_PROMPT", PyStr(systemPrompt))
    ensures c.memoryTypes == Resolved(env, configurable, "memory_types", "MEMORY_TYPES", PyNone)
  {
    EnvNamesAreUpperCased();
    var d := Defaults(systemPrompt);
    ChatConfigurable(
      ResolveField(env, configurable, "user_id", "USER_ID", d.userId),
      ResolveField(env, configurable, "mem_assistant_id", "MEM_ASSISTANT_ID", d.memAssistantId),
      ResolveField(env, configurable, "model", "MODEL", d.model),
      ResolveField(env, configurable, "delay_seconds", "DELAY_SECONDS", d.delaySeconds),
      ResolveField(env, configurable, "system_prompt", "SYSTEM_PROMPT", d.systemPrompt),
      ResolveField(env, configurable, "memory_types", "MEMORY_TYPES", d.memoryTypes))
  }

  /** `ChatConfigurable.from_runnable_config(config)` with the environment passed in. */
  function FromRunnableConfig(env: Env, config: Option<Mapping>, systemPrompt: string): (r: Result<ChatConfigurable>)
    ensures r.Err? <==> Configurable(config).Err?
    ensures r.Err? ==> r.error == AttributeError
    ensures r.Ok? ==> r.value == FromConfigurable(env, Configurable(config).value, systemPrompt)
  {
    var configurable :- Configurable(config);
    Ok(FromConfigurable(env, configurable, systemPrompt))
  }

  /** Entries of `configurable` that are not fields change nothing. */
  lemma IgnoresUnknownKeys(env: Env, configurable: Mapping, key: string, value: PyValue, systemPrompt: string)
    requires key !in FIELD_NAMES
    ensures FromConfigurable(env, configurable[key := value], systemPrompt) == FromConfigurable(env, configurable, systemPrompt)
  {
  }

  /** With no config and no environment every field takes its default. */
  lemma AllDefaults(systemPrompt: string)
    ensures FromRunnableConfig(map[], None, systemPrompt) == Ok(ChatConfigurable(
      PyStr("default-user"), PyStr("memory_graph"), PyStr("anthropic/claude-3-5-sonnet-20240620"),
      PyInt(10), PyStr(systemPrompt), PyNone))
  {
  }

  /** A supplied `delay_seconds` of `0` is falsy and gives back the default `10`. */
  lemma ZeroDelayGivesDefault(env: Env, configurable: Mapping, systemPrompt: string)
    requires "DELAY_SECONDS" !in env
    requires "delay_seconds" in configurable && configurable["delay_seconds"] == PyInt(0)
    ensures FromConfigurable(env, configurable, systemPrompt).delaySeconds == PyInt(10)
  {
  }

  /** An environment value is a string and is not converted: `DELAY_SECONDS=0` gives the string `"0"`. */
  lemma EnvDelayStaysString(env: Env, configurable: Mapping, systemPrompt: string)
    requires "DELAY_SECONDS" in env && env["DELAY_SECONDS"] != ""
    ensures FromConfigurable(env, configurable, systemPrompt).delaySeconds == PyStr(env["DELAY_SECONDS"])
  {
  }

  /** `memory_types` is passed through unconverted when truthy, and is `None` otherwise. */
  lemma MemoryTypesPassThrough(env: Env, configurable: Mapping, systemPrompt: string)
    requires "MEMORY_TYPES" !in env
    ensures var m := FromConfigurable(env, configurable, systemPrompt).memoryTypes;
      && ("memory_types" in configurable && Truthy(configurable["memory_types"]) ==> m == configurable["memory_types"])
      && (!("memory_types" in configurable && Truthy(configurable["memory_types"])) ==> m == PyNone)
  {
  }
}
