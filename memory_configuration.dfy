/**
 * The memory graph's configuration: `MemoryConfig` (one memory schema),
 * `Configuration` (user, model and the list of memory schemas), the two
 * built-in schemas, and `Configuration.from_runnable_config`.
 *
 * Dataclasses convert nothing, so every field holds whatever Python value
 * was supplied. The default `system_prompt` lives in a prompts module that
 * is not part of this model; it is the parameter `systemPrompt`.
 */
module MemoryConfiguration {
  import opened PyValues
  import opened Strings
  import opened ConfigSource

  /** One memory schema: `MemoryConfig(name=..., description=..., parameters=..., ...)`. */
  datatype MemoryConfig = MemoryConfig(
    name: PyValue,
    description: PyValue,
    parameters: PyValue,
    systemPrompt: PyValue,
    updateMode: PyValue)

  datatype Configuration = Configuration(
    userId: PyValue,
    model: PyValue,
    memoryTypes: seq<MemoryConfig>)

  const DEFAULT_USER_ID := PyStr("default")
  const DEFAULT_MODEL := PyStr("anthropic/claude-3-5-sonnet-20240620")

  /** Keyword arguments `MemoryConfig` accepts, and those without a default. */
  const MEMORY_CONFIG_FIELDS: set<string> := {"name", "description", "parameters", "system_prompt", "update_mode"}
  const REQUIRED_FIELDS: set<string> := {"name", "description", "parameters"}

  /**
   * `MemoryConfig(**v)`: `v` must be a mapping whose keys are all keyword
   * arguments of the dataclass and that supplies every field without a
   * default; otherwise the call raises `TypeError`.
   */
  function NewMemoryConfig(v: PyValue, systemPrompt: string): (r: Result<MemoryConfig>)
    ensures r.Ok? <==> v.PyDict? && REQUIRED_FIELDS <= v.entries.Keys <= MEMORY_CONFIG_FIELDS
    ensures r.Err? ==> r.error == TypeError
    ensures r.Ok? ==>
      && r.value.name == v.entries["name"]
      && r.value.description == v.entries["description"]
      && r.value.parameters == v.entries["parameters"]
      && r.value.systemPrompt == (if "system_prompt" in v.entries then v.entries["system_prompt"] else PyStr(systemPrompt))
      && r.value.updateMode == (if "update_mode" in v.entries then v.entries["update_mode"] else PyStr("patch"))
  {
    match v
    case PyDict(d) =>
      if d.Keys <= MEMORY_CONFIG_FIELDS && REQUIRED_FIELDS <= d.Keys then
        Ok(MemoryConfig(
          d["name"], d["description"], d["parameters"],
          if "system_prompt" in d then d["system_prompt"] else PyStr(systemPrompt),
          if "update_mode" in d then d["update_mode"] else PyStr("patch")))
      else Err(TypeError)
    case _ => Err(TypeError)
  }

  /** Without `update_mode` a schema patches, and without `system_prompt` it uses the default prompt. */
  lemma MemoryConfigDefaults(d: Mapping, systemPrompt: string)
    requires d.Keys == REQUIRED_FIELDS
    ensures NewMemoryConfig(PyDict(d), systemPrompt) ==
      Ok(MemoryConfig(d["name"], d["description"], d["parameters"], PyStr(systemPrompt), PyStr("patch")))
  {
  }

  /** `[MemoryConfig(**v) for v in items]`: the first bad entry raises. */
  function ConvertAll(items: seq<PyValue>, systemPrompt: string): (r: Result<seq<MemoryConfig>>)
    ensures r.Ok? <==> forall k :: 0 <= k < |items| ==> NewMemoryConfig(items[k], systemPrompt).Ok?
    ensures r.Ok? ==> |r.value| == |items|
    ensures r.Ok? ==> forall k :: 0 <= k < |items| ==> NewMemoryConfig(items[k], systemPrompt) == Ok(r.value[k])
    ensures r.Err? ==> r.error == TypeError
  {
    if items == [] then Ok([])
    else
      var head :- NewMemoryConfig(items[0], systemPrompt);
      var tail :- ConvertAll(items[1..], systemPrompt);
      assert forall k :: 1 <= k < |items| ==> items[k] == items[1..][k - 1];
      Ok([head] + tail)
  }

  /**
   * `[MemoryConfig(**v) for v in (memory_types or [])]` for a `memory_types`
   * that is not `None`. A falsy value iterates as the empty list; a truthy
   * list converts entry by entry; any other truthy value (a string, a dict,
   * a number) yields entries that are not mappings, or is not iterable, and
   * raises `TypeError`.
   */
  function ToMemoryConfigs(memoryTypes: PyValue, systemPrompt: string): (r: Result<seq<MemoryConfig>>)
    ensures !Truthy(memoryTypes) ==> r == Ok([])
    ensures Truthy(memoryTypes) && !memoryTypes.PyList? ==> r == Err(TypeError)
    ensures Truthy(memoryTypes) && memoryTypes.PyList? ==> r == ConvertAll(memoryTypes.items, systemPrompt)
  {
    if !Truthy(memoryTypes) then Ok([])
    else match memoryTypes
      case PyList(items) => ConvertAll(items, systemPrompt)
      case _ => Err(TypeError)
  }

  // Long string literals below are written as concatenations of short
  // pieces: the verifier's cost grows faster than linearly in the length of
  // a single literal, and the pieces denote the same text.

  /** JSON Schema of the built-in `User` profile document. */
  function UserParameters(): PyValue {
    PyDict(map[
      "type" := PyStr("object"),
      "properties" := PyDict(map[
        "user_name" := PyDict(map["type" := PyStr("string"), "description" := PyStr("The user's " + "preferred name")]),
        "age" := PyDict(map["type" := PyStr("integer"), "description" := PyStr("The user's age")]),
        "interests" := PyDict(map[
          "type" := PyStr("array"),
          "items" := PyDict(map["type" := PyStr("string")]),
          "description" := PyStr("A list of the " + "user's interests")])])])
  }

  /** JSON Schema of the built-in `Note` event document. */
  function NoteParameters(): PyValue {
    PyDict(map[
      "type" := PyStr("object"),
      "properties" := PyDict(map[
        "context" := PyDict(map[
          "type" := PyStr("string"),
          "description" := PyStr("The situation or " + "circumstance in " + "which the memory " + "occurred that " + "inform when it " + "would be useful to " + "recall this.")]),
        "content" := PyDict(map[
          "type" := PyStr("string"),
          "description" := PyStr("The specific " + "information, " + "preference, or " + "event being " + "remembered.")])]),
      "required" := PyList([PyStr("context"), PyStr("content")])])
  }

  /** `DEFAULT_MEMORY_CONFIGS`: a `User` schema in patch mode, then a `Note` schema in insert mode. */
  function DefaultMemoryConfigs(systemPrompt: string): (r: seq<MemoryConfig>)
    ensures |r| == 2
    ensures r[0].name == PyStr("User") && r[0].updateMode == PyStr("patch")
    ensures r[1].name == PyStr("Note") && r[1].updateMode == PyStr("insert")
    ensures forall k :: 0 <= k < |r| ==> r[k].systemPrompt == PyStr(systemPrompt)
  {
    [ MemoryConfig(
        PyStr("User"),
        PyStr("Update this " + "document to " + "maintain up-to-date " + "information about " + "the user in the " + "conversation."),
        UserParameters(),
        PyStr(systemPrompt),
        PyStr("patch")),
      MemoryConfig(
        PyStr("Note"),
        PyStr("Save notable " + "memories the user " + "has shared with you " + "for later recall."),
        NoteParameters(),
        PyStr(systemPrompt),
        PyStr("insert")) ]
  }

  /** The `memory_types` slot: `None` is replaced by a copy of the built-in schemas, anything else is converted. */
  function ResolveMemoryTypes(memoryTypes: PyValue, systemPrompt: string): (r: Result<seq<MemoryConfig>>)
    ensures memoryTypes == PyNone ==> r == Ok(DefaultMemoryConfigs(systemPrompt))
    ensures memoryTypes != PyNone ==> r == ToMemoryConfigs(memoryTypes, systemPrompt)
  {
    if memoryTypes == PyNone then Ok(DefaultMemoryConfigs(systemPrompt))
    else ToMemoryConfigs(memoryTypes, systemPrompt)
  }

  /**
   * Everything `from_runnable_config` does once `configurable` is known:
   * `user_id` and `model` follow the precedence rule under their upper-cased
   * names, and the call fails exactly when the memory types cannot be built.
   */
  function FromConfigurable(env: Env, configurable: Mapping, systemPrompt: string): (r: Result<Configuration>)
    ensures r.Ok? <==> ResolveMemoryTypes(RawMemoryTypes(env, configurable), systemPrompt).Ok?
    ensures r.Err? ==> r.error == ResolveMemoryTypes(RawMemoryTypes(env, configurable), systemPrompt).error
    ensures r.Ok? ==> r.value.memoryTypes == ResolveMemoryTypes(RawMemoryTypes(env, configurable), systemPrompt).value
    ensures r.Ok? ==> r.value.userId == Resolved(env, configurable, "user_id", "USER_ID", DEFAULT_USER_ID)
    ensures r.Ok? ==> r.value.model == Resolved(env, configurable, "model", "MODEL", DEFAULT_MODEL)
  {
    EnvNamesAreUpperCased();
    var types :- ResolveMemoryTypes(RawMemoryTypes(env, configurable), systemPrompt);
    // An empty `types` is dropped by the falsy filter; the default factory gives `[]` again.
    Ok(Configuration(
      ResolveField(env, configurable, "user_id", "USER_ID", DEFAULT_USER_ID),
      ResolveField(env, configurable, "model", "MODEL", DEFAULT_MODEL),
      types))
  }

  /** `Configuration.from_runnable_config(config)` with the environment passed in. */
  function FromRunnableConfig(env: Env, config: Option<Mapping>, systemPrompt: string): (r: Result<Configuration>)
    ensures Configurable(config).Err? ==> r == Err(AttributeError)
    ensures Configurable(config).Ok? ==> r == FromConfigurable(env, Configurable(config).value, systemPrompt)
  {
    var configurable :- Configurable(config);
    FromConfigurable(env, configurable, systemPrompt)
  }

  /** The `memory_types` value before conversion: environment first, then `configurable`. */
  function RawMemoryTypes(env: Env, configurable: Mapping): (v: PyValue)
    ensures "MEMORY_TYPES" in env ==> v == PyStr(env["MEMORY_TYPES"])
    ensures "MEMORY_TYPES" !in env ==> v == (if "memory_types" in configurable then configurable["memory_types"] else PyNone)
  {
    EnvNamesAreUpperCased();
    Lookup(env, configurable, "memory_types", "MEMORY_TYPES")
  }

  /** A missing config, or one without `configurable`, reads as an empty `configurable`. */
  lemma MissingConfigurableIsEmpty(env: Env, config: Option<Mapping>, systemPrompt: string)
    requires config.None? || "configurable" !in config.value
    ensures FromRunnableConfig(env, config, systemPrompt) == FromConfigurable(env, map[], systemPrompt)
  {
  }

  /** A `configurable` that is not a dict raises `AttributeError`, whatever the environment. */
  lemma NonMappingConfigurableFails(env: Env, config: Mapping, systemPrompt: string)
    requires "configurable" in config && !config["configurable"].PyDict?
    ensures FromRunnableConfig(env, Some(config), systemPrompt) == Err(AttributeError)
  {
  }

  /** `memory_types` unset (or `None`) everywhere gives the two built-in schemas. */
  lemma UnsetMemoryTypesGiveDefaults(env: Env, configurable: Mapping, systemPrompt: string)
    requires "MEMORY_TYPES" !in env
    requires "memory_types" !in configurable || configurable["memory_types"] == PyNone
    ensures FromConfigurable(env, configurable, systemPrompt).Ok?
    ensures FromConfigurable(env, configurable, systemPrompt).value.memoryTypes == DefaultMemoryConfigs(systemPrompt)
  {
    assert RawMemoryTypes(env, configurable) == PyNone;
  }

  /**
   * A supplied list converts entry by entry, keeping order and length, and
   * the call succeeds exactly when every entry is a valid `MemoryConfig`.
   */
  lemma SuppliedMemoryTypesConvert(env: Env, configurable: Mapping, items: seq<PyValue>, systemPrompt: string)
    requires "MEMORY_TYPES" !in env
    requires "memory_types" in configurable && configurable["memory_types"] == PyList(items)
    ensures var r := FromConfigurable(env, configurable, systemPrompt);
      && (r.Ok? <==> forall k :: 0 <= k < |items| ==> NewMemoryConfig(items[k], systemPrompt).Ok?)
      && (r.Err? ==> r.error == TypeError)
      && (r.Ok? ==> |r.value.memoryTypes| == |items|)
      && (r.Ok? ==> forall k :: 0 <= k < |items| ==> NewMemoryConfig(items[k], systemPrompt) == Ok(r.value.memoryTypes[k]))
  {
    assert RawMemoryTypes(env, configurable) == PyList(items);
    if items == [] {
      assert ToMemoryConfigs(PyList(items), systemPrompt) == Ok([]);
    }
  }

  /** A falsy `memory_types` other than `None` (an empty list, say) yields no schemas, not the defaults. */
  lemma FalsyMemoryTypesGiveNone(env: Env, configurable: Mapping, systemPrompt: string)
    requires "MEMORY_TYPES" !in env
    requires "memory_types" in configurable
    requires configurable["memory_types"] != PyNone && !Truthy(configurable["memory_types"])
    ensures FromConfigurable(env, configurable, systemPrompt).Ok?
    ensures FromConfigurable(env, configurable, systemPrompt).value.memoryTypes == []
  {
    assert RawMemoryTypes(env, configurable) == configurable["memory_types"];
  }

  /**
   * `MEMORY_TYPES` in the environment is a string: set to `""` it hides the
   * `configurable` entry and yields no schemas; set to anything else it is
   * iterated character by character and raises `TypeError`.
   */
  lemma EnvMemoryTypes(env: Env, configurable: Mapping, systemPrompt: string)
    requires "MEMORY_TYPES" in env
    ensures env["MEMORY_TYPES"] == "" ==>
      FromConfigurable(env, configurable, systemPrompt).Ok? &&
      FromConfigurable(env, configurable, systemPrompt).value.memoryTypes == []
    ensures env["MEMORY_TYPES"] != "" ==> FromConfigurable(env, configurable, systemPrompt) == Err(TypeError)
  {
    assert RawMemoryTypes(env, configurable) == PyStr(env["MEMORY_TYPES"]);
  }

  /** With no config and no environment every field takes its default. */
  lemma AllDefaults(systemPrompt: string)
    ensures FromRunnableConfig(map[], None, systemPrompt) ==
      Ok(Configuration(DEFAULT_USER_ID, DEFAULT_MODEL, DefaultMemoryConfigs(systemPrompt)))
  {
    UnsetMemoryTypesGiveDefaults(map[], map[], systemPrompt);
  }
}
