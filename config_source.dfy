/**
 * The lookup shared by both `from_runnable_config` class methods: take the
 * `configurable` mapping out of an optional `RunnableConfig`, then read each
 * field from the environment under its upper-cased name, falling back to
 * `configurable[name]`, and finally drop falsy values so the dataclass
 * default applies.
 */
module ConfigSource {
  import opened PyValues
  import opened Strings

  /** The process environment, passed in instead of read from `os.environ`. */
  type Env = map<string, string>

  /** A Python dict with string keys. */
  type Mapping = map<string, PyValue>

  /**
   * `config["configurable"] if config and "configurable" in config else {}`.
   * A `configurable` that is not a dict makes the later `.get` raise.
   */
  function Configurable(config: Option<Mapping>): (r: Result<Mapping>)
    ensures (config.None? || "configurable" !in config.value) ==> r == Ok(map[])
    ensures config.Some? && "configurable" in config.value ==>
      (r.Ok? <==> config.value["configurable"].PyDict?) &&
      (r.Ok? ==> r.value == config.value["configurable"].entries) &&
      (r.Err? ==> r.error == AttributeError)
  {
    if config.Some? && config.value != map[] && "configurable" in config.value then
      match config.value["configurable"]
      case PyDict(entries) => Ok(entries)
      case _ => Err(AttributeError)
    else
      Ok(map[])
  }

  /**
   * `os.environ.get(name.upper(), configurable.get(name))`; the caller passes
   * the upper-cased name, which is checked against `name`.
   */
  function Lookup(env: Env, configurable: Mapping, name: string, envName: string): (v: PyValue)
    requires envName == Upper(name)
    ensures envName in env ==> v == PyStr(env[envName])
    ensures envName !in env && name in configurable ==> v == configurable[name]
    ensures envName !in env && name !in configurable ==> v == PyNone
  {
    if envName in env then PyStr(env[envName])
    else if name in configurable then configurable[name]
    else PyNone
  }

  /**
   * The environment variable of each field of either configuration class is
   * its name upper-cased.
   */
  lemma EnvNamesAreUpperCased()
    ensures Upper("user_id") == "USER_ID"
    ensures Upper("mem_assistant_id") == "MEM_ASSISTANT_ID"
    ensures Upper("model") == "MODEL"
    ensures Upper("delay_seconds") == "DELAY_SECONDS"
    ensures Upper("system_prompt") == "SYSTEM_PROMPT"
    ensures Upper("memory_types") == "MEMORY_TYPES"
  {
  }

  /** A field's value after `{k: v for k, v in values.items() if v}` and the dataclass default. */
  function OrDefault(v: PyValue, default: PyValue): (r: PyValue)
    ensures Truthy(v) ==> r == v
    ensures !Truthy(v) ==> r == default
  {
    if Truthy(v) then v else default
  }

  /**
   * The value a field ends up with, stated as the precedence rule: a set
   * environment variable decides (its empty string giving the default),
   * otherwise a truthy `configurable` entry, otherwise the default.
   */
  ghost function Resolved(env: Env, configurable: Mapping, name: string, envName: string, default: PyValue): PyValue {
    if envName in env then
      (if env[envName] != "" then PyStr(env[envName]) else default)
    else if name in configurable && Truthy(configurable[name]) then configurable[name]
    else default
  }

  /** A field's final value: the lookup, then the falsy filter; it obeys the precedence rule. */
  function ResolveField(env: Env, configurable: Mapping, name: string, envName: string, default: PyValue): (v: PyValue)
    requires envName == Upper(name)
    ensures v == Resolved(env, configurable, name, envName, default)
  {
    OrDefault(Lookup(env, configurable, name, envName), default)
  }
}
