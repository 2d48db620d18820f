/**
 * What the chatbot's graph hands to the memory graph, and where it looks
 * for memories. The deferred run itself (`runs.create` with
 * `after_seconds` and `multitask_strategy="enqueue"`) belongs to the
 * LangGraph server and is not modelled; only the configuration it carries is.
 */
module ChatbotGraph {
  import opened PyValues
  import opened ConfigSource
  import CC = ChatbotConfiguration
  import MC = MemoryConfiguration
  import MG = MemoryGraph
  import External

  /** The `configurable` of the deferred memory run: the chatbot's user and memory types. */
  function Forwarded(c: CC.ChatConfigurable): (m: Mapping)
    ensures m.Keys == {"user_id", "memory_types"}
    ensures m["user_id"] == c.userId && m["memory_types"] == c.memoryTypes
  {
    map["user_id" := c.userId, "memory_types" := c.memoryTypes]
  }

  /** The `config` of the deferred memory run; the memory graph reads `Forwarded(c)` back out of it. */
  function MemoryRunConfig(c: CC.ChatConfigurable): (r: Mapping)
    ensures r.Keys == {"configurable"} && r["configurable"] == PyDict(Forwarded(c))
    ensures Configurable(Some(r)) == Ok(Forwarded(c))
  {
    map["configurable" := PyDict(Forwarded(c))]
  }

  /**
   * When the chatbot resolved no memory types, the memory graph falls back to
   * its two built-in schemas.
   */
  lemma ForwardedNoneGivesDefaults(env: Env, cc: CC.ChatConfigurable, memoryPrompt: string)
    requires "MEMORY_TYPES" !in env
    requires cc.memoryTypes == PyNone
    ensures MC.FromRunnableConfig(env, Some(MemoryRunConfig(cc)), memoryPrompt).Ok?
    ensures MC.FromRunnableConfig(env, Some(MemoryRunConfig(cc)), memoryPrompt).value.memoryTypes
         == MC.DefaultMemoryConfigs(memoryPrompt)
  {
    MC.UnsetMemoryTypesGiveDefaults(env, Forwarded(cc), memoryPrompt);
  }

  /**
   * An empty `memory_types` list given to the chatbot is dropped as falsy, so
   * the memory graph receives `None` and uses the built-in schemas, although
   * the same empty list given to the memory graph directly yields none.
   */
  lemma EmptyListThroughChatbotGivesDefaults(env: Env, configurable: Mapping, chatPrompt: string, memoryPrompt: string)
    requires "MEMORY_TYPES" !in env
    requires "memory_types" in configurable && configurable["memory_types"] == PyList([])
    ensures var cc := CC.FromConfigurable(env, configurable, chatPrompt);
      && MC.FromRunnableConfig(env, Some(MemoryRunConfig(cc)), memoryPrompt).Ok?
      && MC.FromRunnableConfig(env, Some(MemoryRunConfig(cc)), memoryPrompt).value.memoryTypes
         == MC.DefaultMemoryConfigs(memoryPrompt)
    ensures MC.FromConfigurable(env, configurable, memoryPrompt).Ok?
    ensures MC.FromConfigurable(env, configurable, memoryPrompt).value.memoryTypes == []
  {
    CC.MemoryTypesPassThrough(env, configurable, chatPrompt);
    ForwardedNoneGivesDefaults(env, CC.FromConfigurable(env, configurable, chatPrompt), memoryPrompt);
    MC.FalsyMemoryTypesGiveNone(env, configurable, memoryPrompt);
  }

  /**
   * The memory graph stores under the chatbot's user id exactly when
   * `USER_ID` is not set to the empty string: then the chatbot falls back to
   * `"default-user"` and the memory graph, which reads the same variable, to
   * `"default"`.
   */
  lemma UserIdAgreement(env: Env, configurable: Mapping, chatPrompt: string, memoryPrompt: string)
    requires MC.FromConfigurable(env, Forwarded(CC.FromConfigurable(env, configurable, chatPrompt)), memoryPrompt).Ok?
    ensures var cc := CC.FromConfigurable(env, configurable, chatPrompt);
      var mc := MC.FromConfigurable(env, Forwarded(cc), memoryPrompt).value;
      mc.userId == cc.userId <==> !("USER_ID" in env && env["USER_ID"] == "")
  {
    var cc := CC.FromConfigurable(env, configurable, chatPrompt);
    var forwarded := Forwarded(cc);
    var mc := MC.FromConfigurable(env, forwarded, memoryPrompt).value;
    assert mc.userId == Resolved(env, forwarded, "user_id", "USER_ID", MC.DEFAULT_USER_ID);
    if "USER_ID" in env && env["USER_ID"] == "" {
      assert cc.userId == PyStr("default-user") && mc.userId == PyStr("default");
    } else if "USER_ID" in env {
      assert cc.userId == PyStr(env["USER_ID"]) == mc.userId;
    } else {
      assert Truthy(cc.userId) && forwarded["user_id"] == cc.userId;
    }
  }

  /**
   * With `MEMORY_TYPES` set to the empty string in the environment both
   * graphs read, the chatbot drops it and forwards `None`, yet the memory
   * graph reads the same empty string, which is not `None`, and ends up with
   * no schemas at all rather than the built-in ones.
   */
  lemma EmptyEnvMemoryTypesGiveNoSchemas(env: Env, configurable: Mapping, chatPrompt: string, memoryPrompt: string)
    requires "MEMORY_TYPES" in env && env["MEMORY_TYPES"] == ""
    ensures var cc := CC.FromConfigurable(env, configurable, chatPrompt);
      && cc.memoryTypes == PyNone
      && MC.FromRunnableConfig(env, Some(MemoryRunConfig(cc)), memoryPrompt).Ok?
      && MC.FromRunnableConfig(env, Some(MemoryRunConfig(cc)), memoryPrompt).value.memoryTypes == []
  {
    var cc := CC.FromConfigurable(env, configurable, chatPrompt);
    MC.EnvMemoryTypes(env, Forwarded(cc), memoryPrompt);
  }

  /** A namespace with the `{user_id}` segment filled in, as the store manager does at run time. */
  function FormatNamespace(namespace: seq<PyValue>, userId: PyValue): (r: seq<PyValue>)
    ensures |r| == |namespace|
    ensures forall k :: 0 <= k < |r| ==> r[k] == (if namespace[k] == PyStr("{user_id}") then userId else namespace[k])
  {
    seq(|namespace|, k requires 0 <= k < |namespace| =>
      if namespace[k] == PyStr("{user_id}") then userId else namespace[k])
  }

  /** The namespace prefix `bot` searches, as written: `(user_id,)`. */
  function BotSearchNamespaceAsWritten(c: CC.ChatConfigurable): (ns: seq<PyValue>)
    ensures ns == [c.userId]
  {
    [c.userId]
  }

  /**
   * As written, the search prefix matches no namespace the memory graph
   * writes to, for every user id other than `"memories"`: e.g. user
   * `"default-user"` searches `("default-user",)` while its `User` memory
   * lives under `("memories", "default-user", "User")`.
   */
  lemma AsWrittenSearchMissesMemories(c: CC.ChatConfigurable, functionName: PyValue, storedUserId: PyValue)
    requires c.userId != PyStr("memories")
    ensures !(BotSearchNamespaceAsWritten(c) <= FormatNamespace(MG.Namespace(functionName), storedUserId))
  {
    var stored := FormatNamespace(MG.Namespace(functionName), storedUserId);
    assert stored[0] == PyStr("memories");
  }

  /** The search prefix that reaches the memory graph's namespaces: `("memories", user_id)`. */
  function BotSearchNamespace(c: CC.ChatConfigurable): (ns: seq<PyValue>)
    ensures ns == [PyStr("memories"), c.userId]
  {
    [PyStr("memories"), c.userId]
  }

  /**
   * The corrected prefix covers the namespace of every task the memory
   * graph dispatches for the same user and whose store manager exists, which
   * is every task with a hashable name.
   */
  lemma SearchFindsDispatchedMemories(c: CC.ChatConfigurable, messages: seq<External.Message>, config: MC.Configuration, k: nat)
    requires config.userId == c.userId
    requires MG.Graph(messages, config).Ok? && k < |MG.Graph(messages, config).value|
    ensures var task := MG.Graph(messages, config).value[k];
      && (MG.GetStoreManager(task.functionName, config).Ok? <==> Hashable(task.functionName))
      && (MG.GetStoreManager(task.functionName, config).Ok? ==>
           BotSearchNamespace(c) <= FormatNamespace(
             MG.GetStoreManager(task.functionName, config).value.namespace,
             MG.ManagerRunConfigurable(config)["user_id"]))
  {
    var types := config.memoryTypes;
    var task := MG.Tasks(messages, types)[k];
    assert task.functionName == types[k].name;
    if Hashable(task.functionName) {
      var j := MG.FirstNamed(types, task.functionName);
      assert j.Some?;
      var settings := MG.SettingsFor(types[j.value], task.functionName, config.model);
      assert MG.GetStoreManager(task.functionName, config) == Ok(settings);
      var formatted := FormatNamespace(settings.namespace, config.userId);
      assert formatted[0] == PyStr("memories") && formatted[1] == c.userId;
      assert formatted[..2] == BotSearchNamespace(c);
    }
  }
}
