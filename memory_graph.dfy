/**
 * The memory graph's entrypoint: reject an empty conversation, then
 * dispatch one extraction task per configured memory type, and the
 * settings each task's store manager is created with.
 *
 * The configuration is a parameter. The store manager itself, the LLM and
 * the concurrency of `asyncio.gather` are not modelled: dispatch is the
 * ordered list of task states handed to `process_memory_type`.
 */
module MemoryGraph {
  import opened PyValues
  import opened External
  import opened ConfigSource
  import opened MemoryConfiguration

  /** `ProcessorState(messages=..., function_name=...)`: the input of one extraction task. */
  datatype ProcessorState = ProcessorState(messages: seq<Message>, functionName: PyValue)

  /** The arguments `get_store_manager` passes to `create_memory_store_manager`. */
  datatype ManagerSettings = ManagerSettings(
    model: PyValue,
    namespace: seq<PyValue>,
    enableInserts: bool,
    instructions: Option<PyValue>)

  /** The namespace template every store manager writes under. */
  function Namespace(functionName: PyValue): (ns: seq<PyValue>)
    ensures |ns| == 3 && ns[0] == PyStr("memories") && ns[1] == PyStr("{user_id}") && ns[2] == functionName
  {
    [PyStr("memories"), PyStr("{user_id}"), functionName]
  }

  /** The position of the first memory type called `name`, if any (the generator given to `next`). */
  function FirstNamed(types: seq<MemoryConfig>, name: PyValue): (r: Option<nat>)
    ensures r.None? <==> forall k :: 0 <= k < |types| ==> types[k].name != name
    ensures r.Some? ==> r.value < |types| && types[r.value].name == name
    ensures r.Some? ==> forall j :: 0 <= j < r.value ==> types[j].name != name
  {
    if types == [] then None
    else if types[0].name == name then Some(0)
    else match FirstNamed(types[1..], name)
      case None =>
        assert forall k :: 1 <= k < |types| ==> types[k] == types[1..][k - 1];
        None
      case Some(i) =>
        assert forall j :: 1 <= j < i + 1 ==> types[j] == types[1..][j - 1];
        Some(i + 1)
  }

  /** The keyword arguments `get_store_manager` derives from one memory type. */
  function SettingsFor(conf: MemoryConfig, functionName: PyValue, model: PyValue): (s: ManagerSettings)
    ensures s.model == model
    ensures s.enableInserts <==> conf.updateMode == PyStr("insert")
    ensures s.instructions.Some? <==> Truthy(conf.systemPrompt)
    ensures s.instructions.Some? ==> s.instructions.value == conf.systemPrompt
    ensures s.namespace == Namespace(functionName)
  {
    ManagerSettings(
      model,
      Namespace(functionName),
      conf.updateMode == PyStr("insert"),
      if Truthy(conf.systemPrompt) then Some(conf.systemPrompt) else None)
  }

  /**
   * `get_store_manager(function_name)`. The `lru_cache` around it hashes the
   * argument first, so a list or dict name raises `TypeError` before the
   * body runs. Otherwise the result is the settings of the first memory type
   * with that name; `next` on an empty generator raises `StopIteration`.
   */
  function GetStoreManager(functionName: PyValue, config: Configuration): (r: Result<ManagerSettings>)
    ensures !Hashable(functionName) ==> r == Err(TypeError)
    ensures Hashable(functionName) ==>
      (r.Err? <==> forall k :: 0 <= k < |config.memoryTypes| ==> config.memoryTypes[k].name != functionName)
    ensures Hashable(functionName) && r.Err? ==> r.error == StopIteration
    ensures r.Ok? ==> exists k ::
      && 0 <= k < |config.memoryTypes|
      && config.memoryTypes[k].name == functionName
      && (forall j :: 0 <= j < k ==> config.memoryTypes[j].name != functionName)
      && r.value == SettingsFor(config.memoryTypes[k], functionName, config.model)
  {
    if !Hashable(functionName) then Err(TypeError)
    else match FirstNamed(config.memoryTypes, functionName)
      case None => Err(StopIteration)
      case Some(k) => Ok(SettingsFor(config.memoryTypes[k], functionName, config.model))
  }

  /**
   * The `configurable` each store manager is invoked with by
   * `process_memory_type`: the model, and the user id that fills the
   * `{user_id}` segment of its namespace.
   */
  function ManagerRunConfigurable(config: Configuration): (m: Mapping)
    ensures m.Keys == {"model", "user_id"}
    ensures m["model"] == config.model && m["user_id"] == config.userId
  {
    map["model" := config.model, "user_id" := config.userId]
  }

  /** The tasks of `asyncio.gather(...)`, one per memory type, in configuration order. */
  function Tasks(messages: seq<Message>, types: seq<MemoryConfig>): (ts: seq<ProcessorState>)
    ensures |ts| == |types|
    ensures forall k :: 0 <= k < |ts| ==> ts[k].messages == messages && ts[k].functionName == types[k].name
  {
    if types == [] then []
    else [ProcessorState(messages, types[0].name)] + Tasks(messages, types[1..])
  }

  /** The `graph` entrypoint: `ValueError` on no messages, otherwise the dispatched tasks. */
  function Graph(messages: seq<Message>, config: Configuration): (r: Result<seq<ProcessorState>>)
    ensures r.Err? <==> messages == []
    ensures r.Err? ==> r.error == ValueError
    ensures r.Ok? ==> r.value == Tasks(messages, config.memoryTypes)
  {
    if messages == [] then Err(ValueError)
    else Ok(Tasks(messages, config.memoryTypes))
  }

  /** Memory types carry pairwise different names. */
  predicate DistinctNames(types: seq<MemoryConfig>) {
    forall i, j :: 0 <= i < j < |types| ==> types[i].name != types[j].name
  }

  /**
   * A dispatched task finds a store manager exactly when its name is
   * hashable (a list or dict name makes the cache raise `TypeError`). The
   * manager is that of the first type sharing the task's name, which is the
   * task's own type when names are distinct.
   */
  lemma DispatchedTaskSettings(messages: seq<Message>, config: Configuration, k: nat)
    requires Graph(messages, config).Ok? && k < |Graph(messages, config).value|
    ensures var task := Graph(messages, config).value[k];
      && (GetStoreManager(task.functionName, config).Ok? <==> Hashable(task.functionName))
      && (!Hashable(task.functionName) ==> GetStoreManager(task.functionName, config) == Err(TypeError))
      && (Hashable(task.functionName) ==>
           exists j :: (0 <= j <= k && config.memoryTypes[j].name == config.memoryTypes[k].name
             && GetStoreManager(task.functionName, config).value
                == SettingsFor(config.memoryTypes[j], task.functionName, config.model)))
      && (Hashable(task.functionName) && DistinctNames(config.memoryTypes) ==>
           GetStoreManager(task.functionName, config).value
             == SettingsFor(config.memoryTypes[k], task.functionName, config.model))
  {
    var name := config.memoryTypes[k].name;
    if Hashable(name) {
      var j := FirstNamed(config.memoryTypes, name).value;
      assert j <= k;
      assert GetStoreManager(name, config).value == SettingsFor(config.memoryTypes[j], name, config.model);
    }
  }

  /**
   * With the built-in schemas and a non-empty conversation, two tasks are
   * dispatched, `User` then `Note`; `User` patches and `Note` inserts, and
   * both carry the default prompt as instructions exactly when it is non-empty.
   */
  lemma DefaultRouting(messages: seq<Message>, userId: PyValue, model: PyValue, systemPrompt: string)
    requires messages != []
    ensures var config := Configuration(userId, model, DefaultMemoryConfigs(systemPrompt));
      && Graph(messages, config) == Ok([ProcessorState(messages, PyStr("User")), ProcessorState(messages, PyStr("Note"))])
      && GetStoreManager(PyStr("User"), config)
         == Ok(ManagerSettings(model, [PyStr("memories"), PyStr("{user_id}"), PyStr("User")], false,
                               if systemPrompt != "" then Some(PyStr(systemPrompt)) else None))
      && GetStoreManager(PyStr("Note"), config)
         == Ok(ManagerSettings(model, [PyStr("memories"), PyStr("{user_id}"), PyStr("Note")], true,
                               if systemPrompt != "" then Some(PyStr(systemPrompt)) else None))
  {
    var types := DefaultMemoryConfigs(systemPrompt);
    var config := Configuration(userId, model, types);
    var tasks := Tasks(messages, types);
    assert tasks == [ProcessorState(messages, PyStr("User")), ProcessorState(messages, PyStr("Note"))];
    assert FirstNamed(types, PyStr("User")) == Some(0);
    assert FirstNamed(types, PyStr("Note")) == Some(1);
  }
}
