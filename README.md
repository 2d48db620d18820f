# memory-template: configuration, routing and prompt helpers

This project models the deterministic core of the LangGraph memory template. The template has two graphs:

- **The chatbot** reads a user's stored memories into its prompt. After each turn it schedules a deferred run of the memory graph.
- **The memory graph** receives a conversation. It hands the conversation to one store-manager task per configured memory schema ("memory type"). Each schema is a JSON Schema document that is either patched in place or inserted as new documents.

Five parts of the template are modelled:

- **Configuration resolution.** Both `from_runnable_config` class methods (`Configuration` in the memory graph, `ChatConfigurable` in the chatbot) are modelled.
  - Each dataclass field reads the environment variable named by its upper-cased name. Failing that, it reads `configurable[name]`.
  - Falsy results are then dropped, so the dataclass default applies instead.
  - The memory graph also converts `memory_types` into `MemoryConfig` records. When `memory_types` is `None` or unset, it falls back to the two built-in schemas `User` (patch) and `Note` (insert). A falsy value such as `[]` gives no schemas.
- **Memory-type routing.**
  - The `graph` entrypoint rejects an empty conversation and otherwise dispatches one task per memory type, in order.
  - `get_store_manager` derives the manager settings for a task. These are the inserts flag, the optional instructions and the namespace `("memories", "{user_id}", name)`.
- **Prompt helpers.**
  - The system/closing envelope that `prepare_messages` builds around a conversation.
  - The `provider/model` split done by `init_model`, which both graphs share.
  - The memory block that `format_memories` renders.
- **The hand-over from the chatbot to the memory graph.**
  - The `configurable` the chatbot sends with its deferred run.
  - What the memory graph resolves from that `configurable`.
- **The bot's search namespace.**

Each operation in the core is pure as far as its callers can see, so each one is rendered as a Dafny function. Internally the source does use comprehensions, overwrites `values["memory_types"]` in place (src/memory_graph/configuration.py:68, 70) and inserts `instructions` into a `kwargs` dict (src/memory_graph/graph.py:46). None of this local state escapes, and each function states the value the code ends with. Python values are an explicit datatype `PyValue` with Python truthiness, because the dataclasses convert nothing. An environment string stays a string: `DELAY_SECONDS=0` yields the string `"0"`, not an integer. Errors the code raises (`TypeError`, `AttributeError`, `StopIteration`, `ValueError`) are the `Err` side of a `Result`.

The following are parameters of the model:

- **The environment**, a `map<string, string>`.
- **The two `SYSTEM_PROMPT` constants.** They live in `prompts` modules that are not part of this model.
- **The memory graph's configuration.** It is also a parameter wherever the code obtains it from `Configuration.from_context()`.

Files:

- `py_values.dfy`: Python values, truthiness, errors, `Option` and `Result`.
- `strings.dfy`: upper-casing, first-occurrence split, join and split-on-separator with their round trips.
- `external.dfy`: messages, store items, chat-model arguments.
- `config_source.dfy`: the lookup and falsy filter shared by both `from_runnable_config` methods.
- `memory_configuration.dfy`, `memory_graph.dfy`, `memory_utils.dfy`: the memory graph.
- `chatbot_configuration.dfy`, `chatbot_utils.dfy`, `chatbot_graph.dfy`: the chatbot.

## Model

| member | source | states |
|---|---|---|
| ConfigSource.Lookup | src/memory_graph/configuration.py:63 | `os.environ.get(NAME, configurable.get(name))`: the environment string when the variable is set; otherwise the `configurable` entry; otherwise `None`. |
| ConfigSource.Configurable | src/memory_graph/configuration.py:59-61 | No config, or a config without `"configurable"`, gives an empty mapping. A dict under `"configurable"` is used as the mapping. Any other value fails with `AttributeError` once `.get` is called on it. |
| ConfigSource.OrDefault | src/chatbot/configuration.py:39 | A truthy value is kept. A falsy one is replaced by the field default. |
| ConfigSource.ResolveField | src/chatbot/configuration.py:34-39 | A field's final value follows the precedence rule `Resolved`. A set environment variable decides, and its empty string gives the default. Otherwise a truthy `configurable` entry decides. Otherwise the default applies. |
| MemoryConfiguration.NewMemoryConfig | src/memory_graph/configuration.py:13-35 | `MemoryConfig(**v)` succeeds iff `v` is a dict whose keys include `name`, `description` and `parameters` and are all fields; otherwise it fails with `TypeError`. Given fields are copied unconverted. `system_prompt` defaults to the prompt parameter and `update_mode` to `"patch"`. |
| MemoryConfiguration.MemoryConfigDefaults | src/memory_graph/configuration.py:22-24 | A schema given only the three required fields patches and carries the default prompt. |
| MemoryConfiguration.ConvertAll | src/memory_graph/configuration.py:70-72 | The list conversion succeeds iff every entry converts. It preserves length and order, entry `k` being `MemoryConfig(**items[k])`, and fails only with `TypeError`. |
| MemoryConfiguration.ToMemoryConfigs | src/memory_graph/configuration.py:69-72 | A falsy non-`None` `memory_types` yields no schemas. A truthy value that is not a list fails with `TypeError`. |
| MemoryConfiguration.DefaultMemoryConfigs | src/memory_graph/configuration.py:76-116 | There are exactly two built-in schemas: `User` in patch mode, then `Note` in insert mode. Both use the default prompt. |
| MemoryConfiguration.ResolveMemoryTypes | src/memory_graph/configuration.py:67-72 | `None` gives the built-in schemas. Anything else is converted. |
| MemoryConfiguration.RawMemoryTypes | src/memory_graph/configuration.py:62-66 | `memory_types` before conversion: the `MEMORY_TYPES` string if set, else the `configurable` entry, else `None`. |
| MemoryConfiguration.FromConfigurable | src/memory_graph/configuration.py:62-73 | Resolution fails exactly when the memory types cannot be built, with the same error. It yields the converted memory types. `user_id` and `model` follow the precedence rule with defaults `"default"` and the Anthropic model name. |
| MemoryConfiguration.FromRunnableConfig | src/memory_graph/configuration.py:57-73 | Fails with `AttributeError` exactly when the `configurable` lookup fails. Otherwise it is the resolution from that `configurable`. |
| MemoryConfiguration.MissingConfigurableIsEmpty | src/memory_graph/configuration.py:59-61 | A missing config, or one without `"configurable"`, resolves as an empty `configurable`. |
| MemoryConfiguration.NonMappingConfigurableFails | src/memory_graph/configuration.py:59-63 | A non-dict `configurable` raises `AttributeError` whatever the environment. |
| MemoryConfiguration.UnsetMemoryTypesGiveDefaults | src/memory_graph/configuration.py:67-68 | Unset or `None` `memory_types`, with no `MEMORY_TYPES` variable, gives the two built-in schemas. |
| MemoryConfiguration.SuppliedMemoryTypesConvert | src/memory_graph/configuration.py:69-72 | A supplied list succeeds iff every entry is a valid `MemoryConfig`. It then keeps length and order, and it fails only with `TypeError`. |
| MemoryConfiguration.FalsyMemoryTypesGiveNone | src/memory_graph/configuration.py:67-73 | A falsy `memory_types` other than `None`, such as `[]`, yields no schemas rather than the defaults. |
| MemoryConfiguration.EnvMemoryTypes | src/memory_graph/configuration.py:63-72 | `MEMORY_TYPES=""` hides the `configurable` entry and yields no schemas. Any other value of the variable raises `TypeError`. |
| MemoryConfiguration.AllDefaults | src/memory_graph/configuration.py:42-73 | No config and no environment give `user_id` `"default"`, the default model and the built-in schemas. |
| MemoryGraph.Namespace | src/memory_graph/graph.py:50 | The namespace is the triple `("memories", "{user_id}", function_name)`. |
| MemoryGraph.FirstNamed | src/memory_graph/graph.py:38-40 | Finds the index of the first memory type with the given name, or reports that none has it. |
| MemoryGraph.SettingsFor | src/memory_graph/graph.py:42-50 | `enable_inserts` holds iff `update_mode == "insert"`. Instructions are present iff the schema's `system_prompt` is truthy, and then equal it. The namespace is as above and the model is the configured one. |
| MemoryGraph.GetStoreManager | src/memory_graph/graph.py:35-52 | A list or dict name fails with `TypeError`, because the `lru_cache` hashes it before the body runs. A hashable name fails with `StopIteration` iff no memory type has it. Otherwise the result is the settings of the first memory type that has it. |
| MemoryGraph.ManagerRunConfigurable | src/memory_graph/graph.py:58-68 | Each store manager is invoked with exactly the configured `model` and `user_id`. |
| MemoryGraph.Tasks | src/memory_graph/graph.py:82-89 | One task per memory type, in configuration order. Each task carries the whole conversation and its type's name. |
| MemoryGraph.Graph | src/memory_graph/graph.py:79-89 | An empty conversation fails with `ValueError` and nothing is dispatched. A non-empty one dispatches `Tasks`. |
| MemoryGraph.DispatchedTaskSettings | src/memory_graph/graph.py:55-59 | A dispatched task finds a store manager iff its name is hashable. Otherwise the lookup fails with `TypeError`. The manager found is that of the first type sharing the task's name, which is the task's own type when names are distinct. |
| MemoryGraph.DefaultRouting | src/memory_graph/graph.py:79-89 | With the built-in schemas, `User` then `Note` are dispatched. `User` patches and `Note` inserts, and both get the default prompt as instructions iff it is non-empty. |
| MemoryUtils.PreMergeList | src/memory_graph/utils.py:10-28 | The envelope has `len(messages) + 2` entries. First comes a system message whose content is the prompt followed by the memory-system instruction. Then come the messages unchanged and in order. Last is a user message starting with `## End of conversation`. |
| MemoryUtils.PreMergeListInjective | src/memory_graph/utils.py:28 | The prompt and the messages can be read back from the envelope. |
| MemoryUtils.PrepareMessages | src/memory_graph/utils.py:10-28 | The result is `merge_message_runs` applied to exactly the envelope `PreMergeList`. The merge itself is a parameter. |
| MemoryUtils.InitModel | src/memory_graph/utils.py:31-38 | There is a provider iff the name contains `/`. The provider is slash-free and `provider + "/" + model` is the name. Without `/`, the model is the whole name. |
| MemoryUtils.InitModelOfJoined | src/memory_graph/utils.py:33-34 | The split inverts joining a slash-free provider and any model name, including one that contains `/`. |
| MemoryUtils.DefaultModelSplit | src/memory_graph/utils.py:33-34 | The default model name splits into provider `anthropic` and model `claude-3-5-sonnet-20240620`. |
| Strings.SplitFirst | src/memory_graph/utils.py:33-34 | `split(c, maxsplit=1)` on a string containing `c`: the text before the first `c` and everything after it. There is no result iff `c` does not occur. |
| ChatbotConfiguration.FromConfigurable | src/chatbot/configuration.py:16-39 | Each of the six fields follows the precedence rule under its upper-cased name. The defaults are `"default-user"`, `"memory_graph"`, the Anthropic model name, `10`, the prompt parameter and `None`. |
| ChatbotConfiguration.FromRunnableConfig | src/chatbot/configuration.py:31-39 | Fails, with `AttributeError`, exactly when the `configurable` lookup does. Otherwise it resolves from that `configurable`. |
| ChatbotConfiguration.IgnoresUnknownKeys | src/chatbot/configuration.py:34-38 | A `configurable` key that is not a field changes nothing. |
| ChatbotConfiguration.AllDefaults | src/chatbot/configuration.py:16-33 | No config and no environment give every default. |
| ChatbotConfiguration.ZeroDelayGivesDefault | src/chatbot/configuration.py:21-39 | With `DELAY_SECONDS` unset, a supplied `delay_seconds` of `0` is falsy and gives `10`. |
| ChatbotConfiguration.EnvDelayStaysString | src/chatbot/configuration.py:35 | A non-empty `DELAY_SECONDS` is kept as the string itself, unconverted. |
| ChatbotConfiguration.MemoryTypesPassThrough | src/chatbot/configuration.py:23-39 | With `MEMORY_TYPES` unset, a truthy `memory_types` is passed through as given. A falsy one gives `None`. |
| ChatbotUtils.Line | src/chatbot/utils.py:16 | A memory's line is its rendered value, then `"\tLast updated: "`, then its timestamp, with nothing else in it. |
| ChatbotUtils.Lines | src/chatbot/utils.py:15-17 | One line per memory, in input order. Each is the value, `"\tLast updated: "` and the timestamp. |
| ChatbotUtils.FormatMemories | src/chatbot/utils.py:10-26 | The output is empty iff there are no memories (`None` or `[]`). Otherwise it starts with the fixed header and `<memories>\n`. |
| ChatbotUtils.FormatMemoriesLines | src/chatbot/utils.py:15-26 | A non-empty result is the header, the opening tag, a block and the closing tag. When no value or timestamp contains a newline, the block splits back into exactly `Lines(memories)`. |
| ChatbotUtils.LineSplitsAtTab | src/chatbot/utils.py:16 | A line splits at its first tab back into the value and `Last updated: ` plus the timestamp, provided the value holds no tab. |
| ChatbotUtils.InitModel | src/chatbot/utils.py:29-36 | The chatbot's split equals the memory graph's. There is a provider iff there is a `/`, and the split round-trips. |
| ChatbotGraph.Forwarded | src/chatbot/graph.py:72-76 | The deferred run's `configurable` has exactly `user_id` and `memory_types`, taken from the chatbot's configuration. |
| ChatbotGraph.MemoryRunConfig | src/chatbot/graph.py:71-77 | The memory graph's `configurable` lookup reads back exactly the forwarded mapping. |
| ChatbotGraph.ForwardedNoneGivesDefaults | src/chatbot/graph.py:71-77 | With `MEMORY_TYPES` unset, when the chatbot resolved no memory types, the memory graph uses its two built-in schemas. |
| ChatbotGraph.EmptyListThroughChatbotGivesDefaults | src/chatbot/graph.py:75 | With `MEMORY_TYPES` unset, an empty `memory_types` list given to the chatbot reaches the memory graph as `None`, giving the built-in schemas. The same list given to the memory graph directly gives none. |
| ChatbotGraph.UserIdAgreement | src/chatbot/graph.py:74 | The memory graph resolves the chatbot's user id iff `USER_ID` is not set to `""`. Set to `""`, the two fall back to different defaults. |
| ChatbotGraph.EmptyEnvMemoryTypesGiveNoSchemas | src/chatbot/graph.py:75 | With `MEMORY_TYPES=""` in the shared environment, the chatbot forwards `None`. The memory graph reads the same `""`, which is not `None`, and ends up with no schemas rather than the built-in ones. |
| ChatbotGraph.BotSearchNamespaceAsWritten | src/chatbot/graph.py:29 | The bot searches the one-element prefix `(user_id,)`. |
| ChatbotGraph.AsWrittenSearchMissesMemories | src/chatbot/graph.py:29-32 | That prefix matches no namespace the memory graph writes, for every user id other than `"memories"`. |
| ChatbotGraph.FormatNamespace | src/memory_graph/graph.py:50 | The store manager's run-time fill of the namespace template: each segment equal to `"{user_id}"` becomes the invoked user id, and other segments are kept. This is an assumption about langmem, listed under "Left out". |
| ChatbotGraph.BotSearchNamespace | src/chatbot/graph.py:29 | The corrected prefix is exactly `("memories", user_id)`. |
| ChatbotGraph.SearchFindsDispatchedMemories | src/chatbot/graph.py:29-32 | For every task the memory graph dispatches for the same user: its store manager exists iff its name is hashable. When it exists, the corrected prefix covers the manager's namespace once `{user_id}` is filled with the invoked user id. |

## Left out

- LLM and library calls (`init_chat_model`, `model.ainvoke`, `create_memory_store_manager`, `store_manager.ainvoke`) are foreign. Their behaviour is not modelled, except for the two assumptions below. The model computes what they receive: chat-model arguments, manager settings, and the configurable each manager is invoked with.
- ChatbotGraph.FormatNamespace: this is an assumption about langmem's store manager. At run time it is taken to replace each namespace segment equal to `"{user_id}"` with `configurable["user_id"]` and to keep every other segment. Other placeholders, such as `{user_id}` inside a memory type's name, are not formatted. `ChatbotGraph.SearchFindsDispatchedMemories` rests on this assumption.
- ChatbotGraph.MemoryRunConfig: this is an assumption about the LangGraph server. It is taken to hand the memory graph the `config` given to `runs.create` unchanged. `ChatbotGraph.ForwardedNoneGivesDefaults`, `ChatbotGraph.EmptyListThroughChatbotGivesDefaults`, `ChatbotGraph.EmptyEnvMemoryTypesGiveNoSchemas` and `ChatbotGraph.UserIdAgreement` rest on this assumption.
- ChatbotGraph.UserIdAgreement: this is an assumption that both graphs read one shared environment, because the memory run executes in the chatbot's own deployment (src/chatbot/graph.py:68-69). It and `ChatbotGraph.ForwardedNoneGivesDefaults`, `ChatbotGraph.EmptyListThroughChatbotGivesDefaults` and `ChatbotGraph.EmptyEnvMemoryTypesGiveNoSchemas` pass one `env` to both configurations. Separate processes with different environments are not modelled.
- The `max_steps` argument of `process_memory_type` is left out. It reads `max_extraction_steps`, which `Configuration` does not define.
- `Configuration.from_context()` does not exist in the configuration module. The graph's configuration is a parameter and is not re-derived per call.
- `merge_message_runs` belongs to LangChain. `MemoryUtils.PrepareMessages` takes it as a function parameter, and only the list handed to it is specified.
- The scheduling in the chatbot is left out: `runs.create` with `after_seconds`, `multitask_strategy="enqueue"`, the thread id and the assistant id. It is a network call, and the debounce happens in the LangGraph server.
- Concurrency: `asyncio.gather` is modelled as the ordered list of dispatched tasks.
- A `StopIteration` inside a coroutine would surface as `RuntimeError`; the model stops at `get_store_manager` raising it.
- The `lru_cache` on `get_store_manager` is modelled only by the hashing it does first, which raises `TypeError` for a list or dict name. Its memory is left out: the cache returns a manager built from an earlier configuration for the same function name, while the model always derives the settings from the given configuration.
- `os.environ` and the process environment are a parameter. `datetime.now` in the bot, and the `format` of its prompt template, are I/O or text outside the core.
- `str(m.value)` in `format_memories` uses Python's repr of arbitrary values. The model takes each memory's rendered value as an opaque string.
- Python's cross-type equality (`True == 1`, `1 == 1.0`) and floats are not modelled.
- Dict ordering is not modelled: a mapping is a Dafny `map`, and no checked behaviour depends on key order.
- Strings.Upper: it models `str.upper()` for ASCII letters only. Field names and the environment names derived from them are ASCII.
- The `.copy()` of `DEFAULT_MEMORY_CONFIGS` is a shallow list copy. Aliasing of the shared `MemoryConfig` objects is not modelled because values are immutable here.
- The `prompts` modules, `state.py` (the `add_messages` reducer) and `sqlite_store.py` (SQLite and embeddings) are not part of this model.
- The integration tests are not used as a source of properties. They need live models, refer to names the graph module does not define, and expect namespaces the code does not produce.
- `update_mode` is not validated: anything other than `"insert"` gives `enable_inserts` false (src/memory_graph/graph.py:43). `delay_seconds` is not validated (src/chatbot/configuration.py:21).

## Findings

| source | as written | input that shows it | evidently intended | confidence | as-written member | corrected member |
|---|---|---|---|---|---|---|
| src/chatbot/graph.py:29 | The bot lists memories under the prefix `(user_id,)`. The memory graph stores them under `("memories", "{user_id}", name)` (src/memory_graph/graph.py:50), with `{user_id}` filled from the same user id. | User `"default-user"` with the built-in schemas: the `User` memory lives at `("memories", "default-user", "User")`, so searching `("default-user",)` never returns it. | Search under `("memories", user_id)`, the common prefix of every namespace the memory graph writes for that user. | medium, not executed | ChatbotGraph.AsWrittenSearchMissesMemories | ChatbotGraph.SearchFindsDispatchedMemories |
