/**
 * The memory graph's helpers: the message envelope `prepare_messages`
 * builds before merging message runs, and the `provider/model` split of
 * `init_model`.
 */
module MemoryUtils {
  import opened PyValues
  import opened Strings
  import opened External

  // Long literals are concatenations of short pieces, which the verifier
  // handles far more cheaply than one long literal; the text is the same.

  /** What follows the caller's prompt in the leading system message. */
  const SYSTEM_SUFFIX: string :=
    "\n\n<memory-system>Reflect " + "on following " + "interaction. Use " + "the provided tools " + "to "
    + " retain any " + "necessary memories " + "about the " + "user.</memory-system>\n"

  /** The content of the closing user message. */
  const CLOSING_CONTENT: string :=
    "## End of " + "conversation\n\n"
    + "<memory-system>Reflect " + "on the interaction " + "above."
    + " What memories " + "ought to be " + "retained or " + "updated?</memory-system>"

  /**
   * `[sys] + list(messages) + [m]`: the list `prepare_messages` hands to
   * `merge_message_runs`.
   */
  function PreMergeList(messages: seq<Message>, systemPrompt: string): (r: seq<Message>)
    ensures |r| == |messages| + 2
    ensures r[0].role == "system" && systemPrompt <= r[0].content
    ensures r[0].content == systemPrompt + SYSTEM_SUFFIX
    ensures r[1..|r| - 1] == messages
    ensures r[|r| - 1].role == "user" && "## End of conversation" <= r[|r| - 1].content
  {
    [Message("system", systemPrompt + SYSTEM_SUFFIX)] + messages + [Message("user", CLOSING_CONTENT)]
  }

  /** The envelope loses nothing: the prompt and the messages can be read back from it. */
  lemma PreMergeListInjective(m1: seq<Message>, p1: string, m2: seq<Message>, p2: string)
    requires PreMergeList(m1, p1) == PreMergeList(m2, p2)
    ensures m1 == m2 && p1 == p2
  {
    var r := PreMergeList(m1, p1);
    assert |p1| == |p2|;
    assert p1 == r[0].content[..|p1|] == p2;
  }

  /**
   * `prepare_messages`: the envelope passed through `merge_message_runs`,
   * which belongs to LangChain and is a parameter here.
   */
  function PrepareMessages(messages: seq<Message>, systemPrompt: string, mergeMessageRuns: seq<Message> -> seq<Message>): (r: seq<Message>)
    ensures r == mergeMessageRuns(PreMergeList(messages, systemPrompt))
  {
    mergeMessageRuns(PreMergeList(messages, systemPrompt))
  }

  /**
   * `init_model`'s split: with a `/`, the provider is the text before the
   * first one and the model everything after it; without, no provider and the
   * whole name is the model.
   */
  function InitModel(fullySpecifiedName: string): (r: ChatModelArgs)
    ensures '/' in fullySpecifiedName <==> r.provider.Some?
    ensures r.provider.Some? ==> '/' !in r.provider.value && fullySpecifiedName == r.provider.value + "/" + r.model
    ensures r.provider.None? ==> r.model == fullySpecifiedName
  {
    match SplitFirst(fullySpecifiedName, '/')
    case Some((provider, model)) => ChatModelArgs(model, Some(provider))
    case None => ChatModelArgs(fullySpecifiedName, None)
  }

  /**
   * The split is the inverse of joining a slash-free provider and any model
   * name (which may itself contain `/`) with `/`.
   */
  lemma {:induction false} InitModelOfJoined(provider: string, model: string)
    requires '/' !in provider
    ensures InitModel(provider + "/" + model) == ChatModelArgs(model, Some(provider))
  {
    SplitFirstOfJoined(provider, model, '/');
  }

  /** The configured default model splits into provider `anthropic` and its model name. */
  lemma DefaultModelSplit()
    ensures InitModel("anthropic/claude-3-5-sonnet-20240620")
         == ChatModelArgs("claude-3-5-sonnet-20240620", Some("anthropic"))
  {
    var provider, model := "anthropic", "claude-3-5-sonnet-20240620";
    assert '/' !in provider;
    assert provider + "/" + model == "anthropic/claude-3-5-sonnet-20240620";
    InitModelOfJoined(provider, model);
  }
}
