/**
 * The chatbot's helpers: rendering stored memories into the prompt block,
 * and the `provider/model` split of `init_model`.
 */
module ChatbotUtils {
  import opened PyValues
  import opened Strings
  import opened External
  import MemoryUtils

  // Long literals are concatenations of short pieces, which the verifier
  // handles far more cheaply than one long literal; the text is the same.

  /** The text before the rendered memories. */
  const HEADER: string :=
    "\n\n## " + "Memories\n\nYou " + "have noted the " + "following memorable " + "events from " + "previous " + "interactions with " + "the user.\n"
  const OPEN_TAG: string := "<memories>\n"
  const CLOSE_TAG: string := "\n</memories>\n"
  const UPDATED_LABEL: string := "\tLast updated: "

  /** The line of one memory: its rendered value, a tab, and when it was last updated. */
  function Line(m: Item): (r: string)
    ensures |r| == |m.value| + |UPDATED_LABEL| + |m.updatedAt|
    ensures r[..|m.value|] == m.value
    ensures r[|m.value|..|m.value| + |UPDATED_LABEL|] == UPDATED_LABEL
    ensures r[|m.value| + |UPDATED_LABEL|..] == m.updatedAt
  {
    m.value + UPDATED_LABEL + m.updatedAt
  }

  function Lines(memories: seq<Item>): (ls: seq<string>)
    ensures |ls| == |memories|
    ensures forall k :: 0 <= k < |ls| ==> ls[k] == Line(memories[k])
  {
    seq(|memories|, k requires 0 <= k < |memories| => Line(memories[k]))
  }

  /** `format_memories`: nothing for no memories, else the header and the tagged block of lines. */
  function FormatMemories(memories: Option<seq<Item>>): (r: string)
    ensures r == "" <==> memories.None? || memories.value == []
    ensures r != "" ==> HEADER + OPEN_TAG <= r
  {
    if memories.None? || memories.value == [] then ""
    else HEADER + OPEN_TAG + Join(Lines(memories.value), "\n") + CLOSE_TAG
  }

  /**
   * A non-empty list renders as the header, the opening tag, a block and the
   * closing tag; when no rendered value or timestamp contains a newline, the
   * block splits on newlines into exactly one line per memory, in input order.
   */
  lemma {:induction false} FormatMemoriesLines(memories: seq<Item>)
    requires memories != []
    requires forall k :: 0 <= k < |memories| ==> '\n' !in memories[k].value && '\n' !in memories[k].updatedAt
    ensures var r := FormatMemories(Some(memories));
      && |HEADER + OPEN_TAG| + |CLOSE_TAG| <= |r|
      && r == HEADER + OPEN_TAG + r[|HEADER + OPEN_TAG|..|r| - |CLOSE_TAG|] + CLOSE_TAG
      && SplitOn(r[|HEADER + OPEN_TAG|..|r| - |CLOSE_TAG|], '\n') == Lines(memories)
  {
    var ls := Lines(memories);
    forall k | 0 <= k < |ls| ensures '\n' !in ls[k] {
      assert ls[k] == memories[k].value + UPDATED_LABEL + memories[k].updatedAt;
      assert '\n' !in UPDATED_LABEL;
    }
    var block := Join(ls, "\n");
    var r := FormatMemories(Some(memories));
    assert r == HEADER + OPEN_TAG + block + CLOSE_TAG;
    assert r[|HEADER + OPEN_TAG|..|r| - |CLOSE_TAG|] == block;
    SplitOnJoin(ls, '\n');
  }

  /** A line gives back its memory's value when the value holds no tab. */
  lemma LineSplitsAtTab(m: Item)
    requires '\t' !in m.value
    ensures SplitFirst(Line(m), '\t') == Some((m.value, "Last updated: " + m.updatedAt))
  {
    assert Line(m) == m.value + ['\t'] + ("Last updated: " + m.updatedAt);
    SplitFirstOfJoined(m.value, "Last updated: " + m.updatedAt, '\t');
  }

  /** `init_model`: the same split as the memory graph's. */
  function InitModel(fullySpecifiedName: string): (r: ChatModelArgs)
    ensures r == MemoryUtils.InitModel(fullySpecifiedName)
    ensures r.provider.Some? ==> '/' !in r.provider.value && fullySpecifiedName == r.provider.value + "/" + r.model
    ensures r.provider.None? ==> '/' !in fullySpecifiedName && r.model == fullySpecifiedName
  {
    match SplitFirst(fullySpecifiedName, '/')
    case Some((provider, model)) => ChatModelArgs(model, Some(provider))
    case None => ChatModelArgs(fullySpecifiedName, None)
  }
}
