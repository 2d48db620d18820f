/**
 * The values exchanged with the libraries the core calls (LangChain, LangGraph):
 * chat messages, stored items, and the arguments of `init_chat_model`.
 * The libraries themselves are not modelled.
 */
module External {
  import opened PyValues

  /** A role-tagged chat message, as `{"role": ..., "content": ...}`. */
  datatype Message = Message(role: string, content: string)

  /**
   * A stored memory item: `str(item.value)` and `str(item.updated_at)`,
   * both taken as already-rendered text.
   */
  datatype Item = Item(value: string, updatedAt: string)

  /** The arguments `init_model` hands to `init_chat_model(model, model_provider=provider)`. */
  datatype ChatModelArgs = ChatModelArgs(model: string, provider: Option<string>)
}
