/** The records the chat client keeps in its state (types.ts). */
module Types {

  /** An optional value: `undefined` / `null` in the source become None. */
  datatype Option<+T> = None | Some(value: T)

  /** Who wrote a message: the person at the keyboard or the assistant. */
  datatype Role = User | Model

  /** The creation instant of a message. The source takes it from the clock;
      here the caller supplies it, and nothing in the model inspects it. */
  type Timestamp = nat

  /** One entry of the conversation. `isStreaming` is optional in the source:
      it is absent on user messages and on the welcome message, true on a
      placeholder whose stream is still open and false once it is finalized. */
  datatype Message = Message(
    id: string,
    role: Role,
    content: string,
    timestamp: Timestamp,
    isStreaming: Option<bool>)

  /** True of a message whose response is still being streamed in. */
  predicate Streaming(m: Message) {
    m.isStreaming == Some(true)
  }
}
