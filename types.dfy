/**
 * The conversation tree of the chat client: chats hold turns, turns hold
 * response attempts, and each attempt holds the assistant message that a
 * stream writes into.
 */
module ChatTypes {

  datatype Option<+T> = None | Some(value: T)

  datatype Role = User | Assistant

  /**
   * A message. `id` is the optional temporary id of a message that a stream
   * is still writing ("live"); `isError` marks a failed attempt (an absent
   * flag reads as false everywhere it is consulted).
   */
  datatype Message = Message(role: Role, content: string, id: Option<string>, isError: bool)

  /** One generation trial for one prompt. */
  datatype ResponseAttempt = ResponseAttempt(attemptId: string, promptUsed: string, assistantMessage: Message)

  /** One user-prompt slot; `responses` is in chronological attempt order. */
  datatype Turn = Turn(turnId: string, responses: seq<ResponseAttempt>)

  datatype Chat = Chat(id: string, title: string, turns: seq<Turn>)

  /** `{role: 'user', content}` as the context builder writes it. */
  function UserMessage(content: string): Message {
    Message(User, content, None, false)
  }

  /** The empty attempt that every action appends before it starts a stream. */
  function PendingAttempt(attemptId: string, prompt: string): ResponseAttempt {
    ResponseAttempt(attemptId, prompt, Message(Assistant, "", None, false))
  }
}
