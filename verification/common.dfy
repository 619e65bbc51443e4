/**
 * Shared vocabulary of the assistant: optional values, chat messages and
 * user-defined bots, as they are stored in the history file and kept in the
 * per-browser session.
 */
module Common {

  /** A value that may be absent (Python's `None`, or a JSON key that is missing). */
  datatype Option<+T> = None | Some(value: T) {

    /** The carried value, or `default` when there is none. */
    function GetOr(default: T): T {
      match this
      case Some(v) => v
      case None => default
    }
  }

  /** The `role` field of a chat message. */
  datatype Role = User | Assistant | System

  /** One entry of a conversation: `{"role": ..., "content": ...}`. */
  datatype Message = Message(role: Role, content: string)

  /** A custom bot: a name and the system prompt that replaces the default persona. */
  datatype Bot = Bot(name: string, prompt: string)
}
