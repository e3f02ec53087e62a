/** Values that are absent or present: JavaScript's `undefined`/`null` versus a value. */
module Common {
  datatype Option<+T> = None | Some(value: T)

  /** JavaScript truthiness of an optional string: absent and "" are both falsy. */
  predicate Truthy(s: Option<string>) {
    s.Some? && s.value != ""
  }
}

/** The records that travel between the server and the clients (JSON bodies and socket payloads). */
module ChatTypes {
  import opened Common

  /** Message ids are the server clock in milliseconds (`Date.now().toString()`), so two posts in the same millisecond collide. */
  type MessageId = nat

  /** The snapshot of a reply target that a post carries: the target's id and text, not a live reference. */
  datatype ReplyRef = ReplyRef(id: MessageId, text: string)

  /** A chat message. `createdAt` is the server's timestamp in milliseconds.
      `isRead` is absent on the server and set only by clients. */
  datatype Message = Message(
    id: MessageId,
    chatId: string,
    senderId: string,
    text: string,
    replyTo: Option<ReplyRef>,
    createdAt: int,
    isRead: Option<bool>)

  datatype ChatKind = Group | Private

  /** A directory entry of the server's `chats` map. */
  datatype Chat = Chat(id: string, name: string, kind: ChatKind)
}
