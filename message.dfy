/** The chat Message record as the chat handlers use it (the Message schema itself is not
    part of this model). */
module MessageModel {
  import opened Common

  datatype Message = Message(id: Id, conversationId: Id, senderId: Id, content: string, isRead: bool)

  /** `new Message({ conversationId, senderId, content })`: a message starts unread. */
  function NewMessage(id: Id, conversationId: Id, senderId: Id, content: string): (m: Message)
    ensures m.id == id && m.conversationId == conversationId && m.senderId == senderId
    ensures m.content == content && !m.isRead
  {
    Message(id, conversationId, senderId, content, false)
  }
}
