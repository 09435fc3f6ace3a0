/**
 * The main service's three document shapes (Message, Chat, ChatMember), each
 * with the validity predicate its Mongoose schema enforces and the defaults
 * it fills in. Identifiers are opaque strings and times are integers.
 */
module Schemas {
  import opened Wrappers
  import Text

  type Id = string
  type Time = int

  /** Mongoose's `required` on a String path: present and not the empty string. */
  predicate RequiredText(f: Option<string>) {
    f.Some? && f.value != ""
  }

  // ---------------------------------------------------------------- Message

  const MessageTypes: seq<string> := ["text", "image", "file", "audio", "video"]

  /**
   * A message document as built from its input: every path may be missing,
   * because `new Message(data)` copies whatever the caller supplied.
   */
  datatype MessageDoc = MessageDoc(
    id: Option<string>,
    chatId: Option<string>,
    senderId: Option<string>,
    content: Option<string>,
    msgType: Option<string>,
    timestamp: Option<Time>,
    isRead: Option<bool>,
    replyTo: Option<string>,
    editedAt: Option<Time>)

  /** The Message schema: seven required paths, `type` from a fixed list, `replyTo` and `editedAt` optional. */
  predicate ValidMessage(m: MessageDoc) {
    && RequiredText(m.id)
    && RequiredText(m.chatId)
    && RequiredText(m.senderId)
    && RequiredText(m.content)
    && m.msgType.Some? && m.msgType.value in MessageTypes
    && m.timestamp.Some?
    && m.isRead.Some?
  }

  /**
   * A document carrying only chatId, senderId, content and type, as the socket
   * handler builds one, fails the schema whatever those four hold.
   */
  lemma {:induction false} FourFieldMessageInvalid(chatId: string, senderId: string, content: string, msgType: string)
    ensures !ValidMessage(MessageDoc(None, Some(chatId), Some(senderId), Some(content), Some(msgType), None, None, None, None))
  {
  }

  // ---------------------------------------------------------------- Chat

  const ChatTypes: seq<string> := ["private", "group"]

  /**
   * A stored chat: exactly the paths the Chat schema declares. The service also
   * hands `admins`, `avatar`, `description` and `unreadCounts` to Mongoose, whose
   * strict mode drops paths the schema does not declare, so none is ever stored.
   */
  datatype Chat = Chat(
    id: Id,
    name: Option<string>,
    kind: Option<string>,
    participants: seq<Id>,
    lastMessage: Option<Id>,
    unreadCount: int,
    createdAt: Time,
    updatedAt: Time)

  /** The Chat schema: a name that is not blank once trimmed, for every chat type, and a type from the list. */
  predicate ValidChat(c: Chat) {
    && RequiredText(c.name)
    && c.name.value == Text.Trim(c.name.value)
    && c.kind.Some? && c.kind.value in ChatTypes
  }

  /** The `trim: true` setter on `name`. */
  function TrimName(name: Option<string>): (r: Option<string>)
    ensures r.None? <==> name.None?
    ensures r.Some? ==> r.value == Text.Trim(name.value)
  {
    match name
    case None => None
    case Some(n) => Some(Text.Trim(n))
  }

  /** A new chat document: the name trimmed, `lastMessage` null, `unreadCount` 0 and both timestamps now. */
  function NewChat(id: Id, name: Option<string>, kind: Option<string>, participants: seq<Id>, now: Time): (c: Chat)
    ensures c.id == id && c.kind == kind && c.participants == participants
    ensures c.lastMessage.None? && c.unreadCount == 0
    ensures c.createdAt == now && c.updatedAt == now
    ensures c.name == TrimName(name)
  {
    Chat(id, TrimName(name), kind, participants, None, 0, now, now)
  }

  /** A private chat created without a name, as the service allows, fails the schema's `required` name. */
  lemma UnnamedChatInvalid(id: Id, participants: seq<Id>, now: Time)
    ensures !ValidChat(NewChat(id, None, Some("private"), participants, now))
  {
  }

  /** A name made only of whitespace is also rejected, since the setter trims it to nothing first. */
  lemma BlankNameInvalid(c: Chat)
    requires c.name.Some? && Text.AllSpace(c.name.value)
    ensures !ValidChat(c)
  {
  }

  // ---------------------------------------------------------------- ChatMember

  const MemberRoles: seq<string> := ["admin", "member"]

  datatype ChatMember = ChatMember(userId: Id, chatId: Id, role: string, joinedAt: Time, lastReadMessageId: Option<Id>)

  /** The ChatMember schema: `role` is 'admin' or 'member' (the ids are always present here). */
  predicate ValidChatMember(m: ChatMember) {
    m.role in MemberRoles
  }

  /** A member document with the schema's defaults: role 'member', joined now, nothing read yet. */
  function NewMember(userId: Id, chatId: Id, role: Option<string>, joinedAt: Option<Time>, now: Time): (m: ChatMember)
    ensures m.userId == userId && m.chatId == chatId
    ensures m.role == role.GetOr("member") && m.joinedAt == joinedAt.GetOr(now)
    ensures m.lastReadMessageId.None?
    ensures role.None? ==> ValidChatMember(m)
  {
    ChatMember(userId, chatId, role.GetOr("member"), joinedAt.GetOr(now), None)
  }

  /** 'creator', the role the chat service gives a chat's first participant, is outside the schema's enum. */
  lemma CreatorRoleInvalid(m: ChatMember)
    requires m.role == "creator"
    ensures !ValidChatMember(m)
  {
  }
}
