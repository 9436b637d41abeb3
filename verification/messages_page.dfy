/**
 * Direct messages (src/pages/MessagesPage.tsx): the open conversation with another founder,
 * kept current by realtime inserts, and the box for sending.
 */
module MessagesPage {
  import opened Optional
  import opened JsString

  datatype DirectMessage = DirectMessage(
    id: string, senderId: string, receiverId: string, content: string, read: bool, createdAt: string)

  /** The insert filter: the message goes from one of the two people to the other. */
  predicate InConversation(m: DirectMessage, me: string, other: string)
    ensures InConversation(m, me, other) ==>
      (m.senderId == me || m.senderId == other) && (m.receiverId == me || m.receiverId == other)
  {
    (m.senderId == me && m.receiverId == other) || (m.senderId == other && m.receiverId == me)
  }

  /** It does not matter whose side of the conversation is "me". */
  lemma ConversationIsSymmetric(m: DirectMessage, a: string, b: string)
    ensures InConversation(m, a, b) <==> InConversation(m, b, a)
  {
  }

  /** The realtime insert handler: a message of this conversation goes at the end, any other is ignored. */
  function OnInsert(messages: seq<DirectMessage>, m: DirectMessage, me: string, other: string): (r: seq<DirectMessage>)
    ensures InConversation(m, me, other) ==> r == messages + [m]
    ensures !InConversation(m, me, other) ==> r == messages
  {
    if InConversation(m, me, other) then messages + [m] else messages
  }

  /** A list holding only this conversation's messages keeps doing so, whatever is inserted. */
  lemma OnInsertKeepsConversation(messages: seq<DirectMessage>, m: DirectMessage, me: string, other: string)
    requires forall i :: 0 <= i < |messages| ==> InConversation(messages[i], me, other)
    ensures var r := OnInsert(messages, m, me, other);
      forall i :: 0 <= i < |r| ==> InConversation(r[i], me, other)
  {
  }

  /** A run of inserts, one after the other. */
  function OnInserts(messages: seq<DirectMessage>, arrivals: seq<DirectMessage>, me: string, other: string): seq<DirectMessage>
    decreases |arrivals|
  {
    if arrivals == [] then messages
    else OnInserts(OnInsert(messages, arrivals[0], me, other), arrivals[1..], me, other)
  }

  /** After any run of inserts the list is the old list followed by the arrivals of this conversation, in order. */
  lemma {:induction false} OnInsertsAppendsConversation(messages: seq<DirectMessage>, arrivals: seq<DirectMessage>, me: string, other: string)
    ensures OnInserts(messages, arrivals, me, other) == messages + Conversation(arrivals, me, other)
    decreases |arrivals|
  {
    if arrivals != [] {
      OnInsertsAppendsConversation(OnInsert(messages, arrivals[0], me, other), arrivals[1..], me, other);
    }
  }

  /** The messages of this conversation among `arrivals`, in order. */
  function Conversation(arrivals: seq<DirectMessage>, me: string, other: string): seq<DirectMessage> {
    if arrivals == [] then []
    else (if InConversation(arrivals[0], me, other) then [arrivals[0]] else []) + Conversation(arrivals[1..], me, other)
  }

  /** The row `sendMessage` inserts. */
  datatype MessageInsert = MessageInsert(senderId: string, receiverId: string, content: string)

  /** What `sendMessage` does: the row it inserts, if any, and what the box holds afterwards. */
  datatype SendOutcome = SendOutcome(insert: Option<MessageInsert>, newMessage: string)

  /**
   * `sendMessage`: nothing without a user, without a conversation open, or for blank text.
   * Otherwise the trimmed text goes to the other person and the box is cleared, whatever the
   * insert answers.
   */
  function SendMessage(me: Option<string>, other: Option<string>, text: string): (r: SendOutcome)
    ensures me.None? || other.None? || Trim(text) == "" ==> r == SendOutcome(None, text)
    ensures me.Some? && other.Some? && Trim(text) != "" ==>
      r == SendOutcome(Some(MessageInsert(me.value, other.value, Trim(text))), "")
  {
    if me.None? || other.None? || Trim(text) == "" then SendOutcome(None, text)
    else SendOutcome(Some(MessageInsert(me.value, other.value, Trim(text))), "")
  }

  /** A message `sendMessage` inserts is one the open conversation's insert filter accepts. */
  lemma SentMessageIsInConversation(me: string, other: string, text: string, m: DirectMessage)
    requires SendMessage(Some(me), Some(other), text).insert.Some?
    requires var ins := SendMessage(Some(me), Some(other), text).insert.value;
      m.senderId == ins.senderId && m.receiverId == ins.receiverId
    ensures InConversation(m, me, other)
  {
  }
}
