/** Value objects and the Chat entity of the system assistant. */
module Domain {

  /** Who sent a message. Python declares `Literal['user', 'assistant']`,
      but the annotation is not checked at run time, so any other string
      can reach the code; `Other` stands for those. */
  datatype Sender = User | Assistant | Other(name: OtherName)

  /** A sender string other than the two the code recognises. */
  type OtherName = s: string | s != "user" && s != "assistant" witness ""


  datatype Message = Message(sender: Sender, content: string)

  /** Any Python value `Chat.__eq__` may be compared with. */
  datatype PyValue = ChatValue(chat: Chat) | NotAChat

  /** A conversation: an identifier, a title and a message list that is
      only ever appended to. `id` and `title` are set when the chat is
      built and nothing reassigns them, hence `const`. */
  class Chat {
    const id: string
    const title: string
    var messages: seq<Message>

    constructor (id: string, title: string, messages: seq<Message>)
      ensures this.id == id && this.title == title
      ensures this.messages == messages
    {
      this.id := id;
      this.title := title;
      this.messages := messages;
    }

    /** `Chat(id, title)`: the `messages` field falls back to a new empty list. */
    constructor WithoutMessages(id: string, title: string)
      ensures this.id == id && this.title == title
      ensures messages == []
    {
      this.id := id;
      this.title := title;
      messages := [];
    }

    /** Appends in place: the new message goes last, nothing before it moves. */
    method AddMessage(message: Message)
      modifies this
      ensures messages == old(messages) + [message]
      ensures |messages| == |old(messages)| + 1
    {
      messages := messages + [message];
    }

    /** `__eq__`: only the identifier is compared, and only against another Chat. */
    function Equals(other: PyValue): (r: bool)
      ensures other == ChatValue(this) ==> r
      ensures r ==> other.ChatValue?
    {
      if other.ChatValue? then id == other.chat.id else false
    }

    /** `__hash__`: Python's (per-process salted) string hash of `id`,
        given here as the parameter `strHash`. */
    function Hash(strHash: string -> int): int {
      strHash(id)
    }
  }

  /** Two chats are equal exactly when their identifiers are, whatever
      their titles and messages. */
  lemma EqualsIffSameId(a: Chat, b: Chat)
    ensures a.Equals(ChatValue(b)) <==> a.id == b.id
  {
  }

  /** A chat never equals a value that is not a chat. */
  lemma NeverEqualsNonChat(a: Chat)
    ensures !a.Equals(NotAChat)
  {
  }

  /** `__eq__` is an equivalence relation on chats. */
  lemma EqualsIsEquivalence(a: Chat, b: Chat, c: Chat)
    ensures a.Equals(ChatValue(a))
    ensures a.Equals(ChatValue(b)) ==> b.Equals(ChatValue(a))
    ensures a.Equals(ChatValue(b)) && b.Equals(ChatValue(c)) ==> a.Equals(ChatValue(c))
  {
  }

  /** `__hash__` is consistent with `__eq__`: equal chats hash alike, for
      every string hash the interpreter may pick. */
  lemma EqualChatsHashAlike(a: Chat, b: Chat, strHash: string -> int)
    requires a.Equals(ChatValue(b))
    ensures a.Hash(strHash) == b.Hash(strHash)
  {
  }
}
