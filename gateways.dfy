/** The in-memory chat store `FakeChatGateway`. */
module Gateways {
  import opened Errors
  import opened Domain

  /** A dictionary from chat id to the chat object itself: `GetById`
      hands out the stored reference, so a later change to that object is
      a change to what the store holds. */
  class FakeChatGateway {
    var chats: map<string, Chat>

    /** Every chat is stored under its own id; `Save` is the only writer. */
    ghost predicate Valid()
      reads this
    {
      forall id :: id in chats ==> chats[id].id == id
    }

    constructor ()
      ensures chats == map[]
      ensures Valid()
    {
      chats := map[];
    }

    /** `chats.get(id, None)`: the stored object, or nothing. Reads only. */
    method GetById(id: string) returns (chat: Option<Chat>)
      ensures id in chats ==> chat == Some(chats[id])
      ensures id !in chats ==> chat == None
    {
      chat := if id in chats then Some(chats[id]) else None;
    }

    /** Stores the object under its id, replacing any earlier entry, and returns that id. */
    method Save(chat: Chat) returns (id: string)
      requires Valid()
      modifies this
      ensures chats == old(chats)[chat.id := chat]
      ensures id == chat.id
      ensures Valid()
    {
      chats := chats[chat.id := chat];
      id := chat.id;
    }

    /** `self.chats[chat_id].append_message(message)`: an unknown id raises
        KeyError, and a known one AttributeError, because a Chat has
        `add_message` and no `append_message`. Nothing is changed either way. */
    method AppendMessage(chatId: string, message: Message) returns (outcome: Result<()>)
      ensures outcome.Failure?
      ensures chatId !in chats ==> outcome.error == KeyError
      ensures chatId in chats ==> outcome.error == AttributeError
    {
      if chatId !in chats {
        return Failure(KeyError);
      }
      outcome := Failure(AttributeError);
    }

    /** What `append_message` evidently means: `add_message` on the stored
        chat. Unknown ids still raise KeyError. */
    method AppendMessageIntended(chatId: string, message: Message) returns (outcome: Result<()>)
      modifies if chatId in chats then {chats[chatId]} else {}
      ensures outcome.Success? <==> chatId in old(chats)
      ensures outcome.Failure? ==> outcome.error == KeyError
      ensures chatId in chats ==> chats[chatId].messages == old(chats[chatId].messages) + [message]
    {
      if chatId !in chats {
        return Failure(KeyError);
      }
      chats[chatId].AddMessage(message);
      outcome := Success(());
    }
  }
}
