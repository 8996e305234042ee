/** `RequestSystemHelpCommand` and its handler: load or create the chat,
    append the user's message, ask the agent, append its reply, save. */
module RequestSystemHelp {
  import opened Errors
  import opened Domain
  import opened Gateways
  import opened Prompts
  import opened OpenAIAgent

  /** What the environment probe reports; each part may be missing. */
  datatype SystemContext = SystemContext(
    operatingSystem: Option<string>,
    distribution: Option<string>,
    cwd: Option<string>,
    directoryList: Option<seq<string>>)

  datatype RequestSystemHelpCommand = RequestSystemHelpCommand(
    message: string,
    systemContext: SystemContext,
    chatId: Option<string>)

  /** The title of a new chat: the message itself below 200 characters,
      otherwise the WHOLE message followed by `...` (nothing is cut). */
  function Title(message: string): (t: string)
    ensures |message| <= |t| && t[..|message|] == message
    ensures t == message <==> |message| < 200
  {
    if |message| < 200 then message else message + "..."
  }

  /** The message always survives whole at the start of the title, and
      the title differs from it exactly when the message is 200
      characters or longer, in which case `...` is added. */
  lemma TitleKeepsMessage(message: string)
    ensures Title(message)[..|message|] == message
    ensures Title(message) == message <==> |message| < 200
    ensures |message| >= 200 ==> Title(message)[|message|..] == "..."
  {
    if |message| >= 200 {
      assert |Title(message)| == |message| + 3;
    }
  }

  /** `command.chat_id or str(uuid.uuid4())`: the requested id when it is
      a non-empty string, otherwise the freshly generated one. */
  function NewChatId(chatId: Option<string>, generatedId: string): (id: string)
    ensures id == generatedId || Some(id) == chatId
    ensures id == "" ==> generatedId == ""
  {
    if chatId.Some? && chatId.value != "" then chatId.value else generatedId
  }

  lemma NewChatIdCases(chatId: Option<string>, generatedId: string)
    ensures chatId == Some("") ==> NewChatId(chatId, generatedId) == generatedId
    ensures chatId.None? ==> NewChatId(chatId, generatedId) == generatedId
    ensures chatId.Some? && chatId.value != "" ==> NewChatId(chatId, generatedId) == chatId.value
  {
  }

  /** The assistant-sender seed message carrying the system prompt. */
  function SeedMessage(context: SystemContext, platform: Platform): Message {
    Message(Assistant, ConstructSystemAssistantPrompt(
      context.operatingSystem, context.distribution, context.cwd, context.directoryList, platform))
  }

  /** The history the agent sees on one request: the chat's messages
      before the request (just the seed for a new chat) and the user's message. */
  function HistoryForAgent(before: seq<Message>, message: string): seq<Message> {
    before + [Message(User, message)]
  }

  class RequestSystemHelpCommandHandler {
    const gateway: FakeChatGateway
    const agent: BaseReactOpenAIAgent

    constructor (gateway: FakeChatGateway, agent: BaseReactOpenAIAgent)
      ensures this.gateway == gateway && this.agent == agent
    {
      this.gateway := gateway;
      this.agent := agent;
    }

    /** `_create_chat`: a new chat whose only message is the seed. The
        generated id and the platform probes are parameters. */
    method CreateChat(command: RequestSystemHelpCommand, generatedId: string, platform: Platform) returns (chat: Chat)
      ensures fresh(chat)
      ensures chat.id == NewChatId(command.chatId, generatedId)
      ensures chat.title == Title(command.message)
      ensures chat.messages == [SeedMessage(command.systemContext, platform)]
    {
      var context := command.systemContext;
      var content := ConstructSystemAssistantPrompt(
        context.operatingSystem, context.distribution, context.cwd, context.directoryList, platform);
      chat := new Chat(
        NewChatId(command.chatId, generatedId),
        Title(command.message),
        [Message(Assistant, content)]);
    }

    /** `handle`. A chat is created exactly when no id was given or the
        store has none under it; otherwise the stored object itself is
        extended. The user's message is appended before the agent is
        asked, so when the agent fails the stored chat already holds it
        and nothing is saved. On success the reply is appended, the chat
        is saved under its id and the agent's answer is returned as is.
        `chat` names the chat the request worked on. */
    method Handle(command: RequestSystemHelpCommand, generatedId: string, platform: Platform, upstream: Upstream)
      returns (r: Result<AIAnswer>, ghost chat: Chat)
      requires gateway.Valid()
      modifies gateway, gateway.chats.Values
      ensures gateway.Valid()
      ensures var created := command.chatId.None? || command.chatId.value !in old(gateway.chats);
              && (created ==> fresh(chat)
                              && chat.id == NewChatId(command.chatId, generatedId)
                              && chat.title == Title(command.message))
              && (!created ==> chat == old(gateway.chats)[command.chatId.value])
      ensures var created := command.chatId.None? || command.chatId.value !in old(gateway.chats);
              var before := if created then [SeedMessage(command.systemContext, platform)]
                            else old(gateway.chats[command.chatId.value].messages);
              var history := HistoryForAgent(before, command.message);
              && r == ChatOutcome(agent.agent, history, chat.id, upstream)
              && (r.Success? ==> chat.messages == history + [Message(Assistant, r.value.content)])
              && (r.Failure? ==> chat.messages == history)
      ensures r.Success? ==> gateway.chats == old(gateway.chats)[chat.id := chat]
      ensures r.Failure? ==> gateway.chats == old(gateway.chats)
      ensures forall c :: c in old(gateway.chats.Values) && c != chat ==> c.messages == old(c.messages)
    {
      var message := Message(User, command.message);
      var loaded: Option<Chat> := None;
      if command.chatId.Some? {
        loaded := gateway.GetById(command.chatId.value);
      }
      var current: Chat;
      if loaded.Some? {
        current := loaded.value;
      } else {
        current := CreateChat(command, generatedId, platform);
      }
      chat := current;
      current.AddMessage(message);
      var answer := agent.Chat(current, upstream);
      if answer.Failure? {
        return answer, chat;
      }
      current.AddMessage(Message(Assistant, answer.value.content));
      var _ := gateway.Save(current);
      r := answer;
    }
  }
}
