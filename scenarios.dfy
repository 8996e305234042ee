/** Clients that drive the modelled components through concrete requests,
    relying only on their contracts. */
module Scenarios {
  import opened Errors
  import opened Domain
  import opened Gateways
  import opened LangchainUtils
  import opened OpenAIAgent
  import opened Prompts
  import opened RequestSystemHelp
  import opened Mediation

  /** A backend that always ends its run with `reply` after a tool round trip. */
  function StubUpstream(reply: string): Upstream {
    var toolCall: Snapshot := [LcMessage("human", "q"), LcMessage("ai", "")];
    var toolResult: Snapshot := [LcMessage("human", "q"), LcMessage("ai", ""), LcMessage("tool", "result")];
    var answer: Snapshot := [LcMessage("human", "q"), LcMessage("ai", ""), LcMessage("tool", "result"), LcMessage("ai", reply)];
    (request: StreamRequest) => Success([toolCall, toolResult, answer])
  }

  /** Whatever it is asked, the stub's stream reduces to `reply`: the
      tool-call and tool-result steps before the answer do not count. */
  lemma StubAnswersWithReply(reply: string, binding: AgentBinding, history: seq<Message>, threadId: string)
    requires forall i :: 0 <= i < |history| ==> !history[i].sender.Other?
    ensures ChatOutcome(binding, history, threadId, StubUpstream(reply)) == Success(AIAnswer(true, threadId, reply))
  {
    var converted := ConvertHistory(history).value;
    var stream := StubUpstream(reply)(StreamRequest(binding, converted, threadId)).value;
    assert |stream| == 3;
    assert IsAnswerSnapshot(stream[2]);
    assert LastMessage(stream[2]).content == reply;
  }

  /** A first request without a chat id creates the chat under the
      generated id with three messages (seed, question, reply) and returns
      the backend's reply. */
  method FirstRequestCreatesChat() returns (first: Result<AIAnswer>, count: nat)
    ensures first == Success(AIAnswer(true, "chat-1", "You are on Linux."))
    ensures count == 3
  {
    var gateway := new FakeChatGateway();
    var agent := new BaseReactOpenAIAgent([], 1.0);
    var handler := new RequestSystemHelpCommandHandler(gateway, agent);
    var context := SystemContext(Some("Linux"), Some("Ubuntu"), Some("/home/u"), Some(["a", "b"]));
    var platform := Platform("Linux", "Ubuntu", "/opt/assistant", []);
    var seed := SeedMessage(context, platform);
    StubAnswersWithReply("You are on Linux.", agent.agent, [seed, Message(User, "what OS am I on?")], "chat-1");
    ghost var chat: Chat;
    first, chat := handler.Handle(RequestSystemHelpCommand("what OS am I on?", context, None), "chat-1", platform,
                                  StubUpstream("You are on Linux."));
    assert chat.messages == [seed, Message(User, "what OS am I on?"), Message(Assistant, "You are on Linux.")];
    var stored := gateway.GetById("chat-1");
    count := |stored.value.messages|;
  }

  /** A second request on that id reuses the stored chat and takes it
      from three messages to five; the seed is not added again. */
  method SecondRequestExtendsChat() returns (second: Result<AIAnswer>, count: nat)
    ensures second == Success(AIAnswer(true, "chat-1", "Fine."))
    ensures count == 5
  {
    var gateway := new FakeChatGateway();
    var agent := new BaseReactOpenAIAgent([], 1.0);
    var handler := new RequestSystemHelpCommandHandler(gateway, agent);
    var firstTurn := [Message(Assistant, "seed"), Message(User, "what OS am I on?"), Message(Assistant, "You are on Linux.")];
    var existing := new Chat("chat-1", "what OS am I on?", firstTurn);
    var _ := gateway.Save(existing);
    var history := firstTurn + [Message(User, "how are you")];
    assert forall i :: 0 <= i < |history| ==> history[i].sender in {User, Assistant};
    StubAnswersWithReply("Fine.", agent.agent, history, "chat-1");
    ghost var chat: Chat;
    second, chat := handler.Handle(RequestSystemHelpCommand("how are you", SystemContext(None, None, None, None), Some("chat-1")),
                                   "unused", Platform("Linux", "Ubuntu", "/", []), StubUpstream("Fine."));
    assert HistoryForAgent(firstTurn, "how are you") == history;
    var stored := gateway.GetById("chat-1");
    count := |stored.value.messages|;
  }

  /** A request on any chat the store holds with n messages leaves that
      stored object with its n messages untouched, then the user's message,
      then, when the agent answers, the reply carrying exactly the answer's
      content: n + 2 in all, or n + 1 when the agent fails. On success the
      same object is still filed under its id. */
  method StoredChatGrowsByTwo(handler: RequestSystemHelpCommandHandler, command: RequestSystemHelpCommand,
                              generatedId: string, platform: Platform, upstream: Upstream)
    returns (r: Result<AIAnswer>)
    requires handler.gateway.Valid()
    requires command.chatId.Some? && command.chatId.value in handler.gateway.chats
    modifies handler.gateway, handler.gateway.chats.Values
    ensures var stored := old(handler.gateway.chats[command.chatId.value]);
            var n := |old(stored.messages)|;
            && |stored.messages| == (if r.Success? then n + 2 else n + 1)
            && stored.messages[..n] == old(stored.messages)
            && stored.messages[n] == Message(User, command.message)
            && (r.Success? ==> stored.messages[n + 1] == Message(Assistant, r.value.content))
            && (r.Success? ==> command.chatId.value in handler.gateway.chats
                               && handler.gateway.chats[command.chatId.value] == stored)
  {
    ghost var chat: Chat;
    r, chat := handler.Handle(command, generatedId, platform, upstream);
  }

  /** The store hands out the object it holds: when the backend fails on
      a loaded chat, the question is already in the stored chat although
      nothing was saved. */
  method FailedBackendKeepsQuestion() returns (r: Result<AIAnswer>, stored: seq<Message>)
    ensures r == Failure(UpstreamError("offline"))
    ensures |stored| == 2 && stored[1] == Message(User, "again")
  {
    var gateway := new FakeChatGateway();
    var agent := new BaseReactOpenAIAgent([Tool("list_dir")], 0.5);
    var handler := new RequestSystemHelpCommandHandler(gateway, agent);
    var existing := new Chat("c", "t", [Message(Assistant, "seed")]);
    var _ := gateway.Save(existing);
    var context := SystemContext(None, None, None, None);
    var offline: Upstream := (request: StreamRequest) => Failure(UpstreamError("offline"));
    ghost var chat: Chat;
    r, chat := handler.Handle(RequestSystemHelpCommand("again", context, Some("c")), "g", Platform("Linux", "Arch", "/", []), offline);
    stored := existing.messages;
  }

  /** `save` then `get_by_id` gives back the very object saved;
      `append_message` fails on known and unknown ids alike. */
  method StoreRoundTrip() returns (saved: Chat, got: Option<Chat>, known: Result<()>, unknown: Result<()>)
    ensures got == Some(saved)
    ensures known == Failure(AttributeError)
    ensures unknown == Failure(KeyError)
  {
    var gateway := new FakeChatGateway();
    saved := new Chat.WithoutMessages("c", "title");
    var id := gateway.Save(saved);
    got := gateway.GetById(id);
    known := gateway.AppendMessage("c", Message(User, "hi"));
    unknown := gateway.AppendMessage("d", Message(User, "hi"));
  }

  /** Only the first registered handler runs; what a handler raises comes
      out of the dispatch; a subclass of a registered command is a
      different key and fails; a registered query fails because the
      registry holds a list. */
  method DispatchRules() returns (first: Result<string>, raised: Result<string>, subclass: Result<string>,
                                  query: Result<string>)
    ensures first == Success("h1 handled hi")
    ensures raised == Failure(ValueError)
    ensures subclass == Failure(IndexError)
    ensures query == Failure(AttributeError)
  {
    var mediator := new Mediator<string>();
    var command := ClassInfo("RequestSystemHelpCommand", false, true);
    var subCommand := ClassInfo("DetailedRequestSystemHelpCommand", false, true);
    var aQuery := ClassInfo("ChatQuery", true, false);
    var invoke := (h: string, request: Request<string>) => Success(h + " handled " + request.payload);
    var rejecting := (h: string, request: Request<string>) => if h == "h1" then Failure(ValueError) else Success(h);
    mediator.RegisterHandlers(command, ["h1", "h2"]);
    mediator.RegisterHandlers(aQuery, ["q1"]);
    first := mediator.HandleCommand(Request(command, "hi"), invoke);
    assert "h1" + " handled " + "hi" == "h1 handled hi";
    raised := mediator.HandleCommand(Request(command, "hi"), rejecting);
    subclass := mediator.HandleCommand(Request(subCommand, "hi"), invoke);
    assert mediator.commandHandlers[subCommand] == [];
    query := mediator.HandleQuery(Request(aQuery, "hi"), invoke);
  }
}
