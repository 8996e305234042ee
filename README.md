# System assistant conversation path, modelled in Dafny

This project models the part of the `system_assistant` package that handles one
user request, and proves properties of that model:

- the `Chat` entity (id, title, append-only message list, id-based equality and hash);
- the in-memory store `FakeChatGateway`, which keeps chat objects by id and hands out
  the stored object itself;
- `RequestSystemHelpCommandHandler`: load or create the chat, seed a new chat with the
  system prompt, append the user's message, ask the agent, append the reply, save;
- `BaseReactOpenAIAgent`: conversion of the history to library messages, the fold over
  the streamed snapshots that picks the answer, and `update_settings`;
- the `Mediator` registries and dispatch;
- `construct_system_assistant_prompt` (fallbacks and template filling);
- the two `URL` string types, the working one and the older one that rejects everything.

Layout: `errors.dfy` (Option, Result, the exception classes), `strings.dfy` (`StartsWith`),
`domain.dfy`, `gateways.dfy`, `langchain_utils.dfy`, `openai_agent.dfy`, `prompts.dfy`,
`request_system_help.dfy`, `mediator.dfy`, `url_types.dfy`, and `scenarios.dfy`, which
drives the components through concrete situations using only their contracts.

Objects the source changes in place are classes: `Chat.messages` and
`FakeChatGateway.chats` are fields that methods reassign, and a chat returned by
`GetById` is the same object as the one in the store. So a change made through the
handler is visible in the store (see `Handle` and `FailedBackendKeepsQuestion`).

Inputs that the model takes as parameters:

- the language model's stream is the function `upstream`, from the request (agent
  binding, converted history, thread id) to the snapshots it yields or the error it
  raises;
- the uuid is `generatedId`;
- the platform probes are `Platform`;
- Python's string hash is `strHash`;
- a handler's `handle` is `invoke`, which returns the handler's result or the exception it raises.

Behaviour worth knowing, as the code has it:

- `handle_command` runs only the first registered handler and returns its result
  unwrapped. Nothing fans out.
- A request on an existing chat adds two messages: the user's and the reply.
- When the agent fails, the user's message has already been appended to the chat.
  If the chat came from the store, that message stays in the stored object, even
  though nothing is saved.
- A title of 200 characters or more keeps the whole message and gets `...` appended.
  Nothing is truncated.
- The reducer accepts the message types `ai`, `system` and `assistant`. Since
  `assistant` messages are converted to `system` messages, `system` is what the
  seed turns into.

## Model

| member | source | states |
|---|---|---|
| `Domain.Chat.constructor` | src/system_assistant/domain/entities/chat.py:7-11 | a chat holds exactly the given id, title and messages |
| `Domain.Chat.WithoutMessages` | src/system_assistant/domain/entities/chat.py:11 | a chat built without messages starts with an empty list |
| `Domain.Chat.AddMessage` | src/system_assistant/domain/entities/chat.py:13-14 | the new message goes last, earlier messages are unchanged, the count grows by exactly one; id and title are constant |
| `Domain.Chat.Equals` | src/system_assistant/domain/entities/chat.py:16-17 | a chat always equals itself and equals only chats; characterised fully by `Domain.EqualsIffSameId` and `Domain.NeverEqualsNonChat` |
| `Domain.Chat.Hash` | src/system_assistant/domain/entities/chat.py:19-20 | the hash of the id under the interpreter's string hash; its consistency with equality is `Domain.EqualChatsHashAlike` |
| `Domain.EqualsIffSameId` | src/system_assistant/domain/entities/chat.py:16-17 | two chats are equal iff their ids are, whatever their titles and messages |
| `Domain.NeverEqualsNonChat` | src/system_assistant/domain/entities/chat.py:17 | a chat is never equal to a value that is not a chat |
| `Domain.EqualsIsEquivalence` | src/system_assistant/domain/entities/chat.py:16-17 | chat equality is reflexive, symmetric and transitive |
| `Domain.EqualChatsHashAlike` | src/system_assistant/domain/entities/chat.py:16-20 | equal chats have equal hashes for every string hash, because the hash depends on the id only |
| `Gateways.FakeChatGateway.constructor` | src/system_assistant/application/gateways/chat.py:20-21 | a new store is empty, so every lookup misses |
| `Gateways.FakeChatGateway.GetById` | src/system_assistant/application/gateways/chat.py:23-25 | returns the stored object itself for a known id, nothing for an unknown one, and changes nothing |
| `Gateways.FakeChatGateway.Save` | src/system_assistant/application/gateways/chat.py:27-30 | stores the chat under its own id, replacing any earlier entry, keeps every other entry, returns the id, and keeps every entry filed under its own id |
| `Gateways.FakeChatGateway.AppendMessage` | src/system_assistant/application/gateways/chat.py:32-33 | always raises: KeyError for an unknown id, AttributeError for a known one; changes nothing |
| `Gateways.FakeChatGateway.AppendMessageIntended` | src/system_assistant/application/gateways/chat.py:32-33 | corrected version: appends to the stored chat, or raises KeyError for an unknown id |
| `LangchainUtils.ToLangchainMessage` | src/system_assistant/infrastructure/services/ai/utils.py:6-11 | user becomes a human message and assistant becomes a system message (not an AI message); content is never altered; any other sender raises TypeError |
| `LangchainUtils.ToLangchainMessageInjective` | src/system_assistant/infrastructure/services/ai/utils.py:6-10 | the two valid senders map to distinct kinds, so no two valid messages convert alike |
| `LangchainUtils.ConvertHistory` | src/system_assistant/infrastructure/services/ai/openai_agent.py:38 | the history converts one to one and in order, or raises TypeError exactly when some sender is invalid |
| `OpenAIAgent.Reduced` | src/system_assistant/infrastructure/services/ai/openai_agent.py:39-47 | the answer content is `''` or the last message's content of some snapshot ending in an answer; which one is `OpenAIAgent.ReducedIsLastAnswer` |
| `OpenAIAgent.ChatOutcome` | src/system_assistant/infrastructure/services/ai/openai_agent.py:37-48 | a successful outcome is always marked successful and carries the thread id; a failure is TypeError or exactly the provider's own error; all cases are `OpenAIAgent.ChatOutcomeCases` |
| `OpenAIAgent.ReducedIsLastAnswer` | src/system_assistant/infrastructure/services/ai/openai_agent.py:39-47 | the answer is the last message's content of the last snapshot ending in `ai`, `system` or `assistant`, or `''` when there is none |
| `OpenAIAgent.NonAnswerSnapshotsKeepContent` | src/system_assistant/infrastructure/services/ai/openai_agent.py:45-47 | snapshots ending in any other type (tool, human) leave the content unchanged, however many follow |
| `OpenAIAgent.FinalAnswerWins` | src/system_assistant/infrastructure/services/ai/openai_agent.py:40-47 | a stream whose last answer snapshot carries `c` reduces to `c`, whatever tool steps surround it |
| `OpenAIAgent.ChatOutcomeCases` | src/system_assistant/infrastructure/services/ai/openai_agent.py:37-48 | an invalid sender raises TypeError whatever the stream; otherwise the provider gets the content-preserving conversion under thread id `chat.id`, its failure propagates, and a completed stream always gives `is_successful = True` and `chat_id = chat.id` |
| `OpenAIAgent.BaseReactOpenAIAgent.constructor` | src/system_assistant/infrastructure/services/ai/openai_agent.py:19-31 | tools and temperature are set first, then `_agent` is built once from them |
| `OpenAIAgent.BaseReactOpenAIAgent.Chat` | src/system_assistant/infrastructure/services/ai/openai_agent.py:37-48 | the loop's answer equals the outcome specified by `ChatOutcome` and the fold `Reduced`; the chat is only read |
| `OpenAIAgent.BaseReactOpenAIAgent.UpdateSettings` | src/system_assistant/infrastructure/services/ai/openai_agent.py:50-55 | tools and temperature are replaced only when given; `_agent` is rebuilt from the new settings on every call, even with no arguments |
| `Prompts.FormatMap` | src/system_assistant/application/services/ai/prompts.py:37-42 | formatting succeeds exactly when every placeholder has a value, and raises KeyError otherwise |
| `Prompts.FormatMapConcat` | src/system_assistant/application/services/ai/prompts.py:37-42 | formatting distributes over concatenation of templates |
| `Prompts.FourFieldLayout` | src/system_assistant/application/services/ai/prompts.py:8-24 | a template of the prompt's shape formats to its texts with the four values spliced in |
| `Prompts.ResolveArgs` | src/system_assistant/application/services/ai/prompts.py:33-36 | the four `or` fallbacks; what they mean for Python values is `Prompts.FalsyArgumentsFallBack` and `Prompts.TruthyArgumentsKept` |
| `Prompts.FalsyArgumentsFallBack` | src/system_assistant/application/services/ai/prompts.py:33-36 | `''` for the OS or distribution and `[]` for the listing resolve exactly as None does; with nothing given every value is probed; a given working directory is kept whatever its text, since a Path is never falsy |
| `Prompts.TruthyArgumentsKept` | src/system_assistant/application/services/ai/prompts.py:33-36 | non-empty arguments are kept as given, whatever the platform reports |
| `Prompts.ConstructSystemAssistantPrompt` | src/system_assistant/application/services/ai/prompts.py:27-42 | the prompt always opens with the assistant introduction and closes with the rules; the full text is `Prompts.PromptLayout` |
| `Prompts.TemplateFieldsCovered` | src/system_assistant/application/services/ai/prompts.py:37-42 | filling the template from the four resolved values cannot fail |
| `Prompts.PromptLayout` | src/system_assistant/application/services/ai/prompts.py:8-42 | the prompt is the fixed text with the four values substituted; the OS, distribution and working-directory lines end with their values; all other text is unchanged |
| `Prompts.PromptIgnoresPlatformWhenArgumentsGiven` | src/system_assistant/application/services/ai/prompts.py:33-42 | with all four arguments truthy the prompt depends on them alone |
| `RequestSystemHelp.Title` | src/system_assistant/application/commands/request_system_help.py:33 | the title starts with the whole message and equals it iff the message is under 200 characters |
| `RequestSystemHelp.NewChatId` | src/system_assistant/application/commands/request_system_help.py:41 | the id is the generated one or the requested one, and is empty only if the generated id is; which one is `RequestSystemHelp.NewChatIdCases` |
| `RequestSystemHelp.TitleKeepsMessage` | src/system_assistant/application/commands/request_system_help.py:33 | the title starts with the whole message; it equals the message iff the message is under 200 characters, otherwise `...` follows |
| `RequestSystemHelp.NewChatIdCases` | src/system_assistant/application/commands/request_system_help.py:41 | a new chat takes the requested id when it is a non-empty string, otherwise the generated one (also for `''`) |
| `RequestSystemHelp.RequestSystemHelpCommandHandler.constructor` | src/system_assistant/application/commands/request_system_help.py:24-30 | the handler keeps the given store and agent |
| `RequestSystemHelp.RequestSystemHelpCommandHandler.CreateChat` | src/system_assistant/application/commands/request_system_help.py:32-45 | a new chat with the derived id and title and exactly one message: the assistant seed carrying the prompt built from the system context |
| `RequestSystemHelp.RequestSystemHelpCommandHandler.Handle` | src/system_assistant/application/commands/request_system_help.py:47-63 | the chat is created iff no id was given or the store misses it, otherwise the stored object is reused; the agent sees the old messages plus the user's; the result is exactly the agent's answer; on success the chat gains user then assistant(answer content) and is saved under its id; on failure it keeps the user message and nothing is saved; other chats are untouched |
| `Mediation.Mediator.constructor` | src/system_assistant/application/mediator.py:10-17 | both registries start empty |
| `Mediation.Mediator.RegisterHandlers` | src/system_assistant/application/mediator.py:38-42 | the query test runs first; the entry for that exact class is replaced by exactly the given list; a class that is neither leaves both registries unchanged; other classes' entries never change |
| `Mediation.Mediator.HandleCommand` | src/system_assistant/application/mediator.py:22-24 | only the first handler for the exact class runs, and what it returns or raises is what the dispatch returns or raises; a missing class gets an empty entry inserted and raises IndexError |
| `Mediation.Mediator.HandleQuery` | src/system_assistant/application/mediator.py:19-20 | an unregistered class raises KeyError; a registered one raises AttributeError because the registry holds a list |
| `Mediation.Mediator.HandleQueryIntended` | src/system_assistant/application/mediator.py:19-20 | corrected version: runs the handler registered for the exact class, and its result or exception comes out unchanged |
| `CoreTypes.NewUrl` | src/system_assistant/core/types.py:7-10 | succeeds iff the string starts with `http://` or `https://`, and then yields the same string; otherwise raises ValueError |
| `CoreTypes.NewUrlExamples` | src/system_assistant/core/types.py:8 | the check is a case-sensitive prefix test: `http://` alone passes, `HTTP://x` and `ftp://...` fail |
| `VoiceCoreTypes.NoStringHasBothPrefixes` | src/voice_assistant/core/types.py:7 | no string starts with both `http://` and `https://` |
| `VoiceCoreTypes.UrlInit` | src/voice_assistant/core/types.py:6-9 | every construction raises ValueError, so the `string` attribute is never set |
| `VoiceCoreTypes.UrlInitRejectsValidUrls` | src/voice_assistant/core/types.py:7-8 | both `http://...` and `https://...` are rejected, where the system assistant's URL accepts them |
| `Scenarios.StubAnswersWithReply` | src/system_assistant/infrastructure/services/ai/openai_agent.py:40-47 | a run with a tool call, a tool result and then a final AI message answers with that final content |
| `Scenarios.FirstRequestCreatesChat` | src/system_assistant/application/commands/request_system_help.py:47-63 | a request without an id on an empty store returns the backend's reply for the generated id and stores a chat of 3 messages |
| `Scenarios.SecondRequestExtendsChat` | src/system_assistant/application/commands/request_system_help.py:51-61 | a request on a stored 3-message chat returns the reply and leaves 5 messages |
| `Scenarios.FailedBackendKeepsQuestion` | src/system_assistant/application/commands/request_system_help.py:52-59 | when the backend fails on a loaded chat, the error propagates and the stored object already holds the user's message |
| `Scenarios.StoredChatGrowsByTwo` | src/system_assistant/application/commands/request_system_help.py:51-61 | on any stored chat of n messages, the stored object keeps its n messages, then gains the user's message and, when the agent answers, the reply with the answer's content (n + 2; n + 1 on failure); on success it stays filed under its id |
| `Scenarios.StoreRoundTrip` | src/system_assistant/application/gateways/chat.py:23-33 | save then lookup returns the very object saved; `append_message` fails with AttributeError on a known id and KeyError on an unknown one |
| `Scenarios.DispatchRules` | src/system_assistant/application/mediator.py:19-42 | only the first of two handlers runs; an exception a handler raises comes out of the dispatch; a subclass of a registered command raises IndexError; a registered query raises AttributeError |

## Left out

- Logging (`logger.info`) and the `pprint` in `FakeChatGateway.save`: output only.
- `async`/`await`: every await on this path is sequential, so calls are ordinary method calls.
- uuid generation: the generated id is the parameter `generatedId`.
- Platform probes: `platform.system()`, `freedesktop_os_release()['NAME']`, `ROOT` and
  `os.listdir()` are the fields of `Platform`. A probe that raises, such as
  `freedesktop_os_release` on a system without an os-release file, is not modelled.
- `Prompts.ReprList`: renders a list as Python's `repr` does only for names without
  quotes, backslashes or unprintable characters. Python escapes those differently.
- `Prompts.FormatMap`: works on a template whose `{name}` placeholders are already
  parsed into segments. Brace parsing and escaped braces are not modelled.
- `OpenAIAgent.BaseReactOpenAIAgent.Chat`: the provider's stream is all or nothing.
  A stream that raises after some snapshots is modelled as raising at once. The
  observable result is the same, because the partial answer is discarded.
- `OpenAIAgent.Snapshot`: a snapshot always has at least one message. An empty message
  list, on which the source's `[-1]` would raise IndexError, is not modelled.
- `initialize` is abstract: its provider bindings (DeepSeek, Gemini, the ReAct graph),
  the memory saver and the config are not modelled. A binding is the value
  `AgentBinding(tools, temperature, build)`. The memory saver's per-thread state lives
  inside `upstream`.
- `Mediator` built with custom `query_handlers` or `command_handlers` arguments is not
  modelled. Only the default construction (a dict and a `defaultdict(list)`) is.
- `Prompts.ResolveArgs`: `currentDir` is the text `str(path)` prints for the working
  directory. `pathlib` normalisation is not modelled: `Path('')` prints `.` and a
  trailing slash is dropped, while the model prints the text as given.
- `Mediation.Mediator.HandleCommand`: handlers are pure functions from the request to
  a result or an exception. Their effects, such as the request handler saving a chat,
  are not modelled through the mediator; the handler is modelled on its own.
- `issubclass` is modelled by two flags on each class. The class hierarchy itself is not.
- `Chat.id` and `Chat.title` are `const`. Python could reassign them, but nothing in
  this code does.
- The `ChatGateway` protocol and the SQLite and Dgraph stores are not modelled. Only
  the in-memory store is.
- The definitions of `SystemContext`, `AIAnswer` and the system assistant's
  `Command`/`Query` base classes are not part of this model. They are records with
  the fields the code uses.

## Findings

| source | as written | input that shows it | evidently intended | confidence | as-written member | corrected member |
|---|---|---|---|---|---|---|
| src/voice_assistant/core/types.py:7 | raises unless the string starts with BOTH prefixes (`not a or not b`) | `"https://example.org"` raises ValueError (`VoiceCoreTypes.UrlInitRejectsValidUrls`) | raise only when neither prefix is present | high, not executed | `VoiceCoreTypes.UrlInit` | `CoreTypes.NewUrl` |
| src/system_assistant/application/gateways/chat.py:33 | calls `append_message` on a Chat, which defines only `add_message` | appending to any saved id raises AttributeError (`Scenarios.StoreRoundTrip`) | append the message to the stored chat | high, not executed | `Gateways.FakeChatGateway.AppendMessage` | `Gateways.FakeChatGateway.AppendMessageIntended` |
| src/system_assistant/application/mediator.py:20 | calls `.handle` on the registered value, which `register_handlers` stores as a list | `register_handlers(Q, [h])` then `handle_query(Q())` raises AttributeError (`Scenarios.DispatchRules`) | run the registered handler and return its result | medium, not executed | `Mediation.Mediator.HandleQuery` | `Mediation.Mediator.HandleQueryIntended` |
