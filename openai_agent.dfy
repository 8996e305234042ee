/** `BaseReactOpenAIAgent`: the reasoning backend. Its provider binding
    (`initialize`) and the stream the provider yields are inputs here. */
module OpenAIAgent {
  import opened Errors
  import Domain
  import opened LangchainUtils

  /** A tool the agent may call; only its identity matters here. */
  datatype Tool = Tool(name: string)

  /** The value `initialize()` returns: a provider binding built from the
      tools and temperature at that moment. `build` counts the calls to
      `initialize`, so a rebuild is visible even when nothing else changed. */
  datatype AgentBinding = AgentBinding(tools: seq<Tool>, temperature: real, build: nat)

  /** `AIAnswer` as the agent fills it. */
  datatype AIAnswer = AIAnswer(isSuccessful: bool, chatId: string, content: string)

  /** One value of the stream in `values` mode: the whole message list so far. */
  type Snapshot = s: seq<LcMessage> | |s| > 0 witness [LcMessage("ai", "")]

  /** What `astream` is asked for: the binding that streams, the converted
      history and the `thread_id` the memory saver keys the run on. */
  datatype StreamRequest = StreamRequest(binding: AgentBinding, messages: seq<LcMessage>, threadId: string)

  /** The provider: the snapshots it yields for a request, or the failure it raises. */
  type Upstream = StreamRequest -> Result<seq<Snapshot>>

  /** Last message types that carry an answer. */
  predicate IsAnswerKind(kind: string) {
    kind == "ai" || kind == "system" || kind == "assistant"
  }

  function LastMessage(s: Snapshot): LcMessage {
    s[|s| - 1]
  }

  predicate IsAnswerSnapshot(s: Snapshot) {
    IsAnswerKind(LastMessage(s).kind)
  }

  /** The answer content after consuming `stream` from the left: each
      snapshot whose last message is an answer overwrites the content,
      every other snapshot leaves it; it starts as `''`. */
  function Reduced(stream: seq<Snapshot>): (c: string)
    ensures c == "" || exists i :: 0 <= i < |stream| && IsAnswerSnapshot(stream[i]) && c == LastMessage(stream[i]).content
  {
    if stream == [] then ""
    else if IsAnswerSnapshot(stream[|stream| - 1]) then LastMessage(stream[|stream| - 1]).content
    else
      var prefix := stream[..|stream| - 1];
      assert forall i :: 0 <= i < |prefix| ==> prefix[i] == stream[i];
      Reduced(prefix)
  }

  /** The fold yields the content of the LAST answer snapshot, or `''`
      when the stream has no answer snapshot at all. */
  lemma {:induction false} ReducedIsLastAnswer(stream: seq<Snapshot>)
    ensures (forall j :: 0 <= j < |stream| ==> !IsAnswerSnapshot(stream[j])) ==> Reduced(stream) == ""
    ensures forall j :: 0 <= j < |stream| && IsAnswerSnapshot(stream[j])
                        && (forall k :: j < k < |stream| ==> !IsAnswerSnapshot(stream[k]))
                        ==> Reduced(stream) == LastMessage(stream[j]).content
  {
    if stream != [] {
      var n := |stream| - 1;
      var prefix := stream[..n];
      ReducedIsLastAnswer(prefix);
      assert forall j :: 0 <= j < n ==> prefix[j] == stream[j];
    }
  }

  /** Snapshots that end in a tool call or a human message change nothing,
      however many of them follow. */
  lemma {:induction false} NonAnswerSnapshotsKeepContent(stream: seq<Snapshot>, tail: seq<Snapshot>)
    requires forall k :: 0 <= k < |tail| ==> !IsAnswerSnapshot(tail[k])
    ensures Reduced(stream + tail) == Reduced(stream)
  {
    if tail != [] {
      var n := |tail| - 1;
      var whole := stream + tail;
      assert whole[|whole| - 1] == tail[n] && !IsAnswerSnapshot(tail[n]);
      assert whole[..|whole| - 1] == stream + tail[..n];
      NonAnswerSnapshotsKeepContent(stream, tail[..n]);
    } else {
      assert stream + tail == stream;
    }
  }

  /** Whatever tool steps came before, a stream whose last answer
      snapshot ends in `content` reduces to `content`. */
  lemma FinalAnswerWins(before: seq<Snapshot>, answer: Snapshot, after: seq<Snapshot>)
    requires IsAnswerSnapshot(answer)
    requires forall k :: 0 <= k < |after| ==> !IsAnswerSnapshot(after[k])
    ensures Reduced(before + [answer] + after) == LastMessage(answer).content
  {
    NonAnswerSnapshotsKeepContent(before + [answer], after);
  }

  /** The outcome of one `chat` call on a history and a thread id. */
  function ChatOutcome(binding: AgentBinding, history: seq<Domain.Message>, threadId: string, upstream: Upstream): (r: Result<AIAnswer>)
    ensures r.Success? ==> r.value.isSuccessful && r.value.chatId == threadId
    ensures r.Failure? ==>
              || r.error == TypeError
              || (ConvertHistory(history).Success?
                  && upstream(StreamRequest(binding, ConvertHistory(history).value, threadId)) == Failure(r.error))
  {
    match ConvertHistory(history)
    case Failure(e) => Failure(e)
    case Success(converted) =>
      match upstream(StreamRequest(binding, converted, threadId))
      case Failure(e) => Failure(e)
      case Success(stream) => Success(AIAnswer(true, threadId, Reduced(stream)))
  }

  /** Every outcome of `chat`: a history with an invalid sender raises
      TypeError before the provider is asked; otherwise the provider is
      asked once, under thread id `threadId` and with the history
      converted one to one, and its failure propagates; a stream that
      completes always gives a successful answer for `threadId`, possibly
      with empty content. */
  lemma ChatOutcomeCases(binding: AgentBinding, history: seq<Domain.Message>, threadId: string, upstream: Upstream)
    ensures (exists i :: 0 <= i < |history| && history[i].sender.Other?) ==>
              ChatOutcome(binding, history, threadId, upstream) == Failure(TypeError)
    ensures (forall i :: 0 <= i < |history| ==> !history[i].sender.Other?) ==>
              var converted := ConvertHistory(history).value;
              && |converted| == |history|
              && (forall i :: 0 <= i < |history| ==> converted[i].content == history[i].content)
              && match upstream(StreamRequest(binding, converted, threadId))
                 case Failure(e) => ChatOutcome(binding, history, threadId, upstream) == Failure(e)
                 case Success(stream) =>
                   ChatOutcome(binding, history, threadId, upstream) == Success(AIAnswer(true, threadId, Reduced(stream)))
  {
    if forall i :: 0 <= i < |history| ==> !history[i].sender.Other? {
      var converted := ConvertHistory(history).value;
      forall i | 0 <= i < |history|
        ensures converted[i].content == history[i].content
      {
        assert ToLangchainMessage(history[i]) == Success(converted[i]);
      }
    }
  }

  class BaseReactOpenAIAgent {
    var tools: seq<Tool>
    var temperature: real
    /** How many times `initialize` has run. */
    var builds: nat
    /** `_agent`. */
    var agent: AgentBinding

    /** `_agent` is always the binding built from the current settings. */
    ghost predicate Valid()
      reads this
    {
      agent == AgentBinding(tools, temperature, builds)
    }

    /** `initialize()` applied to the current settings. */
    function Initialize(): AgentBinding
      reads this
    {
      AgentBinding(tools, temperature, builds + 1)
    }

    /** Sets `tools` and `temperature` first, then builds `_agent` from
        them. (The memory saver and config are provider plumbing.) The
        source's default temperature is 1.0. */
    constructor (tools: seq<Tool>, temperature: real)
      ensures this.tools == tools && this.temperature == temperature
      ensures builds == 1 && agent == AgentBinding(tools, temperature, 1)
      ensures Valid()
    {
      this.tools := tools;
      this.temperature := temperature;
      builds := 0;
      new;
      builds, agent := builds + 1, Initialize();
    }

    /** `chat`: converts the history, streams it under thread id `chat.id`
        and keeps the content of the last answer snapshot. It only reads
        `chat.messages` (no `modifies` clause). */
    method Chat(chat: Domain.Chat, upstream: Upstream) returns (r: Result<AIAnswer>)
      ensures r == ChatOutcome(agent, chat.messages, chat.id, upstream)
    {
      var converted := ConvertHistory(chat.messages);
      if converted.Failure? {
        return Failure(converted.error);
      }
      var answer := AIAnswer(true, chat.id, "");
      var streamed := upstream(StreamRequest(agent, converted.value, chat.id));
      if streamed.Failure? {
        return Failure(streamed.error);
      }
      var stream := streamed.value;
      var i := 0;
      while i < |stream|
        invariant 0 <= i <= |stream|
        invariant answer == AIAnswer(true, chat.id, Reduced(stream[..i]))
      {
        var last := stream[i][|stream[i]| - 1];
        if last.kind in ["ai", "system", "assistant"] {
          answer := answer.(content := last.content);
        }
        assert stream[..i + 1][..i] == stream[..i];
        i := i + 1;
      }
      assert stream[..i] == stream;
      r := Success(answer);
    }

    /** `update_settings`: each setting is replaced only when given, and
        `_agent` is rebuilt every time, even with no arguments. */
    method UpdateSettings(temperature: Option<real>, tools: Option<seq<Tool>>)
      modifies this
      ensures this.tools == (if tools.Some? then tools.value else old(this.tools))
      ensures this.temperature == (if temperature.Some? then temperature.value else old(this.temperature))
      ensures builds == old(builds) + 1
      ensures agent == AgentBinding(this.tools, this.temperature, builds)
      ensures Valid()
    {
      if tools.Some? {
        this.tools := tools.value;
      }
      if temperature.Some? {
        this.temperature := temperature.value;
      }
      builds, agent := builds + 1, Initialize();
    }
  }
}
