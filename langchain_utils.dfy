/** Conversion of domain messages into the chat-model library's message objects. */
module LangchainUtils {
  import opened Errors
  import opened Domain

  /** A library message: its `.type` tag (`"human"`, `"system"`, `"ai"`,
      `"tool"`, ...) and its text. */
  datatype LcMessage = LcMessage(kind: string, content: string)

  /** `to_langchain_message`: a user message becomes a human message, an
      assistant message becomes a SYSTEM message (not an AI message), and
      any other sender raises TypeError. */
  function ToLangchainMessage(m: Message): (r: Result<LcMessage>)
    ensures r.Success? <==> !m.sender.Other?
    ensures r.Failure? ==> r.error == TypeError
    ensures r.Success? ==> r.value.content == m.content
    ensures m.sender.User? ==> r.value.kind == "human"
    ensures m.sender.Assistant? ==> r.value.kind == "system" && r.value.kind != "ai"
  {
    match m.sender
    case User => Success(LcMessage("human", m.content))
    case Assistant => Success(LcMessage("system", m.content))
    case Other(_) => Failure(TypeError)
  }

  /** No information is lost: two valid messages that convert alike are the same message. */
  lemma ToLangchainMessageInjective(m1: Message, m2: Message)
    requires ToLangchainMessage(m1).Success? && ToLangchainMessage(m2).Success?
    requires ToLangchainMessage(m1) == ToLangchainMessage(m2)
    ensures m1 == m2
  {
  }

  /** `[to_langchain_message(msg) for msg in chat.messages]`: one converted
      message per input, in order, or TypeError when any sender is invalid. */
  function ConvertHistory(ms: seq<Message>): (r: Result<seq<LcMessage>>)
    ensures r.Success? <==> forall i :: 0 <= i < |ms| ==> !ms[i].sender.Other?
    ensures r.Failure? ==> r.error == TypeError
    ensures r.Success? ==> |r.value| == |ms|
    ensures r.Success? ==> forall i :: 0 <= i < |ms| ==> ToLangchainMessage(ms[i]) == Success(r.value[i])
  {
    if ms == [] then Success([])
    else
      match ToLangchainMessage(ms[0])
      case Failure(e) => Failure(e)
      case Success(head) =>
        match ConvertHistory(ms[1..])
        case Failure(e) => Failure(e)
        case Success(tail) => Success([head] + tail)
  }
}
