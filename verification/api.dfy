/**
 * The responder client: the `Message` record, the chat request and the
 * mapping of the responder's answer (or refusal) to a message or an error,
 * and the solution notification whose completion ignores the status.
 * The `fetch` exchange itself is an input: its abstract result is a
 * `ChatExchange` or a `SolutionExchange`.
 */
module Api {
  import opened Wrappers

  datatype Role = User | Assistant

  /** One turn of a conversation; the three trailing fields are optional in the source. */
  datatype Message = Message(
    id: string,
    role: Role,
    content: string,
    timestamp: int,
    latency: Option<real>,
    context: Option<seq<string>>,
    isSolution: Option<bool>)

  /** `m.isSolution` is truthy. */
  predicate IsSolution(m: Message) {
    m.isSolution == Some(true)
  }

  const DefaultLanguage := "pt"
  const SendFailureFallback := "Falha ao enviar mensagem ao Agente"

  // ---------------------------------------------------------------- request

  datatype ChatRequest = ChatRequest(message: string, threadId: string, userId: string, language: string)

  /** The request `sendMessage` posts; an omitted language is Portuguese. */
  function ChatRequestFor(message: string, threadId: string, userId: string, language: Option<string>): (req: ChatRequest)
    ensures req.message == message && req.threadId == threadId && req.userId == userId
    ensures language.None? ==> req.language == DefaultLanguage
    ensures language.Some? ==> req.language == language.value
  {
    ChatRequest(message, threadId, userId, if language.Some? then language.value else DefaultLanguage)
  }

  /** The JSON body of the request, as its field map. */
  function ChatRequestBody(req: ChatRequest): map<string, string> {
    map["message" := req.message, "thread_id" := req.threadId, "user_id" := req.userId, "language" := req.language]
  }

  /** How the receiving side reads the body back. */
  function ParseChatRequest(body: map<string, string>): Option<ChatRequest> {
    if "message" in body && "thread_id" in body && "user_id" in body && "language" in body
    then Some(ChatRequest(body["message"], body["thread_id"], body["user_id"], body["language"]))
    else None
  }

  /** The four field names are distinct, so no field of the request is lost on the wire. */
  lemma ChatRequestRoundTrip(req: ChatRequest)
    ensures ChatRequestBody(req).Keys == {"message", "thread_id", "user_id", "language"}
    ensures ParseChatRequest(ChatRequestBody(req)) == Some(req)
  {
    var body := ChatRequestBody(req);
    assert body["message"] == req.message;
    assert body["thread_id"] == req.threadId;
    assert body["user_id"] == req.userId;
  }

  // --------------------------------------------------------------- response

  /** The success body `{response, latency?, context?}`. */
  datatype ChatReply = ChatReply(response: string, latency: Option<real>, context: Option<seq<string>>)

  /** What the `fetch` of one chat request came back with. */
  datatype ChatExchange =
    | Unreachable                        // the fetch itself rejected
    | Refused(detail: Option<string>)    // status not ok; `detail` of the error body, None if absent or unreadable
    | Answered(body: Option<ChatReply>)  // status ok; None if the body is not JSON

  datatype SendError =
    | TransportError        // propagated from fetch
    | UnreadableReply       // propagated from response.json()
    | Rejected(text: string)

  /** The error text for a refused request: the body's `detail` when truthy, else the fixed fallback. */
  function ErrorText(detail: Option<string>): (text: string)
    ensures text != ""
    ensures detail.Some? && detail.value != "" ==> text == detail.value
    ensures detail.None? || detail.value == "" ==> text == SendFailureFallback
  {
    if detail.Some? && detail.value != "" then detail.value else SendFailureFallback
  }

  /** The reply fields a message carries back; the inverse of `ReplyMessage`. */
  function ReplyOf(m: Message): ChatReply {
    ChatReply(m.content, m.latency, m.context)
  }

  /** The assistant message built from a reply, with a fresh id and the current time. */
  function ReplyMessage(reply: ChatReply, id: string, now: int): (m: Message)
    ensures m.role == Assistant && !IsSolution(m) && m.isSolution.None?
    ensures ReplyOf(m) == reply
    ensures m.id == id && m.timestamp == now
  {
    Message(id, Assistant, reply.response, now, reply.latency, reply.context, None)
  }

  /** The value `sendMessage` resolves to, or the error it rejects with. */
  function ChatOutcome(exchange: ChatExchange, replyId: string, now: int): (r: Result<Message, SendError>)
    ensures r.Success? <==> exchange.Answered? && exchange.body.Some?
    ensures r.Success? ==> r.value == ReplyMessage(exchange.body.value, replyId, now)
    ensures exchange.Refused? ==> r == Failure(Rejected(ErrorText(exchange.detail)))
    ensures exchange.Unreachable? ==> r == Failure(TransportError)
  {
    match exchange
    case Unreachable => Failure(TransportError)
    case Refused(detail) => Failure(Rejected(ErrorText(detail)))
    case Answered(body) =>
      if body.Some? then Success(ReplyMessage(body.value, replyId, now)) else Failure(UnreadableReply)
  }

  // ------------------------------------------------------ solution notification

  datatype SolutionRequest = SolutionRequest(threadId: string, question: string, answer: string)

  function SolutionRequestBody(req: SolutionRequest): map<string, string> {
    map["thread_id" := req.threadId, "question" := req.question, "answer" := req.answer]
  }

  function ParseSolutionRequest(body: map<string, string>): Option<SolutionRequest> {
    if "thread_id" in body && "question" in body && "answer" in body
    then Some(SolutionRequest(body["thread_id"], body["question"], body["answer"]))
    else None
  }

  lemma SolutionRequestRoundTrip(req: SolutionRequest)
    ensures SolutionRequestBody(req).Keys == {"thread_id", "question", "answer"}
    ensures ParseSolutionRequest(SolutionRequestBody(req)) == Some(req)
  {
    var body := SolutionRequestBody(req);
    assert body["thread_id"] == req.threadId;
    assert body["question"] == req.question;
  }

  /** The `fetch` of a solution notification: delivered with some HTTP status, or not at all. */
  datatype SolutionExchange = NotDelivered | Delivered(status: int)

  /** `markSolution` resolves whenever the request was delivered, whatever the status. */
  function SolutionOutcome(exchange: SolutionExchange): (r: Result<(), SendError>)
    ensures r.Success? <==> exchange.Delivered?
    ensures r.Failure? ==> r.error == TransportError
  {
    if exchange.Delivered? then Success(()) else Failure(TransportError)
  }
}
