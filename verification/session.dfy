/**
 * The session manager: the conversation list, the active-conversation id
 * and the loading flag, and the operations that update them. The two
 * operations that wait on the responder are split at their single `await`:
 * the first phase returns what was captured before the wait, and the second
 * phase applies the outcome to the state as it is when the wait ends.
 * Ids and timestamps are inputs: the caller supplies fresh ones.
 */
module Session {
  import opened Wrappers
  import opened JsString
  import opened Api
  import opened Chat

  /** What the first phase of `sendMessage` captured: the addressed conversation and the request. */
  datatype PendingSend = PendingSend(conversationId: string, request: ChatRequest)

  /** What `markAsSolution` captured before notifying: where the message is and what was sent. */
  datatype PendingSolution = PendingSolution(conversationId: string, messageId: string, request: SolutionRequest)

  class ChatSession {
    var conversations: seq<Conversation>
    var activeConversationId: string
    var isLoading: bool

    /**
     * The active id names a conversation; the session then holds at least
     * one. Every operation keeps this, except a switch to an id that names
     * no conversation.
     */
    ghost predicate Valid()
      reads this
      ensures Valid() ==> |conversations| > 0
    {
      Find(conversations, activeConversationId).Some?
    }

    /** The state after the mount effect: one empty conversation, active, nothing in flight. */
    constructor (initialId: string, threadId: string, now: int)
      ensures Valid()
      ensures conversations == [NewConversation(initialId, threadId, now)]
      ensures activeConversationId == initialId && !isLoading
      ensures Messages() == [] && !IsChatLocked()
    {
      conversations := [NewConversation(initialId, threadId, now)];
      activeConversationId := initialId;
      isLoading := false;
    }

    /** `activeConversation`. */
    function ActiveConversation(): Option<Conversation>
      reads this
    {
      Find(conversations, activeConversationId)
    }

    /** `messages`: the active conversation's messages, or none. */
    function Messages(): seq<Message>
      reads this
    {
      MessagesIn(conversations, activeConversationId)
    }

    /** `isChatLocked`: some message of the active conversation is a solution. */
    function IsChatLocked(): bool
      reads this
    {
      AnySolution(Messages())
    }

    /**
     * Phase one of `sendMessage`: unless the trimmed content is empty or
     * there is no active id or no caller id, append the user's message to
     * the active conversation (titling it if it was empty), raise the
     * loading flag, and return the request to send.
     */
    method BeginSend(content: string, userId: string, language: string, messageId: string, now: int)
      returns (pending: Option<PendingSend>)
      modifies this
      ensures old(Valid()) ==> Valid()
      ensures activeConversationId == old(activeConversationId)
      ensures pending.None? <==> Trim(content) == "" || activeConversationId == "" || userId == ""
      ensures pending.None? ==> conversations == old(conversations) && isLoading == old(isLoading)
      ensures pending.Some? ==>
        && isLoading
        && conversations ==
             Rewrite(old(conversations), activeConversationId,
                     UserTurn(UserMessage(messageId, content, now), GenerateTitle(content)))
        && pending.value.conversationId == activeConversationId
        && pending.value.request ==
             ChatRequestFor(content, ThreadIdOf(old(conversations), activeConversationId), userId, Some(language))
      ensures pending.Some? && old(Valid()) ==>
        && Messages() == old(Messages()) + [UserMessage(messageId, content, now)]
        && ActiveConversation().value.title ==
             (if old(Messages()) == [] then GenerateTitle(content) else old(ActiveConversation()).value.title)
        && IsChatLocked() == old(IsChatLocked())
      ensures forall x :: x != activeConversationId ==> Find(conversations, x) == Find(old(conversations), x)
    {
      if Trim(content) == "" || activeConversationId == "" || userId == "" {
        return None;
      }
      var userMessage := UserMessage(messageId, content, now);
      var threadId := ThreadIdOf(conversations, activeConversationId);
      var turn := UserTurn(userMessage, GenerateTitle(content));
      conversations := Rewrite(conversations, activeConversationId, turn);
      isLoading := true;
      pending := Some(PendingSend(activeConversationId, ChatRequestFor(content, threadId, userId, Some(language))));
      RewriteKeepsOthers(old(conversations), activeConversationId, turn);
      FindAfterRewrite(old(conversations), activeConversationId, turn, activeConversationId);
      if old(Valid()) {
        UserTurnView(old(conversations), activeConversationId, userMessage, GenerateTitle(content));
      }
    }

    /**
     * Phase two of `sendMessage`: append exactly one assistant message, the
     * reply or the apology, to the conversation captured in phase one
     * (nothing, if it has since been deleted), and clear the loading flag.
     */
    method CompleteSend(pending: PendingSend, exchange: ChatExchange, replyId: string, errorId: string, now: int)
      modifies this
      ensures old(Valid()) ==> Valid()
      ensures conversations ==
        Rewrite(old(conversations), pending.conversationId, Reply(OutcomeMessage(exchange, replyId, errorId, now)))
      ensures !isLoading && activeConversationId == old(activeConversationId)
      ensures Find(old(conversations), pending.conversationId).Some? ==>
        MessagesIn(conversations, pending.conversationId) ==
          MessagesIn(old(conversations), pending.conversationId) + [OutcomeMessage(exchange, replyId, errorId, now)]
      ensures Find(old(conversations), pending.conversationId).None? ==> conversations == old(conversations)
      ensures forall x :: x != pending.conversationId ==> Find(conversations, x) == Find(old(conversations), x)
    {
      var outcome := OutcomeMessage(exchange, replyId, errorId, now);
      conversations := Rewrite(conversations, pending.conversationId, Reply(outcome));
      isLoading := false;
      RewriteKeepsOthers(old(conversations), pending.conversationId, Reply(outcome));
      FindAfterRewrite(old(conversations), pending.conversationId, Reply(outcome), activeConversationId);
      ReplyView(old(conversations), pending.conversationId, outcome);
    }

    /** `newChat`: put a fresh conversation in front of the others and make it active. */
    method NewChat(newId: string, threadId: string, now: int)
      modifies this
      ensures Valid()
      ensures conversations == [NewConversation(newId, threadId, now)] + old(conversations)
      ensures activeConversationId == newId && isLoading == old(isLoading)
      ensures ActiveConversation() == Some(NewConversation(newId, threadId, now))
      ensures Messages() == [] && !IsChatLocked()
    {
      conversations := [NewConversation(newId, threadId, now)] + conversations;
      activeConversationId := newId;
      assert FirstIndex(ConversationIds(conversations), newId) == Some(0);
    }

    /** `switchConversation`: refused while a reply is pending; the id is not checked. */
    method SwitchConversation(id: string)
      modifies this
      ensures old(Valid()) && (old(isLoading) || Find(conversations, id).Some?) ==> Valid()
      ensures activeConversationId == if old(isLoading) then old(activeConversationId) else id
      ensures conversations == old(conversations) && isLoading == old(isLoading)
    {
      if isLoading {
        return;
      }
      activeConversationId := id;
    }

    /**
     * `deleteConversation`: drop every conversation with the id; if it was
     * the active one, activate the first that is left or, when none is, a
     * fresh conversation that becomes the only one.
     */
    method DeleteConversation(id: string, newId: string, threadId: string, now: int)
      modifies this
      ensures old(Valid()) || id == old(activeConversationId) ==> Valid() && |conversations| > 0
      ensures isLoading == old(isLoading)
      ensures id != old(activeConversationId) ==>
        conversations == Without(old(conversations), id) && activeConversationId == old(activeConversationId)
      ensures id == old(activeConversationId) && Without(old(conversations), id) != [] ==>
        conversations == Without(old(conversations), id) && activeConversationId == conversations[0].id
      ensures id == old(activeConversationId) && Without(old(conversations), id) == [] ==>
        conversations == [NewConversation(newId, threadId, now)] && activeConversationId == newId
      ensures newId != id ==> forall c :: c in conversations ==> c.id != id
    {
      var filtered := Without(conversations, id);
      if id == activeConversationId {
        if |filtered| > 0 {
          activeConversationId := filtered[0].id;
        } else {
          activeConversationId := newId;
          conversations := [NewConversation(newId, threadId, now)];
          return;
        }
      }
      conversations := filtered;
      if id == old(activeConversationId) {
        assert filtered[0] in filtered;
      } else if old(Valid()) {
        // the active conversation survives the filter
        WithoutMembers(old(conversations), id, Find(old(conversations), activeConversationId).value);
      }
    }

    /**
     * The part of `markAsSolution` before its `await`: find the message in
     * the active conversation, take its content as the answer and the
     * nearest earlier user message as the question, and return the
     * notification to send. Nothing when there is no active conversation or
     * it holds no such message.
     */
    method PrepareSolution(messageId: string) returns (pending: Option<PendingSolution>)
      ensures pending.None? <==>
        ActiveConversation().None? || FirstIndex(MessageIds(ActiveConversation().value.messages), messageId).None?
      ensures pending.Some? ==>
        var c := ActiveConversation().value;
        var k := FirstIndex(MessageIds(c.messages), messageId).value;
        && pending.value.conversationId == activeConversationId
        && pending.value.messageId == messageId
        && pending.value.request.threadId == c.threadId
        && pending.value.request.answer == c.messages[k].content
        && IsNearestQuestion(c.messages, k, pending.value.request.question)
    {
      var active := Find(conversations, activeConversationId);
      if active.None? {
        return None;
      }
      var currentMessages := active.value.messages;
      var answerIndex := FirstIndex(MessageIds(currentMessages), messageId);
      if answerIndex.None? {
        return None;
      }
      var answer := currentMessages[answerIndex.value].content;
      var question := NearestQuestion(currentMessages, answerIndex.value);
      pending := Some(PendingSolution(activeConversationId, messageId,
                                      SolutionRequest(active.value.threadId, question, answer)));
    }

    /**
     * The part of `markAsSolution` after its `await`: only when the
     * notification completed, flag every message with the id in the
     * conversation captured before the wait; otherwise change nothing.
     */
    method CompleteMarkSolution(pending: PendingSolution, exchange: SolutionExchange)
      modifies this
      ensures old(Valid()) ==> Valid()
      ensures activeConversationId == old(activeConversationId) && isLoading == old(isLoading)
      ensures SolutionOutcome(exchange).Success? ==>
        conversations == Rewrite(old(conversations), pending.conversationId, FlagSolution(pending.messageId))
      ensures SolutionOutcome(exchange).Failure? ==> conversations == old(conversations)
      ensures SolutionOutcome(exchange).Success? && activeConversationId == pending.conversationId ==>
        (IsChatLocked() <==> old(IsChatLocked()) || FirstIndex(MessageIds(old(Messages())), pending.messageId).Some?)
    {
      var outcome := SolutionOutcome(exchange);
      if outcome.Failure? {
        return;
      }
      var edit := FlagSolution(pending.messageId);
      conversations := Rewrite(conversations, pending.conversationId, edit);
      FindAfterRewrite(old(conversations), pending.conversationId, edit, activeConversationId);
      FlagLocksConversation(old(conversations), pending.conversationId, pending.messageId);
    }
  }
}
