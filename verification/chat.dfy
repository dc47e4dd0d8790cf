/**
 * The conversation model of the session manager and the whole-collection
 * rewrites its operations apply: titles, the edits one conversation can
 * receive, the rewrite of the conversation list, the filter used by
 * deletion, the lookups behind the derived views, and the backward search
 * for the question a solution answers.
 */
module Chat {
  import opened Wrappers
  import opened JsString
  import opened Api
  import Auth

  datatype Conversation = Conversation(
    id: string,
    threadId: string,
    title: string,
    messages: seq<Message>,
    createdAt: int)

  const DefaultTitle := "New Chat"
  const TitleLimit := 35
  const Ellipsis: char := '\U{2026}'
  const Apology := "Desculpe, ocorreu um erro ao se comunicar com o agente. Verifique se o backend est\U{00E1} rodando."

  /** `session?.user?.id || ''`: the caller's id, or the empty string when there is none. */
  function CallerId(session: Option<Auth.Session>): (userId: string)
    ensures session.Some? && session.value.user.Some? && session.value.user.value.id.Some?
            ==> userId == session.value.user.value.id.value
    ensures session.None? || session.value.user.None? || session.value.user.value.id.None? ==> userId == ""
  {
    if session.Some? && session.value.user.Some? && session.value.user.value.id.Some?
    then session.value.user.value.id.value
    else ""
  }

  /** The id a user signs in with is the caller id the chat sends with. */
  lemma SignedInUserIsCaller(token: Auth.Token, u: Auth.User, session: Auth.Session)
    requires session.user.Some?
    ensures CallerId(Some(Auth.SessionFor(session, Auth.Jwt(token, Some(u))))) == u.id
  {
    Auth.SignInIdReachesSession(token, u, session);
  }

  /** The title derived from a first message (`generateTitle`). */
  function GenerateTitle(content: string): (title: string)
    ensures |title| <= TitleLimit + 1
  {
    var cleaned := Trim(ReplaceNewlines(content));
    if |cleaned| <= TitleLimit then cleaned else cleaned[..TitleLimit] + [Ellipsis]
  }

  /**
   * The title is the cleaned text (newlines to spaces, trimmed) when it has
   * at most 35 characters, else its first 35 followed by an ellipsis. It
   * holds no line feed, and it is empty exactly when the content is blank,
   * so a message that passes the send guard always yields a title.
   */
  lemma GenerateTitleSpec(content: string)
    ensures var cleaned := Trim(ReplaceNewlines(content));
            && (|cleaned| <= TitleLimit ==> GenerateTitle(content) == cleaned)
            && (|cleaned| > TitleLimit ==> GenerateTitle(content) == cleaned[..TitleLimit] + [Ellipsis])
    ensures '\n' !in GenerateTitle(content)
    ensures GenerateTitle(content) == "" <==> Trim(content) == ""
  {
    var replaced := ReplaceNewlines(content);
    ReplaceNewlinesSpec(content);
    TrimSpec(replaced);
    TrimSpec(content);
  }

  /** A fresh conversation: no messages, the default title. */
  function NewConversation(id: string, threadId: string, now: int): (c: Conversation)
    ensures c.id == id && c.threadId == threadId && c.createdAt == now
    ensures c.messages == [] && c.title == DefaultTitle
  {
    Conversation(id, threadId, DefaultTitle, [], now)
  }

  /** The user turn `sendMessage` appends: the content exactly as typed. */
  function UserMessage(id: string, content: string, now: int): Message {
    Message(id, User, content, now, None, None, None)
  }

  /** The assistant turn that stands in for a failed exchange. */
  function ApologyMessage(id: string, now: int): Message {
    Message(id, Assistant, Apology, now, None, None, None)
  }

  /**
   * The one message the second phase of `sendMessage` appends: the reply
   * when the responder answered, else the fixed apology.
   */
  function OutcomeMessage(exchange: ChatExchange, replyId: string, errorId: string, now: int): (m: Message)
    ensures m.role == Assistant && !IsSolution(m)
    ensures ChatOutcome(exchange, replyId, now).Success? ==> ReplyOf(m) == exchange.body.value && m.id == replyId
    ensures ChatOutcome(exchange, replyId, now).Failure? ==> m.content == Apology && m.id == errorId
  {
    match ChatOutcome(exchange, replyId, now)
    case Success(reply) => reply
    case Failure(_) => ApologyMessage(errorId, now)
  }

  /** `messages.map(m => m.id === id ? {...m, isSolution: true} : m)`. */
  function FlagMessages(msgs: seq<Message>, id: string): (r: seq<Message>)
    ensures |r| == |msgs|
    ensures forall i :: 0 <= i < |msgs| && msgs[i].id != id ==> r[i] == msgs[i]
    ensures forall i :: 0 <= i < |msgs| && msgs[i].id == id ==> r[i] == msgs[i].(isSolution := Some(true))
  {
    seq(|msgs|, i requires 0 <= i < |msgs| =>
      if msgs[i].id == id then msgs[i].(isSolution := Some(true)) else msgs[i])
  }

  /** The change an operation makes to the one conversation it addresses. */
  datatype Edit =
    | UserTurn(msg: Message, title: string)  // append the user's message; if it is the first, take the title
    | Reply(msg: Message)           // append the outcome message
    | FlagSolution(messageId: string)

  /**
   * Applies an edit. The conversation keeps its id, thread id and creation
   * time; its title changes only on a user turn into an empty conversation;
   * a user turn or a reply appends exactly its message, and a flag flags the
   * messages with the id.
   */
  function Apply(c: Conversation, e: Edit): (r: Conversation)
    ensures r.id == c.id && r.threadId == c.threadId && r.createdAt == c.createdAt
    ensures r.title == (if e.UserTurn? && c.messages == [] then e.title else c.title)
    ensures !e.FlagSolution? ==> r.messages == c.messages + [e.msg]
    ensures e.FlagSolution? ==> r.messages == FlagMessages(c.messages, e.messageId)
  {
    match e
    case UserTurn(m, title) =>
      c.(title := if |c.messages| == 0 then title else c.title,
         messages := c.messages + [m])
    case Reply(m) => c.(messages := c.messages + [m])
    case FlagSolution(messageId) => c.(messages := FlagMessages(c.messages, messageId))
  }

  /** `prev.map(conv => conv.id !== id ? conv : edit(conv))`. */
  function Rewrite(convs: seq<Conversation>, id: string, e: Edit): (r: seq<Conversation>)
    ensures |r| == |convs|
    ensures forall i :: 0 <= i < |convs| ==> r[i].id == convs[i].id
    ensures forall i :: 0 <= i < |convs| && convs[i].id != id ==> r[i] == convs[i]
    ensures forall i :: 0 <= i < |convs| && convs[i].id == id ==> r[i] == Apply(convs[i], e)
  {
    seq(|convs|, i requires 0 <= i < |convs| => if convs[i].id == id then Apply(convs[i], e) else convs[i])
  }

  /** `prev.filter(c => c.id !== id)`. */
  function Without(convs: seq<Conversation>, id: string): (r: seq<Conversation>)
    ensures |r| <= |convs|
    ensures forall i :: 0 <= i < |r| ==> r[i].id != id
    ensures (forall i :: 0 <= i < |convs| ==> convs[i].id != id) ==> r == convs
  {
    if convs == [] then []
    else if convs[0].id == id then Without(convs[1..], id)
    else [convs[0]] + Without(convs[1..], id)
  }

  /**
   * The filter works element by element and keeps the survivors in their
   * original order: filtering a concatenation concatenates the filtered
   * parts, and one conversation is kept exactly when its id differs.
   */
  lemma {:induction false} WithoutKeepsOrder(a: seq<Conversation>, b: seq<Conversation>, id: string)
    ensures Without(a + b, id) == Without(a, id) + Without(b, id)
    ensures forall c :: Without([c], id) == if c.id == id then [] else [c]
  {
    if a != [] {
      assert (a + b)[1..] == a[1..] + b;
      WithoutKeepsOrder(a[1..], b, id);
    } else {
      assert a + b == b;
    }
    forall c ensures Without([c], id) == if c.id == id then [] else [c] {
      assert [c][1..] == [];
    }
  }

  /** The filter keeps exactly the conversations whose id differs. */
  lemma {:induction false} WithoutMembers(convs: seq<Conversation>, id: string, c: Conversation)
    ensures c in Without(convs, id) <==> c in convs && c.id != id
  {
    if convs != [] {
      WithoutMembers(convs[1..], id, c);
      assert convs == [convs[0]] + convs[1..];
    }
  }

  /** The first conversation left by the filter is the first of the original list that survives it. */
  lemma {:induction false} FirstRemaining(convs: seq<Conversation>, id: string) returns (k: nat)
    requires Without(convs, id) != []
    ensures k < |convs| && convs[k] == Without(convs, id)[0]
    ensures forall j :: 0 <= j < k ==> convs[j].id == id
  {
    if convs[0].id != id {
      return 0;
    }
    var rest := convs[1..];
    assert Without(convs, id) == Without(rest, id);
    var k' := FirstRemaining(rest, id);
    k := k' + 1;
    assert convs[k] == rest[k'];
    forall j | 0 <= j < k ensures convs[j].id == id {
      if j > 0 { assert convs[j] == rest[j - 1]; }
    }
  }

  /** `findIndex(x => x.id === id)`, given the list's ids in order. */
  function FirstIndex(ids: seq<string>, id: string): (r: Option<nat>)
    ensures r.Some? ==> r.value < |ids| && ids[r.value] == id
    ensures r.Some? ==> forall j :: 0 <= j < r.value ==> ids[j] != id
    ensures r.None? ==> forall j :: 0 <= j < |ids| ==> ids[j] != id
  {
    if ids == [] then None
    else if ids[0] == id then Some(0)
    else match FirstIndex(ids[1..], id)
      case None => None
      case Some(k) => Some(k + 1)
  }

  /** The ids of a list of conversations, in order. */
  function ConversationIds(convs: seq<Conversation>): seq<string> {
    seq(|convs|, i requires 0 <= i < |convs| => convs[i].id)
  }

  /** The ids of a list of messages, in order. */
  function MessageIds(msgs: seq<Message>): seq<string> {
    seq(|msgs|, i requires 0 <= i < |msgs| => msgs[i].id)
  }

  /** `convs.find(c => c.id === id)`: the first conversation with that id. */
  function Find(convs: seq<Conversation>, id: string): (r: Option<Conversation>)
    ensures r.Some? ==> r.value in convs && r.value.id == id
    ensures r.Some? ==>
      FirstIndex(ConversationIds(convs), id).Some? && r.value == convs[FirstIndex(ConversationIds(convs), id).value]
    ensures r.None? <==> forall j :: 0 <= j < |convs| ==> convs[j].id != id
  {
    match FirstIndex(ConversationIds(convs), id)
    case None =>
      assert forall j :: 0 <= j < |convs| ==> ConversationIds(convs)[j] == convs[j].id;
      None
    case Some(k) => Some(convs[k])
  }

  /**
   * After a rewrite addressed to `id`, looking up `id` finds the edited
   * conversation, and looking up any other id finds what it found before.
   */
  lemma FindAfterRewrite(convs: seq<Conversation>, id: string, e: Edit, x: string)
    ensures x != id ==> Find(Rewrite(convs, id, e), x) == Find(convs, x)
    ensures x == id ==>
      Find(Rewrite(convs, id, e), x) == (if Find(convs, x).Some? then Some(Apply(Find(convs, x).value, e)) else None)
  {
    assert ConversationIds(Rewrite(convs, id, e)) == ConversationIds(convs);
  }

  /** The thread id sent with a message: `currentConv?.threadId || ''`. */
  function ThreadIdOf(convs: seq<Conversation>, id: string): (threadId: string)
    ensures Find(convs, id).Some? ==> threadId == Find(convs, id).value.threadId
    ensures Find(convs, id).None? ==> threadId == ""
  {
    match Find(convs, id)
    case Some(c) => c.threadId
    case None => ""
  }

  /** `activeConversation?.messages ?? []`. */
  function MessagesIn(convs: seq<Conversation>, id: string): (msgs: seq<Message>)
    ensures Find(convs, id).Some? ==> msgs == Find(convs, id).value.messages
    ensures Find(convs, id).None? ==> msgs == []
  {
    match Find(convs, id)
    case Some(c) => c.messages
    case None => []
  }

  /** `messages.some(m => m.isSolution)`. */
  function AnySolution(msgs: seq<Message>): (locked: bool)
    ensures locked <==> exists i :: 0 <= i < |msgs| && IsSolution(msgs[i])
  {
    if msgs == [] then false
    else IsSolution(msgs[0]) || AnySolution(msgs[1..])
  }

  /** Appending an unflagged message never locks or unlocks a conversation. */
  lemma AppendKeepsLock(msgs: seq<Message>, m: Message)
    requires !IsSolution(m)
    ensures AnySolution(msgs + [m]) == AnySolution(msgs)
  {
    var s := msgs + [m];
    if AnySolution(s) {
      var i :| 0 <= i < |s| && IsSolution(s[i]);
      assert i < |msgs| && msgs[i] == s[i];
    }
    if AnySolution(msgs) {
      var i :| 0 <= i < |msgs| && IsSolution(msgs[i]);
      assert s[i] == msgs[i];
    }
  }

  /** Flagging locks the conversation exactly when it held the message or was already locked. */
  lemma FlagLocks(msgs: seq<Message>, id: string)
    ensures AnySolution(FlagMessages(msgs, id)) <==> AnySolution(msgs) || FirstIndex(MessageIds(msgs), id).Some?
  {
    var r := FlagMessages(msgs, id);
    if FirstIndex(MessageIds(msgs), id).Some? {
      var k := FirstIndex(MessageIds(msgs), id).value;
      assert IsSolution(r[k]);
    }
    if AnySolution(msgs) {
      var i :| 0 <= i < |msgs| && IsSolution(msgs[i]);
      assert IsSolution(r[i]);
    }
    if AnySolution(r) {
      var i :| 0 <= i < |r| && IsSolution(r[i]);
      if msgs[i].id == id {
        assert MessageIds(msgs)[i] == id;
      } else {
        assert IsSolution(msgs[i]);
      }
    }
  }

  /** A rewrite leaves what every other id finds untouched. */
  lemma RewriteKeepsOthers(convs: seq<Conversation>, id: string, e: Edit)
    ensures forall x :: x != id ==> Find(Rewrite(convs, id, e), x) == Find(convs, x)
  {
    forall x | x != id ensures Find(Rewrite(convs, id, e), x) == Find(convs, x) {
      FindAfterRewrite(convs, id, e, x);
    }
  }

  /** A rewrite addressed to an id no conversation has changes nothing. */
  lemma RewriteAbsent(convs: seq<Conversation>, id: string, e: Edit)
    requires Find(convs, id).None?
    ensures Rewrite(convs, id, e) == convs
  {
  }

  /** A reply lands at the end of the addressed conversation's messages, if it still exists. */
  lemma ReplyView(convs: seq<Conversation>, id: string, m: Message)
    ensures Find(convs, id).Some? ==> MessagesIn(Rewrite(convs, id, Reply(m)), id) == MessagesIn(convs, id) + [m]
    ensures Find(convs, id).None? ==> Rewrite(convs, id, Reply(m)) == convs
  {
    FindAfterRewrite(convs, id, Reply(m), id);
    if Find(convs, id).None? {
      RewriteAbsent(convs, id, Reply(m));
    }
  }

  /**
   * A user turn appends the message to the addressed conversation's view
   * and titles the conversation exactly when it had no messages.
   */
  lemma UserTurnView(convs: seq<Conversation>, id: string, m: Message, title: string)
    requires Find(convs, id).Some?
    ensures Find(Rewrite(convs, id, UserTurn(m, title)), id).Some?
    ensures MessagesIn(Rewrite(convs, id, UserTurn(m, title)), id) == MessagesIn(convs, id) + [m]
    ensures Find(Rewrite(convs, id, UserTurn(m, title)), id).value.title ==
      (if MessagesIn(convs, id) == [] then title else Find(convs, id).value.title)
    ensures !IsSolution(m) ==>
      AnySolution(MessagesIn(Rewrite(convs, id, UserTurn(m, title)), id)) == AnySolution(MessagesIn(convs, id))
  {
    FindAfterRewrite(convs, id, UserTurn(m, title), id);
    if !IsSolution(m) {
      AppendKeepsLock(MessagesIn(convs, id), m);
    }
  }

  /** The addressed conversation's messages after a rewrite are the edited conversation's. */
  lemma MessagesAfterRewrite(convs: seq<Conversation>, id: string, e: Edit)
    ensures Find(convs, id).Some? ==>
      MessagesIn(Rewrite(convs, id, e), id) == Apply(Find(convs, id).value, e).messages
    ensures Find(convs, id).None? ==> MessagesIn(Rewrite(convs, id, e), id) == []
  {
    FindAfterRewrite(convs, id, e, id);
  }

  /**
   * Flagging inside the conversation addressed by `id` locks its view
   * exactly when it was locked or held a message with that id.
   */
  lemma FlagLocksConversation(convs: seq<Conversation>, id: string, messageId: string)
    ensures var after := MessagesIn(Rewrite(convs, id, FlagSolution(messageId)), id);
            var before := MessagesIn(convs, id);
            AnySolution(after) <==> AnySolution(before) || FirstIndex(MessageIds(before), messageId).Some?
  {
    FlaggedView(convs, id, messageId);
    FlagLocks(MessagesIn(convs, id), messageId);
  }

  /** Flagging through a rewrite flags the addressed conversation's view. */
  lemma FlaggedView(convs: seq<Conversation>, id: string, messageId: string)
    ensures MessagesIn(Rewrite(convs, id, FlagSolution(messageId)), id) == FlagMessages(MessagesIn(convs, id), messageId)
  {
    MessagesAfterRewrite(convs, id, FlagSolution(messageId));
    if Find(convs, id).None? {
      assert FlagMessages([], messageId) == [];
    }
  }

  /**
   * `question` is the content of the nearest user message strictly before
   * position `k`, or the empty string when there is none.
   */
  ghost predicate IsNearestQuestion(msgs: seq<Message>, k: nat, question: string)
    requires k <= |msgs|
  {
    || (exists j :: 0 <= j < k && msgs[j].role == User && question == msgs[j].content
                    && forall i :: j < i < k ==> msgs[i].role != User)
    || ((forall i :: 0 <= i < k ==> msgs[i].role != User) && question == "")
  }

  /** The backward scan of `markAsSolution` for the question a message answers. */
  method NearestQuestion(msgs: seq<Message>, answerIndex: nat) returns (question: string)
    requires answerIndex < |msgs|
    ensures IsNearestQuestion(msgs, answerIndex, question)
  {
    question := "";
    var i: int := answerIndex - 1;
    while i >= 0
      invariant -1 <= i < answerIndex
      invariant forall j :: i < j < answerIndex ==> msgs[j].role != User
    {
      if msgs[i].role == User {
        question := msgs[i].content;
        return;
      }
      i := i - 1;
    }
  }

  /** The scan's result is determined: at most one string is the nearest question. */
  lemma NearestQuestionUnique(msgs: seq<Message>, k: nat, q1: string, q2: string)
    requires k <= |msgs|
    requires IsNearestQuestion(msgs, k, q1) && IsNearestQuestion(msgs, k, q2)
    ensures q1 == q2
  {
    if j1 :| 0 <= j1 < k && msgs[j1].role == User && q1 == msgs[j1].content
             && forall i :: j1 < i < k ==> msgs[i].role != User {
      var j2 :| 0 <= j2 < k && msgs[j2].role == User && q2 == msgs[j2].content
                && forall i :: j2 < i < k ==> msgs[i].role != User;
      assert j1 == j2;
    }
  }
}
