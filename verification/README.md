# Chat session manager — a Dafny model

This project models the client-side core of a chat front end that talks to a
remote "agent". The centre is the chat session manager (`useChat`). It owns:

- an ordered list of conversations;
- the id of the active conversation;
- an `isLoading` flag.

It sends each user message to the responder and appends the reply, or a fixed
apology, to the conversation the message was sent from. It creates, switches
and deletes conversations. It marks an answer as the solution once a
notification about it has gone through. Around it the model covers:

- the responder client (`api.ts`): the `Message` record, the chat request,
  how a reply or a refusal becomes a message or an error, and the
  status-blind solution notification;
- the preference store (`useSettings`): defaults, stored-over-defaults
  loading, and merge-and-persist updates;
- the authentication callbacks (`auth.config.ts`): which paths need a login,
  and how the user id travels from sign-in to the token to the session, and
  so to the caller id the chat sends.

Files and modules:

| file | module | models |
|---|---|---|
| wrappers.dfy | `Wrappers` | `Option` and `Result` |
| jsstring.dfy | `JsString` | JavaScript `trim`, `startsWith`, `replace(/\n/g, ' ')` |
| api.dfy | `Api` | `src/lib/api.ts` |
| chat.dfy | `Chat` | the values and pure parts of `src/hooks/useChat.ts` |
| session.dfy | `Session` | the state and operations of `src/hooks/useChat.ts` (class `ChatSession`) |
| settings.dfy | `Settings` | `src/hooks/useSettings.ts` (class `PreferenceStore`) |
| auth.dfy | `Auth` | `src/auth.config.ts` |

How the model is built:

- **State is a class.** `ChatSession` holds `conversations: seq<Conversation>`,
  `activeConversationId` and `isLoading`. Each operation reassigns them as one
  whole-collection rewrite, as the source does.
- **Edits are one datatype.** `Chat.Rewrite` applies an `Edit` to every
  conversation with a given id and leaves the others as they are. It models
  `prev.map(conv => conv.id !== id ? conv : ...)`.
- **Waits split an operation in two.** `sendMessage` and `markAsSolution`
  each wait once on the network, so each becomes two methods:
  - `BeginSend` returns a `PendingSend` (the captured conversation id and the
    request). `CompleteSend` applies the responder's abstract answer (a
    `ChatExchange`) to the state as it is when the wait ends.
  - `PrepareSolution` only reads state. `CompleteMarkSolution` applies the
    notification's abstract result.
- **Ids and timestamps are inputs.** Every generated id and every
  `Date.now()` is a parameter.

## What is proved, in short

- **Send guard.** `sendMessage` does nothing, not even setting `isLoading`,
  when the trimmed content is empty, there is no active id, or there is no
  caller id.
- **Phase one.** It appends exactly the typed content, untrimmed, to the
  active conversation and to no other. It titles the conversation only on its
  first message. The title is never empty, because the guard rejects blank
  content.
- **Phase two.** It appends exactly one assistant message to the conversation
  captured at dispatch. That message is never a solution. On success it is the
  reply; otherwise it is the apology. `isLoading` ends false.
- **Deleted during a send.** If the conversation was deleted while the reply
  was pending, the reply is dropped and the list is unchanged.
- **`switchConversation`** is refused while loading.
- **`newChat`** prepends a conversation with no messages, makes it active and
  unlocks the chat view.
- **`deleteConversation`** removes every conversation with the id and keeps
  the others in their original order.
  - If the active one was deleted, the first survivor in the original order
    becomes active, or else a fresh conversation becomes the only one.
  - The list is never empty afterwards, provided the active id named a
    conversation before the call or was the deleted id.
- **`markAsSolution`** sends the content of the nearest earlier user message
  as the question, or `''` if there is none. Its backward loop is proved
  against that definition, and the answer it defines is unique. Messages are
  flagged only after the notification went through. The chat view becomes
  locked exactly when the active conversation held the message or was
  already locked.
- **Settings.** A persisted record loads back to the in-memory record.
  Loading never loses the language field.
- **Auth.** Paths that begin with `/login` or `/signup` are open to everyone.
  Any other path needs a user. The id a user signs in with becomes the caller
  id of the chat.

## Where the code and its intended design differ

The model follows the code:

- **At most one solution is not enforced.** `markAsSolution` flags every
  message with the given id and does not clear earlier flags. It also does
  not check that the message is an assistant message.
- **`switchConversation` does not check that the id exists.**
  - So the active id may name no conversation. `ChatSession.Valid()` ("the
    active id names a conversation") is therefore kept by every operation
    except a switch to an unknown id.
  - In that state, deleting a non-active id that every conversation carries
    leaves zero conversations. `DeleteConversation`'s contract shows this:
    with a non-active id the new list is exactly `Without(old list, id)`.
- **`sendMessage` ignores the lock.** It does not refuse to send while
  `isLoading` is set or while the chat is locked.
- **There is no image argument.** `sendMessage` takes only the content.
- **The notification ignores the HTTP status.** `markSolution` completes on
  any delivered response; only a failed `fetch` is an error.
- **The notification's receiver expects another field.** `markSolution`
  sends `thread_id`, `question` and `answer` (src/lib/api.ts:59-63). The
  solution route reads `messageId` from the body and answers 400 when it is
  missing (src/app/api/solution/route.ts:17-25). Since `markSolution` ignores
  the status, the message is flagged locally all the same. The model follows
  `markSolution`; the route is not part of this model.
- **Deletion during a send drops the reply.** When the conversation was
  deleted while its reply was pending, the reply is appended nowhere.

## Model

| member | source | states |
|---|---|---|
| `JsString.TrimStartSpec` | src/hooks/useChat.ts:57 | the leading trim is a suffix of the text, everything it drops is whitespace, and what remains does not start with whitespace |
| `JsString.TrimEndSpec` | src/hooks/useChat.ts:57 | the trailing trim is a prefix of the text, everything it drops is whitespace, and what remains does not end with whitespace |
| `JsString.TrimSpec` | src/hooks/useChat.ts:57 | `trim()` is empty exactly when the text is all ECMAScript whitespace; otherwise it neither starts nor ends with whitespace and uses only characters of the input |
| `JsString.ReplaceNewlinesSpec` | src/hooks/useChat.ts:51 | the replacement turns every line feed into a space at the same position, leaves no line feed, keeps every other character in place, and the text is blank after it exactly when it was blank before |
| `Api.ChatRequestFor` | src/lib/api.ts:13-29 | the request carries message, thread id and user id unchanged; the language is the given one, or `'pt'` when omitted |
| `Api.ChatRequestRoundTrip` | src/lib/api.ts:24-29 | the JSON body has exactly the fields `message`, `thread_id`, `user_id`, `language`, and reading it back gives the request |
| `Api.ErrorText` | src/lib/api.ts:32-35 | a refusal's text is the body's `detail` when present and non-empty, else `'Falha ao enviar mensagem ao Agente'`; it is never empty |
| `Api.ReplyMessage` | src/lib/api.ts:39-46 | a reply becomes an assistant message, not flagged as a solution, whose content, latency and context give back the reply exactly |
| `Api.ChatOutcome` | src/lib/api.ts:19-46 | `sendMessage` resolves exactly when the status was ok and the body was read; a refusal rejects with `ErrorText(detail)`, a transport failure with a transport error |
| `Api.SolutionRequestRoundTrip` | src/lib/api.ts:59-63 | the notification body has exactly the fields `thread_id`, `question`, `answer`, and reading it back gives the request |
| `Api.SolutionOutcome` | src/lib/api.ts:54-64 | `markSolution` succeeds exactly when the request was delivered, whatever the HTTP status |
| `Chat.CallerId` | src/hooks/useChat.ts:26 | the caller id is the session user's id, or `''` when there is no session, user or id |
| `Chat.SignedInUserIsCaller` | src/hooks/useChat.ts:26 | after sign-in with user `u`, the session-derived caller id is `u.id` |
| `Chat.GenerateTitleSpec` | src/hooks/useChat.ts:50-54 | the title is the cleaned text (newlines to spaces, trimmed) when it has at most 35 characters, else its first 35 plus `…`; at most 36 characters, no line feed, and empty exactly when the content is blank |
| `Chat.OutcomeMessage` | src/hooks/useChat.ts:84-100 | the message appended after the wait is an unflagged assistant message: the reply (same id and fields) on success, the fixed apology on any failure |
| `Chat.FlagMessages` | src/hooks/useChat.ts:174-176 | exactly the messages with the id get `isSolution = true`; every other message is unchanged; the length is kept |
| `Chat.Apply` | src/hooks/useChat.ts:67-75 | an edit never changes a conversation's id, thread id or creation time; the title changes only on a user turn into a conversation with no messages; a user turn or a reply appends exactly its message, and a flag edit flags the messages with the id |
| `Chat.Rewrite` | src/hooks/useChat.ts:67-76 | the rewrite keeps length and ids, edits every conversation with the id and leaves every other conversation equal to what it was |
| `Chat.Without` | src/hooks/useChat.ts:126 | the filter leaves no conversation with the id, never grows the list, and is the identity when no conversation has the id |
| `Chat.WithoutKeepsOrder` | src/hooks/useChat.ts:126 | the filter works element by element and keeps the survivors in their original order: filtering a concatenation concatenates the filtered parts, and a single conversation is kept exactly when its id differs |
| `Chat.WithoutMembers` | src/hooks/useChat.ts:126 | a conversation survives the filter exactly when it was in the list and its id differs |
| `Chat.FirstRemaining` | src/hooks/useChat.ts:126-130 | the first conversation after the filter is the first one of the original list that does not carry the deleted id |
| `Chat.FirstIndex` | src/hooks/useChat.ts:152 | `findIndex` by id gives the first position holding the id, or none when no position holds it; it serves both conversations and messages |
| `Chat.Find` | src/hooks/useChat.ts:43 | the active conversation is the FIRST conversation of the list with the active id, and is absent exactly when no conversation has that id |
| `Chat.FindAfterRewrite` | src/hooks/useChat.ts:67-76 | after a rewrite addressed to one id, that id finds the edited conversation and every other id finds the same conversation as before |
| `Chat.RewriteKeepsOthers` | src/hooks/useChat.ts:67-76 | a rewrite addressed to one id leaves what every other id finds unchanged |
| `Chat.RewriteAbsent` | src/hooks/useChat.ts:85-88 | a rewrite addressed to an id no conversation has leaves the list unchanged, so a reply to a deleted conversation is dropped |
| `Chat.UserTurnView` | src/hooks/useChat.ts:67-76 | a user turn appends exactly the message to the addressed conversation, sets the title only when it had no messages, and an unflagged message leaves its lock as it was |
| `Chat.ReplyView` | src/hooks/useChat.ts:85-100 | a reply is appended at the end of the addressed conversation's messages when it still exists, and changes nothing otherwise |
| `Chat.MessagesAfterRewrite` | src/hooks/useChat.ts:67-76 | the addressed conversation's messages after a rewrite are those of the edited conversation, or none when it does not exist |
| `Chat.ThreadIdOf` | src/hooks/useChat.ts:80-81 | the thread id sent is the addressed conversation's, or `''` when it does not exist |
| `Chat.MessagesIn` | src/hooks/useChat.ts:44 | `messages` is the active conversation's list, or empty when there is no active conversation |
| `Chat.AnySolution` | src/hooks/useChat.ts:47 | the chat is locked exactly when some message of the list is flagged as a solution |
| `Chat.AppendKeepsLock` | src/hooks/useChat.ts:47 | appending an unflagged message neither locks nor unlocks the chat |
| `Chat.FlagLocks` | src/hooks/useChat.ts:170-178 | after flagging, the chat is locked exactly when it was locked before or held a message with that id |
| `Chat.FlaggedView` | src/hooks/useChat.ts:170-178 | flagging through a rewrite flags exactly the addressed conversation's messages |
| `Chat.FlagLocksConversation` | src/hooks/useChat.ts:170-178 | after flagging inside the addressed conversation, its view is locked exactly when it was locked before or held a message with that id |
| `Chat.NearestQuestion` | src/hooks/useChat.ts:157-164 | the backward loop returns the content of the nearest user message strictly before the answer, or `''` when there is none |
| `Chat.NearestQuestionUnique` | src/hooks/useChat.ts:157-164 | at most one string is the nearest question, so the loop's result is determined |
| `Session.ChatSession.constructor` | src/hooks/useChat.ts:29-40 | after mounting there is one empty `'New Chat'` conversation, it is active, nothing is loading and nothing is locked |
| `Session.ChatSession.BeginSend` | src/hooks/useChat.ts:56-81 | a no-op when the trimmed content, the active id or the caller id is empty; otherwise exactly the typed message is appended to the active conversation and to no other, titled on the first message, loading is set, the lock is unchanged, and the request carries the captured thread id and the language |
| `Session.ChatSession.CompleteSend` | src/hooks/useChat.ts:83-103 | exactly one outcome message is appended to the conversation captured at dispatch, nothing if it no longer exists, no other conversation changes, loading ends false |
| `Session.ChatSession.NewChat` | src/hooks/useChat.ts:106-117 | a fresh empty `'New Chat'` conversation is prepended before the old ones in order, becomes active, and the view is empty and unlocked |
| `Session.ChatSession.SwitchConversation` | src/hooks/useChat.ts:119-122 | the active id becomes the given id unless loading, when it is unchanged; conversations are untouched |
| `Session.ChatSession.DeleteConversation` | src/hooks/useChat.ts:124-146 | every conversation with the id is removed; deleting the active one activates the first survivor or a fresh sole conversation; another id leaves the active id alone; the list is non-empty whenever the active id named a conversation or was deleted |
| `Session.ChatSession.PrepareSolution` | src/hooks/useChat.ts:148-165 | nothing without an active conversation holding the message; otherwise the notification carries its thread id, the message content as answer and the nearest earlier user message as question |
| `Session.ChatSession.CompleteMarkSolution` | src/hooks/useChat.ts:166-183 | only after a delivered notification are the messages with the id flagged in the captured conversation; a failure changes nothing; the active view becomes locked as `FlagLocks` says |
| `Settings.Merge` | src/hooks/useSettings.ts:31 | the spread has every field of both records, the later record's value where both have one |
| `Settings.Loaded` | src/hooks/useSettings.ts:18-27 | a stored record is laid over the defaults field by field; with nothing stored or unparseable data the prior settings stay |
| `Settings.LoadedIsComplete` | src/hooks/useSettings.ts:20-22 | loading over complete settings always leaves the language field present |
| `Settings.PersistLoadRoundTrip` | src/hooks/useSettings.ts:31-33 | a persisted complete record loads back as itself |
| `Settings.PreferenceStore.constructor` | src/hooks/useSettings.ts:9-16 | the first render holds the defaults `{language: 'pt'}` |
| `Settings.PreferenceStore.Load` | src/hooks/useSettings.ts:18-27 | the mount effect sets the settings to the stored record over the defaults, or keeps them; storage is untouched |
| `Settings.PreferenceStore.UpdateSettings` | src/hooks/useSettings.ts:29-35 | the settings become the old ones overridden by the updates, untouched fields keep their values, and the stored record equals the new settings and loads back to them |
| `Auth.Authorized` | src/auth.config.ts:12-23 | a public path is always allowed; any other path is allowed exactly when a user is logged in |
| `Auth.PublicPrefixesAuthorized` | src/auth.config.ts:14-20 | every path that merely begins with `/login` or `/signup` is allowed, logged in or not |
| `Auth.LoggingInOnlyWidensAccess` | src/auth.config.ts:13-22 | a logged-in visitor may reach every path, at least all those an anonymous one may |
| `Auth.Jwt` | src/auth.config.ts:24-29 | with a user the token's id becomes the user's id and the other claims stay; without one the token is returned unchanged |
| `Auth.SessionFor` | src/auth.config.ts:30-35 | with a session user its id becomes the token's id and nothing else changes; without one the session is returned unchanged |
| `Auth.SignInIdReachesSession` | src/auth.config.ts:24-35 | sign-in followed by the session callback gives the session user the signed-in user's id |
| `Auth.RefreshKeepsId` | src/auth.config.ts:24-29 | a later token refresh without a user keeps the id recorded at sign-in |

## Left out

- **Foreign I/O and logging.** `fetch`, `response.json()`, `localStorage`,
  `JSON.parse`/`JSON.stringify` and `console` are not modelled. Their results
  are inputs: `Api.ChatExchange`, `Api.SolutionExchange` and
  `Settings.StoredSlot`, where a record is read back as the fields written.
- **Ids and clocks.** `generateId` (`Math.random`) and `Date.now()` are
  inputs. Nothing assumes they are fresh, except one clause of
  `DeleteConversation`: "no conversation with the deleted id remains" needs
  the new id to differ.
- **React mechanics.** Render batching, stale closures, effect scheduling,
  and the interleaving of other operations during an `await` are left out.
  Each operation runs alone. The two phases of `sendMessage` and
  `markAsSolution` are separate calls, and any other call may run between
  them.
- Session.ChatSession.constructor: the state before the mount effect (no conversations, active id `''`) is not modelled. The
  constructor is the state after the effect.
- Chat.GenerateTitle: lengths count Unicode code points, while JavaScript counts UTF-16 code units. The two differ only for
  characters outside the Basic Multilingual Plane.
- Api.ChatOutcome: the success body is taken to have a string `response`. A body without it, or with wrongly typed
  fields, is not modelled. A non-string `detail` is also not modelled.
- Settings.Merge: values are strings. A partial update
  that sets a field to `undefined`, and a parsed value that is not an object,
  are not modelled.
- Auth.Jwt: a signed-in user always has an id
  here.
- **Out of scope.** The UI components, the HTTP proxy routes
  (`src/app/api/*`) and the middleware matcher are not part of this model.
