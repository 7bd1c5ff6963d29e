# django-llm-chat: the conversation orchestrator in Dafny

This project models the core of django-llm-chat, a Django application that
keeps a conversation with a large-language-model provider. A chat session
appends messages (`user`, `assistant` and at most one `system` message) to
a persisted history. It sends the history, or only the newest user message,
to a completion provider. It records each provider call in an audit record
with a status, token counters, the response payload and the set of linked
messages. It keeps cumulative token counters on the chat.

Files:

- `wrappers.dfy`: `Option` and `Result`.
- `models.dfy` (module `Models`): the persisted entities of
  `django_llm_chat/models.py`. `Message` and the two text choices
  `MessageType` and `Status` are values. The chat row (`Chat`) and the call
  record (`LLMCall`) are classes whose fields the methods update in place.
  The database is the class `Store`: a message table kept in creation order
  (creation order stands for `order_by("date_created")`), a call-record
  table and a counter that hands out chat identities. Message identities
  are table positions. The history of a chat is the function `MessagesOf`.
- `llm_chat.dfy` (module `LlmChat`): `django_llm_chat/chat.py`. The request
  and response shaping of `call_llm_via_litellm` are pure functions
  (`Request`, `ShapeResponse`), and the loop that builds the request is the
  method `BuildRequest`. The session is the class `LlmChat.Chat`, whose
  methods append messages, create call records, charge tokens and run a
  whole turn (`SendUserMsgToLLM`).

The completion provider is a parameter of type `Provider`: a function from
a model name and a request to `Replied(completion)` or `Failed`. A turn is
split into `StartTurn` (store the user message, pick the context, open the
call record) and `FinishTurn` (ask the provider, then record the reply).
`FinishTurn` states its result against ghost snapshots of the tables from
before the turn began. Its provider step is `CompleteTurn` and its
recording step is `RecordReply`. `Generate` is the whole provider step as
a function. `SendUserMsgToLLM`'s contract is stated in terms of it.

The invariant of a session (`LlmChat.Chat.Valid`) says three things. The
store is consistent. The chat row exists. Every system message of the chat
sits at the one table position that a ghost field records. From it,
`SystemMessageUnique` proves that the history holds at most one system
message.

A call record keeps a lifecycle (`Models.LLMCall.Valid`): its status is
never `GenerationInProgress`, and it is `New` exactly while it has no
response payload. Every operation that adds or updates call records keeps
this for the whole call table (`Models.Store.CallsValid`).

## Model

| member | source | states |
|---|---|---|
| Models.MessageType.Value | django_llm_chat/models.py:19-24 | the stored role text is non-empty and fits the 10-character column |
| Models.Status.Value | django_llm_chat/models.py:51-59 | the stored status text is non-empty and fits the 30-character column |
| Models.RoleTextsDistinct | django_llm_chat/models.py:19-22 | different roles have different stored texts, so the `role` sent to the provider names exactly one role |
| Models.StatusTextsDistinct | django_llm_chat/models.py:51-54 | different statuses have different stored texts, so the `status` in `to_dict` names exactly one status |
| Models.MessagesOf | django_llm_chat/chat.py:57-58 | a chat's history is no longer than the message table and holds only that chat's messages |
| Models.HistoryMembers | django_llm_chat/chat.py:57-58 | a message is in a chat's history exactly when it is in the table and belongs to that chat |
| Models.HistoryInCreationOrder | django_llm_chat/chat.py:57-58 | when the table is in creation order, so is every chat's history |
| Models.HistoryAfterInsert | django_llm_chat/models.py:31-47 | the definition of `MessagesOf` applied to `all + [m]`: inserting a message grows its own chat's history by exactly that message, at the end, and leaves every other history as it was |
| Models.HistoryOfUnusedChat | django_llm_chat/chat.py:45 | a chat that no message refers to has an empty history |
| Models.CountKind | django_llm_chat/chat.py:128 | the count of messages of a role is 0 exactly when no message has that role, and never exceeds the length |
| Models.IdSet | django_llm_chat/models.py:56 | the message-id set of a sequence is exactly the set of its ids, so repeated messages collapse, and it is no larger than the sequence |
| Models.AtMostOneInHistory | django_llm_chat/chat.py:127-133 | if no two messages of a chat share a role, that chat's history holds at most one message of the role |
| Models.Chat.constructor | django_llm_chat/models.py:9-10 | a new chat row starts with both token counters at 0 |
| Models.Chat.AddTokenCounts | django_llm_chat/models.py:12-15 | each counter grows by its argument, and nothing else changes |
| Models.LLMCall.constructor | django_llm_chat/models.py:56-64 | a new call record has status `New`, no response payload, no linked messages and both counters at 0 |
| Models.LLMCall.AddResponseData | django_llm_chat/models.py:71-78 | the counters grow by the given amounts, the payload is stored, the status becomes `GenerationCompleted`, the linked messages stay, and the lifecycle invariant holds |
| Models.LLMCall.AddMessage | django_llm_chat/models.py:80-81 | the linked set gains the message's id; adding a linked message changes nothing; the lifecycle invariant is unaffected |
| Models.LLMCall.ToDict | django_llm_chat/models.py:83-88 | the dictionary has exactly the keys `id`, `status`, `response_data`, holding the id, the status text and the payload or null |
| Models.Store.CreateChat | django_llm_chat/chat.py:45 | a fresh chat row with a new identity and zero counters; the tables are unchanged |
| Models.Store.Insert | django_llm_chat/models.py:33-38 | one row is appended with the next identity and the given fields; earlier rows are unchanged |
| Models.Store.CreateUserMessage | django_llm_chat/models.py:31-38 | appends one `user` message in the given chat with the given text and author |
| Models.Store.CreateLLMMessage | django_llm_chat/models.py:40-47 | appends one `assistant` message in the given chat with the given text and author |
| Models.Store.CreateSystemMessage | django_llm_chat/chat.py:133 | appends one `system` message in the given chat with the given text and author |
| Models.Store.CreateLLMCall | django_llm_chat/models.py:62-69 | appends a fresh call record in status `New` whose linked set is the id set of the given messages, with zero counters and no payload; every record in the call table still keeps the call lifecycle |
| LlmChat.Request | django_llm_chat/chat.py:66-68 | the request has one element per message, in order, with the message's text as `content` and its role text as `role` |
| LlmChat.BuildRequest | django_llm_chat/chat.py:66-68 | the loop builds exactly `Request` of its input |
| LlmChat.ShapeResponse | django_llm_chat/chat.py:75-90 | a failed call is a transport error; the result is a success exactly when the reply's message has `role` and textual `content`; the text is that content; the envelope has exactly the keys `message`, `id`, `model`, `usage`, and its `message` is the provider message without `content` and `role` |
| LlmChat.CallLLMViaLiteLLM | django_llm_chat/chat.py:63-90 | the result is the shaped provider reply to the request built from the messages |
| LlmChat.UsageTokens | django_llm_chat/chat.py:112-113 | the two counts are read exactly when `usage` holds integer `prompt_tokens` and `completion_tokens`, and then they are those two integers |
| LlmChat.Generate | django_llm_chat/chat.py:110-113 | the whole provider step; its meaning is stated by `ChargedTokensAreReportedUsage` |
| LlmChat.ChargedTokensAreReportedUsage | django_llm_chat/chat.py:110-113 | a provider step succeeds exactly when the reply is well formed and reports integer `prompt_tokens` and `completion_tokens`, and then the charged counts are those two numbers and the text is the reply's content |
| LlmChat.Chat.HasSystemMessage | django_llm_chat/chat.py:128 | the guard query; its meaning is stated by `SystemGuardMatchesHistory` |
| LlmChat.Chat.SystemGuardMatchesHistory | django_llm_chat/chat.py:128-129 | the duplicate guard fires exactly when the chat's history holds a system message |
| LlmChat.Chat.SystemMessageUnique | django_llm_chat/chat.py:127-133 | in a consistent session the history holds at most one system message |
| LlmChat.Chat.Create | django_llm_chat/chat.py:33-46 | a session over a fresh chat row, bound to the two given authors, with an empty history and zero counters; the tables are unchanged |
| LlmChat.Chat.GetMsgHistory | django_llm_chat/chat.py:57-58 | `get_msg_history`; its meaning is stated by `HistoryIsChatInCreationOrder` |
| LlmChat.Chat.HistoryIsChatInCreationOrder | django_llm_chat/chat.py:57-58 | the history holds exactly the chat's messages, in creation order |
| LlmChat.Chat.CreateUserMessage | django_llm_chat/chat.py:48-55 | appends exactly one `user` message with the text, authored by the given user or else the default user; earlier messages and the session invariant are kept, and the history grows by that message |
| LlmChat.Chat.CreateSystemMessageAsWritten | django_llm_chat/chat.py:127-133 | as written the operation never stores a message; it fails with the duplicate error exactly when the guard fires and otherwise on the undefined class method |
| LlmChat.Chat.CreateSystemMessage | django_llm_chat/chat.py:127-133 | fails with `DuplicateSystemMessageError`, changing no message, exactly when a system message exists; otherwise appends one `system` message with the text and author, keeping the invariant |
| LlmChat.Chat.CreateLLMCall | django_llm_chat/chat.py:60-61 | appends a fresh call record over the id set of the given messages, in status `New`; messages are unchanged; the call table keeps the call lifecycle |
| LlmChat.Chat.AddTokens | django_llm_chat/chat.py:92-93 | the chat's counters grow by the two counts |
| LlmChat.Chat.StartTurn | django_llm_chat/chat.py:98-108 | the user message is appended; the context is the whole history, ending with it, or only it; a fresh `New` call record over the context's ids is appended; the call table keeps the call lifecycle |
| LlmChat.Chat.RecordReply | django_llm_chat/chat.py:115-123 | counters of chat and call grow by the counts, the call is completed with the envelope, an `assistant` message authored by the model is appended and linked to the call |
| LlmChat.Chat.CompleteTurn | django_llm_chat/chat.py:110-123 | succeeds exactly when `Generate` does; on failure nothing changes; on success the reply is recorded as in `RecordReply` with the reported counts; the call table keeps the call lifecycle |
| LlmChat.Chat.FinishTurn | django_llm_chat/chat.py:110-125 | succeeds exactly when `Generate` does; the call table keeps the turn's call; on failure the tables, the counters and the `New` call stay as the first half left them; on success the table and the history end with the user message and then the assistant reply, the counters grow once by the reported usage, and the call is completed with that usage and links the context plus the reply; every record in the call table keeps the call lifecycle |
| LlmChat.Chat.SendUserMsgToLLM | django_llm_chat/chat.py:95-125 | on success: the history grows by exactly the user message and then the assistant reply; the counters grow once by the reported usage; the new call is completed, carries that usage and links the context plus the reply. On failure: the user message and a `New` call record without payload over the context remain; the counters are unchanged; no assistant message is added. Either way every record in the call table is still `New` without payload or `GenerationCompleted` with one |

## Left out

- The provider call through `litellm.completion` (django_llm_chat/chat.py:70-73) is the `Provider` parameter. Retries, timeouts and streaming are not modelled.
- Exceptions raised by the provider, a missing `content` or `role` key, non-textual `content`, and missing or non-integer usage counts all become one of the two `ProviderError` values. The model does not tell the Python exception types apart.
- LlmChat.ShapeResponse: a `content` that is not a string (for example null on a tool-calling reply) is treated as a malformed response, with nothing changed. As written, the source charges the tokens and completes the call first, and only then fails to store the null text as the assistant message.
- LlmChat.Chat.SendUserMsgToLLM: only integer usage counts are accepted; anything else fails the turn with nothing changed. The source differs in two ways. First, float counts do not fail there: `int += float` works and the integer column stores the value truncated. Second, when `prompt_tokens` is a number and `completion_tokens` is not (for example null), the source raises inside `add_token_counts` after raising the in-memory input counter but before saving. The session keeps that same chat object, so the next successful turn's save also writes the failed turn's `prompt_tokens`. The model carries neither effect: its counters grow by exactly the reported usage of successful turns.
- User bootstrapping through `get_user_model`, `create_user` and passwords (django_llm_chat/chat.py:12-21, 35-43) is not modelled. Users are opaque ids given to `LlmChat.Chat.Create`. The model claims nothing about resolving the model's user. Its lookup name `"litellm"` differs from the name it creates, `"djllmchat-user"`, so a second session creation would try to create that user again.
- Timestamps (`date_created`, `date_updated`), `save()` and the ORM query machinery are not modelled. Creation order in the message table stands for `date_created` order.
- Concurrency is not modelled: the check-then-act race in `create_system_message` and the read-modify-write counters. The model is sequential.
- Integer columns are unbounded `int`. The 32-bit range of Django's `IntegerField` is not modelled.
- The `max_length` limits of the two text-choice columns are stated about the choice texts. Message text length is not limited, matching `TextField`.
- `django_llm_chat/admin.py` (admin list display) is not part of this model.

## Findings

| source | as written | input that shows it | evidently intended | confidence | as-written member | corrected member |
|---|---|---|---|---|---|---|
| django_llm_chat/chat.py:133 | `create_system_message` calls `Message.create_system_message`, a class method that `django_llm_chat/models.py` does not define | any chat with no system message: the guard passes, and the call then fails looking up the method | append one `system` message, in the way `create_user_message` and `create_llm_message` append theirs | not executed; the class method is absent from models.py | LlmChat.Chat.CreateSystemMessageAsWritten | LlmChat.Chat.CreateSystemMessage |
