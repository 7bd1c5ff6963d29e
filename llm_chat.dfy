/**
 * The conversation orchestrator: one chat session bound to two authors
 * (the model and a default human), which appends messages, builds the
 * provider request from the ordered history, records each provider call
 * and keeps the chat's token accounting.
 *
 * The completion provider is a parameter: a function from a model name
 * and a request to either a completion or a failure.
 */
module LlmChat {
  import opened Wrappers
  import opened Models

  /** Raised when a chat already holds a system message. */
  datatype DuplicateSystemMessageError = DuplicateSystemMessageError

  /**
   * How `create_system_message` fails as written: the duplicate guard, or
   * the lookup of the `Message.create_system_message` class method, which
   * the message model does not define.
   */
  datatype SystemMessageFailure = Duplicate | UndefinedClassMethod

  /** Why a provider step failed: the call itself, or an unusable response shape. */
  datatype ProviderError = TransportFailure | MalformedResponse

  /** One element of the provider request: `{"content": ..., "role": ...}`. */
  datatype ProviderMessage = ProviderMessage(content: string, role: string)

  /**
   * The parts of a completion response the orchestrator reads: the
   * response id, the model used, the first choice's message as a
   * dictionary and the usage block as a dictionary.
   */
  datatype Completion = Completion(id: string, model: string, message: map<string, Json>, usage: map<string, Json>)

  datatype ProviderReply = Replied(completion: Completion) | Failed

  type Provider = (string, seq<ProviderMessage>) -> ProviderReply

  /** The response text and the `response_data` envelope built from a completion. */
  datatype Shaped = Shaped(text: string, data: map<string, Json>)

  /** A successful provider step: the shaped response and the two usage counts read from it. */
  datatype Generation = Generation(text: string, data: map<string, Json>, promptTokens: int, completionTokens: int)

  /** What a successful turn returns: the assistant message, the user message and the call record. */
  datatype Turn = Turn(llmMsg: Message, userMsg: Message, call: LLMCall)

  /** The provider request for `msgs`: one `{content, role}` pair per message, in order. */
  function Request(msgs: seq<Message>): (r: seq<ProviderMessage>)
    ensures |r| == |msgs|
    ensures forall i :: 0 <= i < |msgs| ==> r[i].content == msgs[i].text && r[i].role == msgs[i].kind.Value()
  {
    if msgs == [] then []
    else
      var last := msgs[|msgs| - 1];
      Request(msgs[..|msgs| - 1]) + [ProviderMessage(last.text, last.kind.Value())]
  }

  /** Builds the provider request one message at a time. */
  method BuildRequest(msgs: seq<Message>) returns (r: seq<ProviderMessage>)
    ensures r == Request(msgs)
  {
    r := [];
    var i := 0;
    while i < |msgs|
      invariant 0 <= i <= |msgs|
      invariant r == Request(msgs[..i])
    {
      assert msgs[..i + 1][..i] == msgs[..i];
      r := r + [ProviderMessage(msgs[i].text, msgs[i].kind.Value())];
      i := i + 1;
    }
    assert msgs[..i] == msgs;
  }

  /** A first-choice message that has both a `role` and a textual `content` entry. */
  predicate WellFormedMessage(message: map<string, Json>)
  {
    "role" in message && "content" in message && message["content"].JString?
  }

  /**
   * Splits a provider reply into the response text and the
   * `response_data` envelope: the message without `content` and `role`,
   * the response id, the model and the usage block.
   */
  function ShapeResponse(reply: ProviderReply): (r: Result<Shaped, ProviderError>)
    ensures reply.Failed? ==> r == Err(TransportFailure)
    ensures r.Ok? <==> reply.Replied? && WellFormedMessage(reply.completion.message)
    ensures r.Ok? ==>
      var c := reply.completion;
      && r.value.text == c.message["content"].s
      && r.value.data.Keys == {"message", "id", "model", "usage"}
      && r.value.data["id"] == JString(c.id)
      && r.value.data["model"] == JString(c.model)
      && r.value.data["usage"] == JObject(c.usage)
      && r.value.data["message"].JObject?
      && r.value.data["message"].fields.Keys == c.message.Keys - {"content", "role"}
      && forall k :: k in r.value.data["message"].fields ==> r.value.data["message"].fields[k] == c.message[k]
  {
    match reply
    case Failed => Err(TransportFailure)
    case Replied(c) =>
      if !WellFormedMessage(c.message) then Err(MalformedResponse)
      else
        var stripped := c.message - {"content", "role"};
        Ok(Shaped(c.message["content"].s,
                  map["message" := JObject(stripped), "id" := JString(c.id),
                      "model" := JString(c.model), "usage" := JObject(c.usage)]))
  }

  /** Sends `msgs` to the provider under `modelName` and shapes its reply. */
  method CallLLMViaLiteLLM(provider: Provider, modelName: string, msgs: seq<Message>) returns (r: Result<Shaped, ProviderError>)
    ensures r == ShapeResponse(provider(modelName, Request(msgs)))
  {
    var request := BuildRequest(msgs);
    var reply := provider(modelName, request);
    r := ShapeResponse(reply);
  }

  /** `response_data["usage"]["prompt_tokens"]` and `["completion_tokens"]`, when both are integers. */
  function UsageTokens(data: map<string, Json>): (r: Option<(int, int)>)
    ensures r.Some? <==>
      && "usage" in data && data["usage"].JObject?
      && "prompt_tokens" in data["usage"].fields && data["usage"].fields["prompt_tokens"].JInt?
      && "completion_tokens" in data["usage"].fields && data["usage"].fields["completion_tokens"].JInt?
    ensures r.Some? ==>
      && data["usage"].fields["prompt_tokens"] == JInt(r.value.0)
      && data["usage"].fields["completion_tokens"] == JInt(r.value.1)
  {
    if "usage" in data && data["usage"].JObject? then
      var usage := data["usage"].fields;
      if "prompt_tokens" in usage && usage["prompt_tokens"].JInt?
         && "completion_tokens" in usage && usage["completion_tokens"].JInt?
      then Some((usage["prompt_tokens"].i, usage["completion_tokens"].i))
      else None
    else None
  }

  /** The whole provider step of a turn over `context`. */
  function Generate(provider: Provider, modelName: string, context: seq<Message>): Result<Generation, ProviderError>
  {
    match ShapeResponse(provider(modelName, Request(context)))
    case Err(e) => Err(e)
    case Ok(shaped) =>
      match UsageTokens(shaped.data)
      case None => Err(MalformedResponse)
      case Some((p, c)) => Ok(Generation(shaped.text, shaped.data, p, c))
  }

  /**
   * The counts charged for a turn are exactly the provider's reported
   * `prompt_tokens` and `completion_tokens`, and the turn fails precisely
   * when the provider fails or its response lacks a field the shaping or
   * the accounting reads.
   */
  lemma ChargedTokensAreReportedUsage(provider: Provider, modelName: string, context: seq<Message>)
    ensures var reply := provider(modelName, Request(context));
      Generate(provider, modelName, context).Ok? <==>
        && reply.Replied?
        && WellFormedMessage(reply.completion.message)
        && "prompt_tokens" in reply.completion.usage && reply.completion.usage["prompt_tokens"].JInt?
        && "completion_tokens" in reply.completion.usage && reply.completion.usage["completion_tokens"].JInt?
    ensures var reply := provider(modelName, Request(context));
      var g := Generate(provider, modelName, context);
      g.Ok? ==>
        && g.value.text == reply.completion.message["content"].s
        && g.value.promptTokens == reply.completion.usage["prompt_tokens"].i
        && g.value.completionTokens == reply.completion.usage["completion_tokens"].i
  {
    var reply := provider(modelName, Request(context));
    var shaped := ShapeResponse(reply);
    if shaped.Ok? {
      assert shaped.value.data["usage"] == JObject(reply.completion.usage);
    }
  }

  /** Appending two messages one after the other is appending the pair. */
  lemma AppendTwice(s: seq<Message>, x: Message, y: Message)
    ensures s + [x] + [y] == s + [x, y]
  {
  }

  /** `chat.Chat`: a session over one chat row, with the model's and the default human's identities. */
  class Chat {
    const store: Store
    const chatDbModel: Models.Chat
    const llmUser: UserId
    const defaultUser: UserId
    /** The position in the message table of this chat's system message, once there is one. */
    ghost var systemMessage: Option<nat>

    /**
     * The store is consistent, the chat row exists, and every system
     * message of this chat sits at the one position `systemMessage` names.
     */
    ghost predicate Valid()
      reads this, store`messages, store`chatCount
    {
      store.Valid() && chatDbModel.id < store.chatCount
      && forall i :: 0 <= i < |store.messages| && store.messages[i].chat == chatDbModel.id && store.messages[i].kind == System ==>
           systemMessage == Some(i)
    }

    /** The query `messages.filter(type=SYSTEM).exists()` on this chat. */
    predicate HasSystemMessage()
      reads this, store`messages
    {
      exists i :: 0 <= i < |store.messages| && store.messages[i].chat == chatDbModel.id && store.messages[i].kind == System
    }

    /** The guard of `create_system_message` holds exactly when the history holds a system message. */
    lemma SystemGuardMatchesHistory()
      ensures HasSystemMessage() <==> CountKind(GetMsgHistory(), System) != 0
    {
      var h := GetMsgHistory();
      HistoryMembers(store.messages, chatDbModel.id);
      if HasSystemMessage() {
        var i :| 0 <= i < |store.messages| && store.messages[i].chat == chatDbModel.id && store.messages[i].kind == System;
        assert store.messages[i] in h;
      }
      if CountKind(h, System) != 0 {
        var k :| 0 <= k < |h| && h[k].kind == System;
        assert h[k] in store.messages;
      }
    }

    /** The chat's history never holds more than one system message. */
    lemma SystemMessageUnique()
      requires Valid()
      ensures CountKind(GetMsgHistory(), System) <= 1
    {
      assert AtMostOneOfKind(store.messages, chatDbModel.id, System);
      AtMostOneInHistory(store.messages, chatDbModel.id, System);
    }

    /**
     * `Chat.create`: a session over a fresh chat row whose history is
     * empty and whose counters are 0. The two authors are given.
     */
    constructor Create(store: Store, llmUser: UserId, defaultUser: UserId)
      requires store.Valid()
      modifies store
      ensures Valid()
      ensures this.store == store && this.llmUser == llmUser && this.defaultUser == defaultUser
      ensures fresh(chatDbModel) && chatDbModel.inputTokensCount == 0 && chatDbModel.outputTokensCount == 0
      ensures GetMsgHistory() == []
      ensures store.messages == old(store.messages) && store.calls == old(store.calls)
    {
      var row := store.CreateChat();
      this.store := store;
      this.chatDbModel := row;
      this.llmUser := llmUser;
      this.defaultUser := defaultUser;
      this.systemMessage := None;
      new;
      HistoryOfUnusedChat(store.messages, row.id);
    }

    /** `get_msg_history`: the messages of this chat, ordered by creation. */
    function GetMsgHistory(): seq<Message>
      reads this, store`messages
    {
      MessagesOf(store.messages, chatDbModel.id)
    }

    /** The history holds every message of this chat and only those, in creation order. */
    lemma HistoryIsChatInCreationOrder()
      requires store.Valid()
      ensures IdsIncreasing(GetMsgHistory())
      ensures forall m :: m in GetMsgHistory() <==> m in store.messages && m.chat == chatDbModel.id
    {
      HistoryInCreationOrder(store.messages, chatDbModel.id);
      HistoryMembers(store.messages, chatDbModel.id);
    }

    /**
     * `create_user_message`: appends one `user` message with `text`,
     * authored by `user` or else by the default user. Earlier messages are
     * unchanged.
     */
    method CreateUserMessage(text: string, user: Option<UserId>) returns (m: Message)
      requires Valid()
      modifies store`messages
      ensures Valid()
      ensures m.kind == User && m.text == text && m.chat == chatDbModel.id
      ensures m.user == (if user.Some? then user.value else defaultUser)
      ensures m.id == |old(store.messages)| && store.messages == old(store.messages) + [m]
      ensures GetMsgHistory() == old(GetMsgHistory()) + [m]
    {
      var author := if user.Some? then user.value else defaultUser;
      m := store.CreateUserMessage(chatDbModel, text, author);
      HistoryAfterInsert(old(store.messages), m, chatDbModel.id);
    }

    /**
     * `create_system_message` as written: past the duplicate guard it calls
     * a class method the message model does not define, so it never stores
     * a message; it fails on every chat, with the duplicate error exactly
     * when the guard fires.
     */
    function CreateSystemMessageAsWritten(): (r: Result<Message, SystemMessageFailure>)
      reads this, store`messages
      ensures r.Err?
      ensures r.error == Duplicate <==> HasSystemMessage()
    {
      if HasSystemMessage() then Err(Duplicate) else Err(UndefinedClassMethod)
    }

    /**
     * `create_system_message`: fails with `DuplicateSystemMessageError`,
     * changing nothing, when the chat already holds a system message;
     * otherwise appends one `system` message, which is then the only one.
     */
    method CreateSystemMessage(text: string, user: Option<UserId>) returns (r: Result<Message, DuplicateSystemMessageError>)
      requires Valid()
      modifies this, store`messages
      ensures Valid()
      ensures r.Err? <==> old(HasSystemMessage())
      ensures r.Err? ==> store.messages == old(store.messages)
      ensures r.Ok? ==>
        && r.value.kind == System && r.value.text == text && r.value.chat == chatDbModel.id
        && r.value.user == (if user.Some? then user.value else defaultUser)
        && store.messages == old(store.messages) + [r.value]
        && GetMsgHistory() == old(GetMsgHistory()) + [r.value]
    {
      if HasSystemMessage() {
        return Err(DuplicateSystemMessageError);
      }
      var author := if user.Some? then user.value else defaultUser;
      var m := store.CreateSystemMessage(chatDbModel, text, author);
      systemMessage := Some(m.id);
      HistoryAfterInsert(old(store.messages), m, chatDbModel.id);
      r := Ok(m);
    }

    /** `create_llm_call`: a new call record over `msgs`. */
    method CreateLLMCall(msgs: seq<Message>) returns (c: LLMCall)
      requires Valid()
      modifies store`calls
      ensures old(store.CallsValid()) ==> store.CallsValid()
      ensures Valid()
      ensures fresh(c) && store.calls == old(store.calls) + [c]
      ensures store.messages == old(store.messages)
      ensures c.messages == IdSet(msgs) && c.status == New && c.responseData == None
      ensures c.inputTokensCount == 0 && c.outputTokensCount == 0
    {
      c := store.CreateLLMCall(msgs);
    }

    /** `add_tokens`: adds the two counts to the chat's cumulative counters. */
    method AddTokens(inputTokenCount: int, outputTokenCount: int)
      modifies chatDbModel
      ensures chatDbModel.inputTokensCount == old(chatDbModel.inputTokensCount) + inputTokenCount
      ensures chatDbModel.outputTokensCount == old(chatDbModel.outputTokensCount) + outputTokenCount
    {
      chatDbModel.AddTokenCounts(inputTokenCount, outputTokenCount);
    }

    /**
     * The head of a turn, before the provider is asked: stores the user
     * message, assembles the context (the whole history, which now ends
     * with that message, or only that message) and opens a call record
     * over it.
     */
    method StartTurn(text: string, user: Option<UserId>, includeChatHistory: bool)
      returns (userMsg: Message, context: seq<Message>, call: LLMCall)
      requires Valid()
      modifies store`messages, store`calls
      ensures old(store.CallsValid()) ==> store.CallsValid()
      ensures Valid()
      ensures userMsg == Message(|old(store.messages)|, chatDbModel.id, User, text, if user.Some? then user.value else defaultUser)
      ensures store.messages == old(store.messages) + [userMsg]
      ensures GetMsgHistory() == old(GetMsgHistory()) + [userMsg]
      ensures context == if includeChatHistory then GetMsgHistory() else [userMsg]
      ensures fresh(call) && store.calls == old(store.calls) + [call]
      ensures call.messages == IdSet(context) && call.status == New && call.responseData == None
      ensures call.inputTokensCount == 0 && call.outputTokensCount == 0
    {
      var author := if user.Some? then user.value else defaultUser;
      userMsg := CreateUserMessage(text, Some(author));
      context := if includeChatHistory then GetMsgHistory() else [userMsg];
      call := CreateLLMCall(context);
    }

    /**
     * The tail of a successful turn: charges the chat, completes the call
     * with the response envelope, and stores the assistant reply, authored
     * by the model, linking it to the call.
     */
    method RecordReply(call: LLMCall, shaped: Shaped, inputTokenCount: int, outputTokenCount: int) returns (llmMsg: Message)
      requires Valid()
      modifies store`messages, chatDbModel, call
      ensures Valid()
      ensures llmMsg == Message(|old(store.messages)|, chatDbModel.id, Assistant, shaped.text, llmUser)
      ensures store.messages == old(store.messages) + [llmMsg]
      ensures GetMsgHistory() == old(GetMsgHistory()) + [llmMsg]
      ensures chatDbModel.inputTokensCount == old(chatDbModel.inputTokensCount) + inputTokenCount
      ensures chatDbModel.outputTokensCount == old(chatDbModel.outputTokensCount) + outputTokenCount
      ensures call.status == GenerationCompleted && call.responseData == Some(shaped.data)
      ensures call.inputTokensCount == old(call.inputTokensCount) + inputTokenCount
      ensures call.outputTokensCount == old(call.outputTokensCount) + outputTokenCount
      ensures call.messages == old(call.messages) + {llmMsg.id}
    {
      AddTokens(inputTokenCount, outputTokenCount);
      call.AddResponseData(shaped.data, inputTokenCount, outputTokenCount);
      llmMsg := store.CreateLLMMessage(chatDbModel, shaped.text, llmUser);
      HistoryAfterInsert(old(store.messages), llmMsg, chatDbModel.id);
      call.AddMessage(llmMsg);
    }

    /**
     * The provider step of a turn and, when it succeeds, the recording of
     * its reply. When the provider fails or its response lacks a field that
     * is read, nothing has been changed yet.
     */
    method CompleteTurn(provider: Provider, modelName: string, context: seq<Message>, call: LLMCall)
      returns (r: Result<Message, ProviderError>)
      requires Valid()
      modifies store`messages, chatDbModel, call
      ensures old(store.CallsValid()) ==> store.CallsValid()
      ensures Valid()
      ensures var g := Generate(provider, modelName, context);
        && (r.Ok? <==> g.Ok?)
        && (r.Err? ==>
              && r.error == g.error
              && store.messages == old(store.messages)
              && chatDbModel.inputTokensCount == old(chatDbModel.inputTokensCount)
              && chatDbModel.outputTokensCount == old(chatDbModel.outputTokensCount)
              && call.messages == old(call.messages) && call.status == old(call.status)
              && call.responseData == old(call.responseData)
              && call.inputTokensCount == old(call.inputTokensCount)
              && call.outputTokensCount == old(call.outputTokensCount))
        && (r.Ok? ==>
              && r.value == Message(|old(store.messages)|, chatDbModel.id, Assistant, g.value.text, llmUser)
              && store.messages == old(store.messages) + [r.value]
              && GetMsgHistory() == old(GetMsgHistory()) + [r.value]
              && chatDbModel.inputTokensCount == old(chatDbModel.inputTokensCount) + g.value.promptTokens
              && chatDbModel.outputTokensCount == old(chatDbModel.outputTokensCount) + g.value.completionTokens
              && call.status == GenerationCompleted && call.responseData == Some(g.value.data)
              && call.inputTokensCount == old(call.inputTokensCount) + g.value.promptTokens
              && call.outputTokensCount == old(call.outputTokensCount) + g.value.completionTokens
              && call.messages == old(call.messages) + {r.value.id})
    {
      var shaped := CallLLMViaLiteLLM(provider, modelName, context);
      if shaped.Err? {
        return Err(shaped.error);
      }
      var tokens := UsageTokens(shaped.value.data);
      if tokens.None? {
        return Err(MalformedResponse);
      }
      var (inputTokenCount, outputTokenCount) := tokens.value;
      var llmMsg := RecordReply(call, shaped.value, inputTokenCount, outputTokenCount);
      r := Ok(llmMsg);
    }

    /**
     * The second half of a turn, after `userMsg` was stored and `call`
     * created, stated against the ghost snapshots `m0`, `h0` and `calls0`
     * of the message table, the history and the call table from before the
     * turn began.
     */
    method FinishTurn(provider: Provider, modelName: string, userMsg: Message, context: seq<Message>, call: LLMCall,
                      ghost m0: seq<Message>, ghost h0: seq<Message>, ghost calls0: seq<LLMCall>)
      returns (r: Result<Turn, ProviderError>)
      requires Valid()
      requires store.messages == m0 + [userMsg] && GetMsgHistory() == h0 + [userMsg] && store.calls == calls0 + [call]
      requires call.status == New && call.responseData == None && call.messages == IdSet(context)
      requires call.inputTokensCount == 0 && call.outputTokensCount == 0
      modifies store`messages, chatDbModel, call
      ensures old(store.CallsValid()) ==> store.CallsValid()
      ensures Valid()
      ensures
        var g := Generate(provider, modelName, context);
        && (r.Ok? <==> g.Ok?)
        && store.calls == calls0 + [call]
        && (r.Err? ==>
              && r.error == g.error
              && store.messages == m0 + [userMsg]
              && GetMsgHistory() == h0 + [userMsg]
              && chatDbModel.inputTokensCount == old(chatDbModel.inputTokensCount)
              && chatDbModel.outputTokensCount == old(chatDbModel.outputTokensCount)
              && call.status == New && call.responseData == None && call.messages == IdSet(context)
              && call.inputTokensCount == 0 && call.outputTokensCount == 0)
        && (r.Ok? ==>
              var a := Message(|m0| + 1, chatDbModel.id, Assistant, g.value.text, llmUser);
              && r.value.userMsg == userMsg && r.value.llmMsg == a && r.value.call == call
              && store.messages == m0 + [userMsg, a]
              && GetMsgHistory() == h0 + [userMsg, a]
              && chatDbModel.inputTokensCount == old(chatDbModel.inputTokensCount) + g.value.promptTokens
              && chatDbModel.outputTokensCount == old(chatDbModel.outputTokensCount) + g.value.completionTokens
              && call.status == GenerationCompleted && call.responseData == Some(g.value.data)
              && call.inputTokensCount == g.value.promptTokens && call.outputTokensCount == g.value.completionTokens
              && call.messages == IdSet(context) + {a.id})
    {
      var reply := CompleteTurn(provider, modelName, context, call);
      if reply.Err? {
        return Err(reply.error);
      }
      var llmMsg := reply.value;
      AppendTwice(m0, userMsg, llmMsg);
      AppendTwice(h0, userMsg, llmMsg);
      r := Ok(Turn(llmMsg, userMsg, call));
    }

    /**
     * `send_user_msg_to_llm`: one user turn.
     *
     * The user message is stored first and a call record over the context
     * (the whole history, or only that message) is created before the
     * provider is asked. On success the chat's counters grow by the
     * reported usage exactly once, the call is completed with the response
     * envelope, and the assistant reply is stored and linked to the call.
     * On failure nothing is rolled back: the user message and a call record
     * in status `New` with no response data stay behind, and the counters
     * are unchanged.
     */
    method SendUserMsgToLLM(provider: Provider, modelName: string, text: string, user: Option<UserId>, includeChatHistory: bool)
      returns (r: Result<Turn, ProviderError>)
      requires Valid()
      modifies store`messages, store`calls, chatDbModel
      ensures old(store.CallsValid()) ==> store.CallsValid()
      ensures Valid()
      ensures
        var u := Message(|old(store.messages)|, chatDbModel.id, User, text, if user.Some? then user.value else defaultUser);
        var context := if includeChatHistory then old(GetMsgHistory()) + [u] else [u];
        var g := Generate(provider, modelName, context);
        && (r.Ok? <==> g.Ok?)
        && (r.Err? ==>
              && r.error == g.error
              && store.messages == old(store.messages) + [u]
              && GetMsgHistory() == old(GetMsgHistory()) + [u]
              && chatDbModel.inputTokensCount == old(chatDbModel.inputTokensCount)
              && chatDbModel.outputTokensCount == old(chatDbModel.outputTokensCount)
              && |store.calls| == |old(store.calls)| + 1
              && store.calls[..|old(store.calls)|] == old(store.calls)
              && var c := store.calls[|old(store.calls)|];
                 fresh(c) && c.status == New && c.responseData == None && c.messages == IdSet(context)
                 && c.inputTokensCount == 0 && c.outputTokensCount == 0)
        && (r.Ok? ==>
              var a := Message(|old(store.messages)| + 1, chatDbModel.id, Assistant, g.value.text, llmUser);
              var c := r.value.call;
              && r.value.userMsg == u && r.value.llmMsg == a
              && store.messages == old(store.messages) + [u, a]
              && GetMsgHistory() == old(GetMsgHistory()) + [u, a]
              && chatDbModel.inputTokensCount == old(chatDbModel.inputTokensCount) + g.value.promptTokens
              && chatDbModel.outputTokensCount == old(chatDbModel.outputTokensCount) + g.value.completionTokens
              && fresh(c) && store.calls == old(store.calls) + [c]
              && c.status == GenerationCompleted && c.responseData == Some(g.value.data)
              && c.inputTokensCount == g.value.promptTokens && c.outputTokensCount == g.value.completionTokens
              && c.messages == IdSet(context) + {a.id})
    {
      var userMsg, context, call := StartTurn(text, user, includeChatHistory);
      r := FinishTurn(provider, modelName, userMsg, context, call, old(store.messages), old(GetMsgHistory()), old(store.calls));
      assert store.calls[..|old(store.calls)|] == old(store.calls) && store.calls[|old(store.calls)|] == call;
    }
  }
}
