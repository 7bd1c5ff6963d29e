/**
 * The persisted entities of the chat application: chats with cumulative
 * token counters, messages tagged with a role, and call records that
 * audit one request/response cycle with a completion provider.
 *
 * The database is an in-memory `Store`: a message table kept in creation
 * order (which stands for ordering by `date_created`), a table of call
 * records and a counter that hands out chat identities.
 */
module Models {
  import opened Wrappers

  /** An author of messages; account records are opaque here. */
  type UserId = nat

  /** A JSON value, as stored in a JSON column. */
  datatype Json =
    | JNull
    | JBool(b: bool)
    | JInt(i: int)
    | JString(s: string)
    | JArray(items: seq<Json>)
    | JObject(fields: map<string, Json>)

  /** `Message.Type`: the role of a message. */
  datatype MessageType = User | Assistant | System {
    /** The stored text choice; the column holds at most 10 characters. */
    function Value(): (v: string)
      ensures 0 < |v| <= 10
    {
      match this
      case User => "user"
      case Assistant => "assistant"
      case System => "system"
    }
  }

  /** A message row. Rows are never edited or deleted once created. */
  datatype Message = Message(id: nat, chat: nat, kind: MessageType, text: string, user: UserId)

  /** `LLMCall.Status`: the lifecycle of a call record. */
  datatype Status = New | GenerationInProgress | GenerationCompleted {
    /** The stored text choice; the column holds at most 30 characters. */
    function Value(): (v: string)
      ensures 0 < |v| <= 30
    {
      match this
      case New => "new"
      case GenerationInProgress => "generation_in_progress"
      case GenerationCompleted => "generation_completed"
    }
  }

  /** Different roles are stored as different texts, so a role text names exactly one role. */
  lemma RoleTextsDistinct(a: MessageType, b: MessageType)
    ensures a.Value() == b.Value() ==> a == b
  {
  }

  /** Different statuses are stored as different texts, so a status text names exactly one status. */
  lemma StatusTextsDistinct(a: Status, b: Status)
    ensures a.Value() == b.Value() ==> a == b
  {
  }

  /** The messages of `all` that belong to `chat`, in the order of `all`. */
  function MessagesOf(all: seq<Message>, chat: nat): (r: seq<Message>)
    ensures |r| <= |all|
    ensures forall k :: 0 <= k < |r| ==> r[k].chat == chat
  {
    if all == [] then []
    else
      var last := all[|all| - 1];
      MessagesOf(all[..|all| - 1], chat) + (if last.chat == chat then [last] else [])
  }

  /** The history of `chat` holds every message of `all` that belongs to `chat`, and nothing else. */
  lemma {:induction false} HistoryMembers(all: seq<Message>, chat: nat)
    ensures forall m :: m in MessagesOf(all, chat) <==> m in all && m.chat == chat
  {
    if all != [] {
      var prefix := all[..|all| - 1];
      var last := all[|all| - 1];
      HistoryMembers(prefix, chat);
      assert all == prefix + [last];
    }
  }

  /** How many messages of `msgs` have role `kind`. */
  function CountKind(msgs: seq<Message>, kind: MessageType): (n: nat)
    ensures n <= |msgs|
    ensures n == 0 <==> forall i :: 0 <= i < |msgs| ==> msgs[i].kind != kind
  {
    if msgs == [] then 0
    else CountKind(msgs[..|msgs| - 1], kind) + (if msgs[|msgs| - 1].kind == kind then 1 else 0)
  }

  /** The identities of `msgs`, as a set: repeated messages collapse. */
  function IdSet(msgs: seq<Message>): (ids: set<nat>)
    ensures |ids| <= |msgs|
    ensures forall i :: 0 <= i < |msgs| ==> msgs[i].id in ids
    ensures ids == set m | m in msgs :: m.id
  {
    if msgs == [] then {}
    else IdSet(msgs[..|msgs| - 1]) + {msgs[|msgs| - 1].id}
  }

  /** Identities strictly increase along `s`: `s` is in creation order. */
  ghost predicate IdsIncreasing(s: seq<Message>)
  {
    forall i, j :: 0 <= i < j < |s| ==> s[i].id < s[j].id
  }

  /** Filtering a table in creation order by chat keeps creation order. */
  lemma {:induction false} HistoryInCreationOrder(all: seq<Message>, chat: nat)
    requires IdsIncreasing(all)
    ensures IdsIncreasing(MessagesOf(all, chat))
  {
    if all != [] {
      var prefix := all[..|all| - 1];
      var last := all[|all| - 1];
      HistoryInCreationOrder(prefix, chat);
      HistoryMembers(prefix, chat);
      var r := MessagesOf(prefix, chat);
      forall k | 0 <= k < |r|
        ensures r[k].id < last.id
      {
        assert r[k] in prefix;
        var i :| 0 <= i < |prefix| && prefix[i] == r[k];
        assert all[i] == r[k];
      }
    }
  }

  /** Storing one message extends its chat's history by that message and no other history. */
  lemma HistoryAfterInsert(all: seq<Message>, m: Message, chat: nat)
    ensures MessagesOf(all + [m], chat) == MessagesOf(all, chat) + (if m.chat == chat then [m] else [])
  {
    assert (all + [m])[..|all|] == all;
  }

  /** Appending one message raises the count of its own role by one and no other. */
  lemma CountAfterAppend(msgs: seq<Message>, m: Message, kind: MessageType)
    ensures CountKind(msgs + [m], kind) == CountKind(msgs, kind) + (if m.kind == kind then 1 else 0)
  {
    assert (msgs + [m])[..|msgs|] == msgs;
  }

  /** No two messages of `chat` in `all` both have role `kind`. */
  ghost predicate AtMostOneOfKind(all: seq<Message>, chat: nat, kind: MessageType)
  {
    forall i, j :: 0 <= i < j < |all| && all[i].chat == chat && all[j].chat == chat ==>
      all[i].kind != kind || all[j].kind != kind
  }

  /** When no two messages of a chat share role `kind`, its history holds at most one of them. */
  lemma {:induction false} AtMostOneInHistory(all: seq<Message>, chat: nat, kind: MessageType)
    requires AtMostOneOfKind(all, chat, kind)
    ensures CountKind(MessagesOf(all, chat), kind) <= 1
  {
    if all != [] {
      var prefix := all[..|all| - 1];
      var last := all[|all| - 1];
      forall i, j | 0 <= i < j < |prefix| && prefix[i].chat == chat && prefix[j].chat == chat
        ensures prefix[i].kind != kind || prefix[j].kind != kind
      {
        assert prefix[i] == all[i] && prefix[j] == all[j];
      }
      AtMostOneInHistory(prefix, chat, kind);
      HistoryMembers(prefix, chat);
      var h := MessagesOf(prefix, chat);
      if last.chat == chat {
        if last.kind == kind {
          forall k | 0 <= k < |h|
            ensures h[k].kind != kind
          {
            assert h[k] in prefix;
            var i :| 0 <= i < |prefix| && prefix[i] == h[k];
            assert all[i] == h[k] && all[|all| - 1] == last;
          }
        }
        assert MessagesOf(all, chat) == h + [last];
        CountAfterAppend(h, last, kind);
      } else {
        assert MessagesOf(all, chat) == h + [];
        assert h + [] == h;
      }
    }
  }

  /** A chat that no stored message belongs to has an empty history. */
  lemma {:induction false} HistoryOfUnusedChat(all: seq<Message>, chat: nat)
    requires forall i :: 0 <= i < |all| ==> all[i].chat != chat
    ensures MessagesOf(all, chat) == []
  {
    if all != [] {
      HistoryOfUnusedChat(all[..|all| - 1], chat);
    }
  }

  /** `models.Chat`: a chat row with its cumulative token counters. */
  class Chat {
    const id: nat
    var inputTokensCount: int
    var outputTokensCount: int

    /** A new row: both counters start at their default, 0. */
    constructor (id: nat)
      ensures this.id == id
      ensures inputTokensCount == 0 && outputTokensCount == 0
    {
      this.id := id;
      inputTokensCount := 0;
      outputTokensCount := 0;
    }

    /** Adds the two counts to the cumulative counters and changes nothing else. */
    method AddTokenCounts(inputTokenCount: int, outputTokenCount: int)
      modifies this
      ensures inputTokensCount == old(inputTokensCount) + inputTokenCount
      ensures outputTokensCount == old(outputTokensCount) + outputTokenCount
    {
      inputTokensCount := inputTokensCount + inputTokenCount;
      outputTokensCount := outputTokensCount + outputTokenCount;
    }
  }

  /** `LLMCall`: the audit record of one call to the completion provider. */
  class LLMCall {
    const id: nat
    /** The many-to-many link to messages, as a set of message identities. */
    var messages: set<nat>
    var inputTokensCount: int
    var outputTokensCount: int
    var status: Status
    /** The nullable JSON column; `None` is SQL null. */
    var responseData: Option<map<string, Json>>

    /**
     * The lifecycle a call record keeps: `GenerationInProgress` is declared
     * but never assigned, and a call is still `New` exactly while it holds
     * no response payload.
     */
    ghost predicate Valid()
      reads this
    {
      status != GenerationInProgress && (status == New <==> responseData.None?)
    }

    /** The row `LLMCall.objects.create(status=NEW)` inserts. */
    constructor (id: nat)
      ensures Valid()
      ensures this.id == id && messages == {}
      ensures inputTokensCount == 0 && outputTokensCount == 0
      ensures status == New && responseData == None
    {
      this.id := id;
      messages := {};
      inputTokensCount := 0;
      outputTokensCount := 0;
      status := New;
      responseData := None;
    }

    /**
     * Records a provider response: raises the counters, stores the payload
     * and completes the call. The status only ever moves forward to
     * `GenerationCompleted`; the linked messages stay as they are.
     */
    method AddResponseData(data: map<string, Json>, inputTokenCount: int, outputTokenCount: int)
      modifies this
      ensures Valid()
      ensures inputTokensCount == old(inputTokensCount) + inputTokenCount
      ensures outputTokensCount == old(outputTokensCount) + outputTokenCount
      ensures responseData == Some(data)
      ensures status == GenerationCompleted
      ensures messages == old(messages)
    {
      inputTokensCount := inputTokensCount + inputTokenCount;
      outputTokensCount := outputTokensCount + outputTokenCount;
      responseData := Some(data);
      status := GenerationCompleted;
    }

    /** Links a message; linking one that is already linked changes nothing. */
    method AddMessage(m: Message)
      modifies this`messages
      ensures Valid() == old(Valid())
      ensures messages == old(messages) + {m.id}
      ensures old(m.id in messages) ==> messages == old(messages)
    {
      messages := messages + {m.id};
    }

    /** The call as a JSON object: exactly its id, status and response payload. */
    function ToDict(): (d: map<string, Json>)
      reads this
      ensures d.Keys == {"id", "status", "response_data"}
      ensures d["id"] == JInt(id)
      ensures d["status"] == JString(status.Value())
      ensures d["response_data"].JNull? <==> responseData.None?
      ensures responseData.Some? ==> d["response_data"] == JObject(responseData.value)
    {
      map[
        "id" := JInt(id),
        "status" := JString(status.Value()),
        "response_data" := if responseData.Some? then JObject(responseData.value) else JNull
      ]
    }
  }

  /** The database tables the chat application writes. */
  class Store {
    /** How many chat rows exist; chat identities are 0 .. chatCount - 1. */
    var chatCount: nat
    /** The message table, in creation order. */
    var messages: seq<Message>
    /** The call-record table, in creation order. */
    var calls: seq<LLMCall>

    /** Message identities are handed out in creation order, and every message belongs to an existing chat. */
    ghost predicate Valid()
      reads this`messages, this`chatCount
    {
      (forall i {:trigger messages[i].id} :: 0 <= i < |messages| ==> messages[i].id == i)
      && (forall i {:trigger messages[i].chat} :: 0 <= i < |messages| ==> messages[i].chat < chatCount)
    }

    /** Every record in the call table keeps the call lifecycle. */
    ghost predicate CallsValid()
      reads this`calls, calls
    {
      forall c :: c in calls ==> c.Valid()
    }

    constructor ()
      ensures Valid()
      ensures chatCount == 0 && messages == [] && calls == []
    {
      chatCount := 0;
      messages := [];
      calls := [];
    }

    /** `Chat.objects.create()`: a new chat row with fresh identity and zero counters. */
    method CreateChat() returns (c: Chat)
      requires Valid()
      modifies this`chatCount
      ensures Valid()
      ensures fresh(c) && c.id == old(chatCount) && chatCount == old(chatCount) + 1
      ensures c.inputTokensCount == 0 && c.outputTokensCount == 0
    {
      c := new Chat(chatCount);
      chatCount := chatCount + 1;
    }

    /** `Message.objects.create`: appends one row with the next identity. */
    method Insert(chat: Chat, kind: MessageType, text: string, user: UserId) returns (m: Message)
      requires Valid() && chat.id < chatCount
      modifies this`messages
      ensures Valid()
      ensures m == Message(|old(messages)|, chat.id, kind, text, user)
      ensures messages == old(messages) + [m]
    {
      m := Message(|messages|, chat.id, kind, text, user);
      messages := messages + [m];
    }

    /** `Message.create_user_message`: a `user` message in `chat` with the given text and author. */
    method CreateUserMessage(chat: Chat, text: string, user: UserId) returns (m: Message)
      requires Valid() && chat.id < chatCount
      modifies this`messages
      ensures Valid()
      ensures m.kind == User && m.chat == chat.id && m.text == text && m.user == user
      ensures m.id == |old(messages)| && messages == old(messages) + [m]
    {
      m := Insert(chat, User, text, user);
    }

    /** `Message.create_llm_message`: an `assistant` message in `chat` with the given text and author. */
    method CreateLLMMessage(chat: Chat, text: string, user: UserId) returns (m: Message)
      requires Valid() && chat.id < chatCount
      modifies this`messages
      ensures Valid()
      ensures m.kind == Assistant && m.chat == chat.id && m.text == text && m.user == user
      ensures m.id == |old(messages)| && messages == old(messages) + [m]
    {
      m := Insert(chat, Assistant, text, user);
    }

    /**
     * The write behind `create_system_message`. The orchestrator calls a
     * `Message.create_system_message` class method that the message model
     * does not define; this is the write it evidently intends, made by
     * analogy with the two constructors above.
     */
    method CreateSystemMessage(chat: Chat, text: string, user: UserId) returns (m: Message)
      requires Valid() && chat.id < chatCount
      modifies this`messages
      ensures Valid()
      ensures m.kind == System && m.chat == chat.id && m.text == text && m.user == user
      ensures m.id == |old(messages)| && messages == old(messages) + [m]
    {
      m := Insert(chat, System, text, user);
    }

    /**
     * `LLMCall.create`: a new call record in status `New`, linked to the
     * given messages one at a time.
     */
    method CreateLLMCall(msgs: seq<Message>) returns (c: LLMCall)
      modifies this`calls
      ensures old(CallsValid()) ==> CallsValid()
      ensures fresh(c) && c.id == |old(calls)| && calls == old(calls) + [c]
      ensures c.messages == IdSet(msgs)
      ensures c.status == New && c.responseData == None
      ensures c.inputTokensCount == 0 && c.outputTokensCount == 0
    {
      c := new LLMCall(|calls|);
      var i := 0;
      while i < |msgs|
        invariant 0 <= i <= |msgs|
        invariant c.messages == IdSet(msgs[..i])
        invariant c.status == New && c.responseData == None
        invariant c.inputTokensCount == 0 && c.outputTokensCount == 0
        invariant calls == old(calls)
      {
        assert msgs[..i + 1][..i] == msgs[..i];
        c.AddMessage(msgs[i]);
        i := i + 1;
      }
      assert msgs[..i] == msgs;
      calls := calls + [c];
    }
  }
}
