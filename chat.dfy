/** The chat handlers with logic of their own: the page rule of
    `GetChatMessages`, and the sender ids `StartMessaging` and
    `SendMessage` take from the context. */
module Chat {
  import opened Common
  import opened Paging

  datatype ChatList = ChatList(limit: int, offset: int, chatId: string)

  /** `GetChatMessages`' filter: page 1 and limit 10 unless the query holds
      integers, the offset by the chat page rule, the chat from `chat_id`. */
  function GetChatMessagesRequest(q: Query): (r: ChatList)
    ensures !IsAtoiSyntax(QueryValue(q, "limit")) ==> r.limit == 10
    ensures IsAtoiSyntax(QueryValue(q, "limit")) ==> Atoi(QueryValue(q, "limit")) == Some(r.limit)
    ensures r.offset == ChatOffset(AtoiOr(QueryValue(q, "page"), 1), r.limit)
    ensures r.chatId == QueryValue(q, "chat_id")
  {
    var page := AtoiOr(QueryValue(q, "page"), 1);
    var limit := AtoiOr(QueryValue(q, "limit"), 10);
    ChatList(limit, ChatOffset(page, limit), QueryValue(q, "chat_id"))
  }

  /** Every request whose page is absent, malformed or non-negative reads
      from offset 0. */
  lemma ChatMessagesStartAtZero(q: Query)
    requires !IsAtoiSyntax(QueryValue(q, "page")) || Atoi(QueryValue(q, "page")).value >= 0
    ensures GetChatMessagesRequest(q).offset == 0
  {
  }

  /** A page written as a non-negative integer, however large, reads offset 0. */
  lemma {:induction false} ChatMessagesLaterPagesRepeatFirst(page: nat, limit: int, chat: string)
    ensures GetChatMessagesRequest(map["page" := Decimal(page), "limit" := Decimal(limit), "chat_id" := chat])
            == ChatList(limit, 0, chat)
  {
    AtoiOrDecimal(page, 1);
    AtoiOrDecimal(limit, 10);
  }

  /** A negative page `p` reads from `(p - 1) * limit`, a negative offset. */
  lemma ChatMessagesNegativePage(page: int, limit: int)
    requires page < 0
    ensures GetChatMessagesRequest(map["page" := Decimal(page), "limit" := Decimal(limit)]).offset
            == (page - 1) * limit
  {
    AtoiOrDecimal(page, 1);
    AtoiOrDecimal(limit, 10);
  }

  method GetChatMessages<R>(q: Query, service: ChatList -> Result<R>) returns (reply: Reply<R>, sent: seq<ChatList>)
    ensures sent == [GetChatMessagesRequest(q)]
    ensures reply == Answer(service(GetChatMessagesRequest(q)), StatusBadRequest, StatusOK, Some("message"))
  {
    var request := GetChatMessagesRequest(q);
    sent := [request];
    reply := Answer(service(request), StatusBadRequest, StatusOK, Some("message"));
  }

  /** The chat service's `CreateChat`, also the bound body. */
  datatype CreateChat = CreateChat(user1Id: string, user2Id: string)

  /** `StartMessaging`: a chat between the context's user and the body's `user2_id`. */
  method StartMessaging<R>(bound: Result<CreateChat>, keys: map<string, CtxValue>,
                           service: CreateChat -> Result<R>)
    returns (reply: Reply<R>, sent: seq<CreateChat>)
    ensures bound.Err? ==> reply == Fail(StatusBadRequest, bound.error) && sent == []
    ensures bound.Ok? && UserIdOf(keys).None? ==> reply == Panic(UserIdPanic) && sent == []
    ensures bound.Ok? && UserIdOf(keys).Some? ==>
              var request := bound.value.(user1Id := UserIdOf(keys).value);
              && sent == [request]
              && reply == Answer(service(request), StatusBadRequest, StatusOK, Some("message"))
    ensures |sent| == 1 ==> UserIdOf(keys) == Some(sent[0].user1Id)
  {
    if bound.Err? {
      return Fail(StatusBadRequest, bound.error), [];
    }
    var id := UserIdOf(keys);
    if id.None? {
      return Panic(UserIdPanic), [];
    }
    var chat := bound.value.(user1Id := id.value);
    sent := [chat];
    reply := Answer(service(chat), StatusBadRequest, StatusOK, Some("message"));
  }

  /** The chat service's `CreateMassage`, also the bound body. */
  datatype CreateMassage = CreateMassage(chatId: string, senderId: string, contentType: string, content: string)

  /** `SendMessage`: the body's message, sent by the context's user. */
  method SendMessage<R>(bound: Result<CreateMassage>, keys: map<string, CtxValue>,
                        service: CreateMassage -> Result<R>)
    returns (reply: Reply<R>, sent: seq<CreateMassage>)
    ensures bound.Err? ==> reply == Fail(StatusBadRequest, bound.error) && sent == []
    ensures bound.Ok? && UserIdOf(keys).None? ==> reply == Panic(UserIdPanic) && sent == []
    ensures bound.Ok? && UserIdOf(keys).Some? ==>
              var request := bound.value.(senderId := UserIdOf(keys).value);
              && sent == [request]
              && reply == Answer(service(request), StatusBadRequest, StatusOK, Some("message"))
    ensures |sent| == 1 ==> UserIdOf(keys) == Some(sent[0].senderId)
  {
    if bound.Err? {
      return Fail(StatusBadRequest, bound.error), [];
    }
    var id := UserIdOf(keys);
    if id.None? {
      return Panic(UserIdPanic), [];
    }
    var message := bound.value.(senderId := id.value);
    sent := [message];
    reply := Answer(service(message), StatusBadRequest, StatusOK, Some("message"));
  }
}
