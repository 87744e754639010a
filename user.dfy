/** The user handlers with logic of their own: the `FetchUsers` filter
    defaults, `ChangePassword`'s validation and error mapping, the fields
    `Create` forwards, and the handlers that act on behalf of the user the
    permission middleware recorded. Each handler returns its reply and the
    requests it sent to the user service, in order. */
module User {
  import opened Common
  import opened Paging

  /** The user service's list filter. */
  datatype Filter = Filter(page: int, limit: int, firstName: string)

  /** `FetchUsers`' filter: page 1 and limit 10 unless the query holds
      integers, and `name` as the first-name filter. */
  function FetchUsersFilter(q: Query): (f: Filter)
    ensures f.firstName == QueryValue(q, "name")
    ensures !IsAtoiSyntax(QueryValue(q, "page")) ==> f.page == 1
    ensures IsAtoiSyntax(QueryValue(q, "page")) ==> Atoi(QueryValue(q, "page")) == Some(f.page)
    ensures !IsAtoiSyntax(QueryValue(q, "limit")) ==> f.limit == 10
    ensures IsAtoiSyntax(QueryValue(q, "limit")) ==> Atoi(QueryValue(q, "limit")) == Some(f.limit)
  {
    Filter(AtoiOr(QueryValue(q, "page"), 1), AtoiOr(QueryValue(q, "limit"), 10), QueryValue(q, "name"))
  }

  /** With neither `page` nor `limit` given, the first page of ten. */
  lemma FetchUsersDefaults(name: string)
    ensures FetchUsersFilter(map["name" := name]) == Filter(1, 10, name)
  {
  }

  /** Integers written in the query reach the filter unchanged. */
  lemma FetchUsersReadsQuery(page: int, limit: int, name: string)
    ensures FetchUsersFilter(map["page" := Decimal(page), "limit" := Decimal(limit), "name" := name])
            == Filter(page, limit, name)
  {
    AtoiOrDecimal(page, 1);
    AtoiOrDecimal(limit, 10);
  }

  method FetchUsers<R>(q: Query, service: Filter -> Result<R>) returns (reply: Reply<R>, sent: seq<Filter>)
    ensures sent == [FetchUsersFilter(q)]
    ensures reply == Answer(service(FetchUsersFilter(q)), StatusBadRequest, StatusOK, None)
  {
    var filter := FetchUsersFilter(q);
    sent := [filter];
    reply := Answer(service(filter), StatusBadRequest, StatusOK, None);
  }

  datatype ChangePasswordForm = ChangePasswordForm(currentPassword: string, newPassword: string)

  datatype ChangePasswordRequest = ChangePasswordRequest(userId: string, currentPassword: string, newPassword: string)

  /** `ChangePassword`: both passwords must be non-empty; the user is the
      one in the context; the service's answer may be an error, `nil`, or
      a response (the inner `Option`). */
  method ChangePassword<R>(bound: Result<ChangePasswordForm>, keys: map<string, CtxValue>,
                           service: ChangePasswordRequest -> Result<Option<R>>)
    returns (reply: Reply<R>, sent: seq<ChangePasswordRequest>)
    ensures bound.Err? ==> reply == Fail(StatusBadRequest, bound.error) && sent == []
    // an empty password is turned away before anything else
    ensures bound.Ok? && (bound.value.currentPassword == "" || bound.value.newPassword == "") ==>
              reply == Reply(StatusBadRequest, ErrorJson("Invalid request body")) && sent == []
    ensures bound.Ok? && bound.value.currentPassword != "" && bound.value.newPassword != ""
            && UserIdOf(keys).None? ==>
              reply == Panic(UserIdPanic) && sent == []
    ensures bound.Ok? && bound.value.currentPassword != "" && bound.value.newPassword != ""
            && UserIdOf(keys).Some? ==>
              var request := ChangePasswordRequest(UserIdOf(keys).value, bound.value.currentPassword, bound.value.newPassword);
              && sent == [request]
              && (service(request) == Err(NoRows) ==> reply == Reply(StatusNotFound, ErrorJson("User not found")))
              && (service(request).Err? && service(request).error.Failure? ==>
                    reply == Fail(StatusInternalServerError, service(request).error))
              && (service(request) == Ok(None) ==>
                    reply == Reply(StatusInternalServerError, ErrorJson("Internal server error")))
              && (service(request).Ok? && service(request).value.Some? ==>
                    reply == Reply(StatusOK, Plain(service(request).value.value)))
    // the only success path carries the context's user id
    ensures reply.Reply? && reply.status == StatusOK ==>
              |sent| == 1 && UserIdOf(keys) == Some(sent[0].userId)
  {
    sent := [];
    if bound.Err? {
      return Fail(StatusBadRequest, bound.error), sent;
    }
    var user := bound.value;
    if user.currentPassword == "" || user.newPassword == "" {
      return Reply(StatusBadRequest, ErrorJson("Invalid request body")), sent;
    }
    var id := UserIdOf(keys);
    if id.None? {
      return Panic(UserIdPanic), sent;
    }
    var request := ChangePasswordRequest(id.value, user.currentPassword, user.newPassword);
    sent := [request];
    var answer := service(request);
    if answer.Err? {
      if answer.error == NoRows {
        reply := Reply(StatusNotFound, ErrorJson("User not found"));
      } else {
        reply := Fail(StatusInternalServerError, answer.error);
      }
      return;
    }
    if answer.value.None? {
      return Reply(StatusInternalServerError, ErrorJson("Internal server error")), sent;
    }
    reply := Reply(StatusOK, Plain(answer.value.value));
  }

  /** The user service's `CreateRequest`; the body is bound to the same type. */
  datatype CreateRequest = CreateRequest(
    email: string, role: string, password: string, phone: string, firstName: string,
    lastName: string, username: string, nationality: string, bio: string)

  /** The request `Create` builds: every field of the body but the role. */
  function Forwarded(body: CreateRequest): (r: CreateRequest)
    ensures r.role == ""
    ensures r.(role := body.role) == body
  {
    CreateRequest(body.email, "", body.password, body.phone, body.firstName,
                  body.lastName, body.username, body.nationality, body.bio)
  }

  /** Whatever role a body asks for, the service sees the same request. */
  lemma CreateNeverForwardsRole(body: CreateRequest, role: string)
    ensures Forwarded(body.(role := role)) == Forwarded(body)
  {
  }

  method Create<R>(bound: Result<CreateRequest>, service: CreateRequest -> Result<R>)
    returns (reply: Reply<R>, sent: seq<CreateRequest>)
    ensures bound.Err? ==> reply == Fail(StatusBadRequest, bound.error) && sent == []
    ensures bound.Ok? ==>
              sent == [Forwarded(bound.value)]
              && reply == Answer(service(Forwarded(bound.value)), StatusBadRequest, StatusCreated, None)
  {
    if bound.Err? {
      return Fail(StatusBadRequest, bound.error), [];
    }
    var request := Forwarded(bound.value);
    sent := [request];
    reply := Answer(service(request), StatusBadRequest, StatusCreated, None);
  }

  /** The user service's `UpdateProfileRequest`, also the bound body. */
  datatype UpdateProfileRequest = UpdateProfileRequest(
    userId: string, firstName: string, lastName: string, phoneNumber: string,
    username: string, nationality: string, bio: string, profileImage: string)

  /** `UpdateProfile`: the body's profile fields, for the context's user. */
  method UpdateProfile<R>(bound: Result<UpdateProfileRequest>, keys: map<string, CtxValue>,
                          service: UpdateProfileRequest -> Result<R>)
    returns (reply: Reply<R>, sent: seq<UpdateProfileRequest>)
    ensures bound.Err? ==> reply == Fail(StatusBadRequest, bound.error) && sent == []
    ensures bound.Ok? && UserIdOf(keys).None? ==> reply == Panic(UserIdPanic) && sent == []
    ensures bound.Ok? && UserIdOf(keys).Some? ==>
              var request := bound.value.(userId := UserIdOf(keys).value);
              && sent == [request]
              && reply == Answer(service(request), StatusBadRequest, StatusOK, None)
    // a user id written in the body is never what reaches the service
    ensures |sent| == 1 ==> UserIdOf(keys) == Some(sent[0].userId)
  {
    if bound.Err? {
      return Fail(StatusBadRequest, bound.error), [];
    }
    var id := UserIdOf(keys);
    if id.None? {
      return Panic(UserIdPanic), [];
    }
    var body := bound.value;
    var request := UpdateProfileRequest(id.value, body.firstName, body.lastName, body.phoneNumber,
                                        body.username, body.nationality, body.bio, body.profileImage);
    sent := [request];
    reply := Answer(service(request), StatusBadRequest, StatusOK, None);
  }

  datatype FollowReq = FollowReq(followingId: string, followerId: string)

  /** `Follow`: the body names whom to follow; the follower is the context's user. */
  method Follow<R>(bound: Result<FollowReq>, keys: map<string, CtxValue>, service: FollowReq -> Result<R>)
    returns (reply: Reply<R>, sent: seq<FollowReq>)
    ensures bound.Err? ==> reply == Fail(StatusBadRequest, bound.error) && sent == []
    ensures bound.Ok? && UserIdOf(keys).None? ==> reply == Panic(UserIdPanic) && sent == []
    ensures bound.Ok? && UserIdOf(keys).Some? ==>
              var request := FollowReq(bound.value.followingId, UserIdOf(keys).value);
              && sent == [request]
              && reply == Answer(service(request), StatusBadRequest, StatusOK, None)
    ensures |sent| == 1 ==> UserIdOf(keys) == Some(sent[0].followerId)
  {
    if bound.Err? {
      return Fail(StatusBadRequest, bound.error), [];
    }
    var id := UserIdOf(keys);
    if id.None? {
      return Panic(UserIdPanic), [];
    }
    var request := FollowReq(bound.value.followingId, id.value);
    sent := [request];
    reply := Answer(service(request), StatusBadRequest, StatusOK, None);
  }
}
