/** The comment handlers with logic of their own: the `ListComments`
    defaults and where `CreateComment` and `UpdateComment` take the author
    from (the context, and the bearer token's claims). */
module Comment {
  import opened Common
  import opened Paging

  datatype CommentList = CommentList(limit: int, offset: int, postId: string)

  /** `ListComments`' filter: offset 1 and limit 10 unless the query holds
      integers; the post is the query's `id`. */
  function ListCommentsRequest(q: Query): (r: CommentList)
    ensures !IsAtoiSyntax(QueryValue(q, "offset")) ==> r.offset == 1
    ensures IsAtoiSyntax(QueryValue(q, "offset")) ==> Atoi(QueryValue(q, "offset")) == Some(r.offset)
    ensures !IsAtoiSyntax(QueryValue(q, "limit")) ==> r.limit == 10
    ensures IsAtoiSyntax(QueryValue(q, "limit")) ==> Atoi(QueryValue(q, "limit")) == Some(r.limit)
    ensures r.postId == QueryValue(q, "id")
  {
    CommentList(AtoiOr(QueryValue(q, "limit"), 10), AtoiOr(QueryValue(q, "offset"), 1), QueryValue(q, "id"))
  }

  /** Only `id` selects the post: a `post_id` key is ignored. */
  lemma ListCommentsIgnoresPostIdKey(post: string)
    ensures ListCommentsRequest(map["post_id" := post]) == CommentList(10, 1, "")
    ensures ListCommentsRequest(map["id" := post]) == CommentList(10, 1, post)
  {
  }

  method ListComments<R>(q: Query, service: CommentList -> Result<R>) returns (reply: Reply<R>, sent: seq<CommentList>)
    ensures sent == [ListCommentsRequest(q)]
    ensures reply == Answer(service(ListCommentsRequest(q)), StatusBadRequest, StatusOK, Some("comments"))
  {
    var request := ListCommentsRequest(q);
    sent := [request];
    reply := Answer(service(request), StatusBadRequest, StatusOK, Some("comments"));
  }

  /** The comment service's `CommentPost`, also the bound body. */
  datatype CommentPost = CommentPost(postId: string, content: string, userId: string)

  /** `CreateComment`: the body's comment, by the context's user. */
  method CreateComment<R>(bound: Result<CommentPost>, keys: map<string, CtxValue>,
                          service: CommentPost -> Result<R>)
    returns (reply: Reply<R>, sent: seq<CommentPost>)
    ensures bound.Err? ==> reply == Fail(StatusBadRequest, bound.error) && sent == []
    ensures bound.Ok? && UserIdOf(keys).None? ==> reply == Panic(UserIdPanic) && sent == []
    ensures bound.Ok? && UserIdOf(keys).Some? ==>
              var request := bound.value.(userId := UserIdOf(keys).value);
              && sent == [request]
              && reply == Answer(service(request), StatusBadRequest, StatusCreated, Some("comment"))
    ensures |sent| == 1 ==> UserIdOf(keys) == Some(sent[0].userId)
  {
    if bound.Err? {
      return Fail(StatusBadRequest, bound.error), [];
    }
    var id := UserIdOf(keys);
    if id.None? {
      return Panic(UserIdPanic), [];
    }
    var comment := bound.value.(userId := id.value);
    sent := [comment];
    reply := Answer(service(comment), StatusBadRequest, StatusCreated, Some("comment"));
  }

  /** The comment service's `UpdateAComment`, also the bound body. */
  datatype UpdateAComment = UpdateAComment(id: string, content: string, userId: string)

  /** The panic of `cl["user_id"].(string)` on a claim set without a
      string `user_id`. */
  const ClaimPanic: string := "user_id claim missing or not a string"

  /** `UpdateComment`: decode the `Authorization` header again and take
      the author from its `user_id` claim; success answers 201. */
  method UpdateComment<R>(bound: Result<UpdateAComment>, authorization: string,
                          extractClaims: string -> Result<Claims>, service: UpdateAComment -> Result<R>)
    returns (reply: Reply<R>, sent: seq<UpdateAComment>)
    ensures bound.Err? ==> reply == Fail(StatusBadRequest, bound.error) && sent == []
    ensures bound.Ok? && extractClaims(authorization).Err? ==>
              reply == Fail(StatusBadRequest, extractClaims(authorization).error) && sent == []
    ensures bound.Ok? && extractClaims(authorization).Ok?
            && !("user_id" in extractClaims(authorization).value && extractClaims(authorization).value["user_id"].Str?) ==>
              reply == Panic(ClaimPanic) && sent == []
    ensures bound.Ok? && extractClaims(authorization).Ok?
            && "user_id" in extractClaims(authorization).value && extractClaims(authorization).value["user_id"].Str? ==>
              var request := bound.value.(userId := extractClaims(authorization).value["user_id"].s);
              && sent == [request]
              && reply == Answer(service(request), StatusBadRequest, StatusCreated, Some("comment"))
  {
    if bound.Err? {
      return Fail(StatusBadRequest, bound.error), [];
    }
    var claims := extractClaims(authorization);
    if claims.Err? {
      return Fail(StatusBadRequest, claims.error), [];
    }
    var cl := claims.value;
    if !("user_id" in cl && cl["user_id"].Str?) {
      return Panic(ClaimPanic), [];
    }
    var comment := bound.value.(userId := cl["user_id"].s);
    sent := [comment];
    reply := Answer(service(comment), StatusBadRequest, StatusCreated, Some("comment"));
  }
}
