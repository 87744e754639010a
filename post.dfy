/** The post handlers with logic of their own: the `ListPosts` defaults
    and the guard sequence of `CreatePost` (optional upload, then the
    author from the context, then the post service). */
module Post {
  import opened Common
  import opened Paging

  datatype PostList = PostList(limit: int, offset: int, country: string, hashtag: string)

  /** `ListPosts`' filter: offset 1 (not 0) and limit 10 unless the query
      holds integers; country and hashtag from the query. */
  function ListPostsRequest(q: Query): (r: PostList)
    ensures !IsAtoiSyntax(QueryValue(q, "offset")) ==> r.offset == 1
    ensures IsAtoiSyntax(QueryValue(q, "offset")) ==> Atoi(QueryValue(q, "offset")) == Some(r.offset)
    ensures !IsAtoiSyntax(QueryValue(q, "limit")) ==> r.limit == 10
    ensures IsAtoiSyntax(QueryValue(q, "limit")) ==> Atoi(QueryValue(q, "limit")) == Some(r.limit)
    ensures r.country == QueryValue(q, "country") && r.hashtag == QueryValue(q, "hashtag")
  {
    PostList(AtoiOr(QueryValue(q, "limit"), 10), AtoiOr(QueryValue(q, "offset"), 1),
             QueryValue(q, "country"), QueryValue(q, "hashtag"))
  }

  /** An empty query asks for ten posts from offset 1. */
  lemma ListPostsDefaults()
    ensures ListPostsRequest(map[]) == PostList(10, 1, "", "")
  {
  }

  /** A malformed offset such as "0x10" or " 3" falls back to 1 as well. */
  lemma ListPostsMalformedOffset(limit: int)
    ensures ListPostsRequest(map["offset" := " 3", "limit" := Decimal(limit)]).offset == 1
    ensures ListPostsRequest(map["offset" := " 3", "limit" := Decimal(limit)]).limit == limit
    ensures ListPostsRequest(map["offset" := "0x10", "limit" := Decimal(limit)]).offset == 1
    ensures ListPostsRequest(map["offset" := "0x10", "limit" := Decimal(limit)]).limit == limit
  {
    AtoiOrDecimal(limit, 10);
    assert !IsDigit(" 3"[0]);
    assert !IsDigit("0x10"[1]);
  }

  method ListPosts<R>(q: Query, service: PostList -> Result<R>) returns (reply: Reply<R>, sent: seq<PostList>)
    ensures sent == [ListPostsRequest(q)]
    ensures reply == Answer(service(ListPostsRequest(q)), StatusBadRequest, StatusOK, Some("posts"))
  {
    var request := ListPostsRequest(q);
    sent := [request];
    reply := Answer(service(request), StatusBadRequest, StatusOK, Some("posts"));
  }

  /** The bound multipart form. */
  datatype PostForm = PostForm(
    title: string, content: string, country: string, description: string,
    hashtag: string, location: string, imageUrl: string, userId: string)

  /** The post service's `Post`. */
  datatype PostRequest = PostRequest(
    location: string, country: string, imageUrl: string, userId: string,
    title: string, description: string, hashtag: string, content: string)

  /** `CreatePost`. `file` is what `c.FormFile("file")` returned, `upload`
      the object store. A missing file is no error: the form's image URL
      stays. The author is whatever the context holds under "user_id". */
  method CreatePost<R>(bound: Result<PostForm>, file: Result<File>, upload: File -> Result<string>,
                       keys: map<string, CtxValue>, service: PostRequest -> Result<R>)
    returns (reply: Reply<R>, sent: seq<PostRequest>)
    ensures bound.Err? ==> reply == Fail(StatusBadRequest, bound.error) && sent == []
    ensures bound.Ok? && file.Ok? && upload(file.value).Err? ==>
              reply == Fail(StatusBadRequest, upload(file.value).error) && sent == []
    ensures bound.Ok? && !(file.Ok? && upload(file.value).Err?) && "user_id" !in keys ==>
              reply == Reply(StatusUnauthorized, ErrorJson("Unauthorized")) && sent == []
    ensures bound.Ok? && !(file.Ok? && upload(file.value).Err?) && "user_id" in keys
            && UserIdOf(keys).None? ==>
              reply == Panic(UserIdPanic) && sent == []
    ensures bound.Ok? && !(file.Ok? && upload(file.value).Err?) && UserIdOf(keys).Some? ==>
              var f := bound.value;
              var image := if file.Ok? then upload(file.value).value else f.imageUrl;
              var request := PostRequest(f.location, f.country, image, UserIdOf(keys).value,
                                         f.title, f.description, f.hashtag, f.content);
              && sent == [request]
              && reply == Answer(service(request), StatusInternalServerError, StatusCreated, Some("post"))
    // the author never comes from the form
    ensures |sent| == 1 ==> UserIdOf(keys) == Some(sent[0].userId)
  {
    if bound.Err? {
      return Fail(StatusBadRequest, bound.error), [];
    }
    var post := bound.value;
    if file.Ok? {
      var url := upload(file.value);
      if url.Err? {
        return Fail(StatusBadRequest, url.error), [];
      }
      post := post.(imageUrl := url.value);
    }
    if "user_id" !in keys {
      return Reply(StatusUnauthorized, ErrorJson("Unauthorized")), [];
    }
    var id := UserIdOf(keys);
    if id.None? {
      return Panic(UserIdPanic), [];
    }
    post := post.(userId := id.value);
    var request := PostRequest(post.location, post.country, post.imageUrl, post.userId,
                               post.title, post.description, post.hashtag, post.content);
    sent := [request];
    reply := Answer(service(request), StatusInternalServerError, StatusCreated, Some("post"));
  }
}
