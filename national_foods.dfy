/** The national-food handlers with logic of their own: the
    `ListNationalFoods` defaults, the upload guards of `UpdateImage`, and
    the optional image of `CreateNationalFood`. */
module NationalFoods {
  import opened Common
  import opened Paging

  datatype NationalFoodList = NationalFoodList(limit: int, offset: int, country: string)

  /** `ListNationalFoods`' filter: offset 0 and limit 1 unless the query
      holds integers; the country from the query. */
  function ListNationalFoodsFilter(q: Query): (r: NationalFoodList)
    ensures !IsAtoiSyntax(QueryValue(q, "offset")) ==> r.offset == 0
    ensures IsAtoiSyntax(QueryValue(q, "offset")) ==> Atoi(QueryValue(q, "offset")) == Some(r.offset)
    ensures !IsAtoiSyntax(QueryValue(q, "limit")) ==> r.limit == 1
    ensures IsAtoiSyntax(QueryValue(q, "limit")) ==> Atoi(QueryValue(q, "limit")) == Some(r.limit)
    ensures r.country == QueryValue(q, "country")
  {
    NationalFoodList(AtoiOr(QueryValue(q, "limit"), 1), AtoiOr(QueryValue(q, "offset"), 0), QueryValue(q, "country"))
  }

  /** With only a country given, a single food of that country. */
  lemma ListNationalFoodsDefaults(country: string)
    ensures ListNationalFoodsFilter(map["country" := country]) == NationalFoodList(1, 0, country)
  {
  }

  method ListNationalFoods<R>(q: Query, service: NationalFoodList -> Result<R>)
    returns (reply: Reply<R>, sent: seq<NationalFoodList>)
    ensures sent == [ListNationalFoodsFilter(q)]
    ensures reply == Answer(service(ListNationalFoodsFilter(q)), StatusInternalServerError, StatusOK, Some("response"))
  {
    var request := ListNationalFoodsFilter(q);
    sent := [request];
    reply := Answer(service(request), StatusInternalServerError, StatusOK, Some("response"));
  }

  datatype NationalFoodImage = NationalFoodImage(id: string, imageUrl: string)

  /** The service's answer to `AddNationalFoodImage`. */
  datatype Message = Message(message: string)

  /** `UpdateImage`: upload the file, attach its URL to the food named in
      the path, and answer 201 with the URL as the message. */
  method UpdateImage(id: string, file: Result<File>, upload: File -> Result<string>,
                     service: NationalFoodImage -> Result<Message>)
    returns (reply: Reply<Message>, sent: seq<NationalFoodImage>)
    ensures file.Err? ==> reply == Fail(StatusBadRequest, file.error) && sent == []
    ensures file.Ok? && upload(file.value).Err? ==>
              reply == Fail(StatusBadRequest, upload(file.value).error) && sent == []
    ensures file.Ok? && upload(file.value).Ok? ==>
              var request := NationalFoodImage(id, upload(file.value).value);
              && sent == [request]
              && (service(request).Err? ==> reply == Fail(StatusInternalServerError, service(request).error))
              && (service(request).Ok? ==>
                    reply == Reply(StatusCreated, Keyed("response", Message(upload(file.value).value))))
    // whatever message the service returns, the client sees the URL
    ensures reply.Reply? && reply.status == StatusCreated ==>
              file.Ok? && reply.body == Keyed("response", Message(upload(file.value).value))
  {
    if file.Err? {
      return Fail(StatusBadRequest, file.error), [];
    }
    var url := upload(file.value);
    if url.Err? {
      return Fail(StatusBadRequest, url.error), [];
    }
    var request := NationalFoodImage(id, url.value);
    sent := [request];
    var resp := service(request);
    if resp.Err? {
      return Fail(StatusInternalServerError, resp.error), sent;
    }
    var answer := resp.value.(message := url.value);
    reply := Reply(StatusCreated, Keyed("response", answer));
  }

  /** The bound multipart form. */
  datatype NationalFoodForm = NationalFoodForm(
    country: string, name: string, description: string, nationality: string,
    imageUrl: string, rating: int, foodType: string, ingredients: string)

  /** `CreateNationalFood`: the image is optional. With a file, its upload
      must succeed and its URL replaces the form's; without one the form
      goes on as bound. The form is what the service receives. */
  method CreateNationalFood<R>(bound: Result<NationalFoodForm>, file: Result<File>, upload: File -> Result<string>,
                               service: NationalFoodForm -> Result<R>)
    returns (reply: Reply<R>, sent: seq<NationalFoodForm>)
    ensures bound.Err? ==> reply == Fail(StatusBadRequest, bound.error) && sent == []
    ensures bound.Ok? && file.Err? ==>
              sent == [bound.value]
              && reply == Answer(service(bound.value), StatusInternalServerError, StatusCreated, Some("response"))
    ensures bound.Ok? && file.Ok? && upload(file.value).Err? ==>
              reply == Fail(StatusBadRequest, upload(file.value).error) && sent == []
    ensures bound.Ok? && file.Ok? && upload(file.value).Ok? ==>
              var request := bound.value.(imageUrl := upload(file.value).value);
              && sent == [request]
              && reply == Answer(service(request), StatusInternalServerError, StatusCreated, Some("response"))
  {
    if bound.Err? {
      return Fail(StatusBadRequest, bound.error), [];
    }
    var a := bound.value;
    if file.Ok? {
      var url := upload(file.value);
      if url.Err? {
        return Fail(StatusBadRequest, url.error), [];
      }
      a := a.(imageUrl := url.value);
    }
    sent := [a];
    reply := Answer(service(a), StatusInternalServerError, StatusCreated, Some("response"));
  }
}
