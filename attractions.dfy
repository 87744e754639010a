/** The attraction handlers with logic of their own: the list filters,
    the unparsed search window, and the upload guards of
    `CreateAttraction` and `UpdateImage`. */
module Attractions {
  import opened Common
  import opened Paging

  /** The attraction service's list filter; the handler never sets a country. */
  datatype AttractionList = AttractionList(
    limit: int, offset: int, name: string, description: string, city: string, category: string, country: string)

  /** `ListAttractions`' filter: offset 0 and limit 1 unless the query holds
      integers; name, description, city and category from the query. */
  function ListAttractionsFilter(q: Query): (r: AttractionList)
    ensures !IsAtoiSyntax(QueryValue(q, "offset")) ==> r.offset == 0
    ensures IsAtoiSyntax(QueryValue(q, "offset")) ==> Atoi(QueryValue(q, "offset")) == Some(r.offset)
    ensures !IsAtoiSyntax(QueryValue(q, "limit")) ==> r.limit == 1
    ensures IsAtoiSyntax(QueryValue(q, "limit")) ==> Atoi(QueryValue(q, "limit")) == Some(r.limit)
    ensures r.name == QueryValue(q, "name") && r.description == QueryValue(q, "description")
    ensures r.city == QueryValue(q, "city") && r.category == QueryValue(q, "category")
    ensures r.country == ""
  {
    AttractionList(AtoiOr(QueryValue(q, "limit"), 1), AtoiOr(QueryValue(q, "offset"), 0),
                   QueryValue(q, "name"), QueryValue(q, "description"),
                   QueryValue(q, "city"), QueryValue(q, "category"), "")
  }

  /** An empty query asks for a single attraction. */
  lemma ListAttractionsDefaults()
    ensures ListAttractionsFilter(map[]) == AttractionList(1, 0, "", "", "", "", "")
  {
  }

  method ListAttractions<R>(q: Query, service: AttractionList -> Result<R>)
    returns (reply: Reply<R>, sent: seq<AttractionList>)
    ensures sent == [ListAttractionsFilter(q)]
    ensures reply == Answer(service(ListAttractionsFilter(q)), StatusInternalServerError, StatusOK, None)
  {
    var request := ListAttractionsFilter(q);
    sent := [request];
    reply := Answer(service(request), StatusInternalServerError, StatusOK, None);
  }

  datatype ListAttractionTypesRequest = ListAttractionTypesRequest(limit: int, offset: int, name: string)

  /** `ListAttractionsType`'s filter: limit 10 and page 0 unless the query
      holds integers, the offset by the page rule. */
  function ListAttractionTypesFilter(q: Query): (r: ListAttractionTypesRequest)
    ensures !IsAtoiSyntax(QueryValue(q, "limit")) ==> r.limit == 10
    ensures IsAtoiSyntax(QueryValue(q, "limit")) ==> Atoi(QueryValue(q, "limit")) == Some(r.limit)
    ensures r.offset == PageOffset(AtoiOr(QueryValue(q, "page"), 0), r.limit)
    ensures !IsAtoiSyntax(QueryValue(q, "page")) ==> r.offset == 0
    ensures r.name == QueryValue(q, "name")
  {
    var limit := AtoiOr(QueryValue(q, "limit"), 10);
    var page := AtoiOr(QueryValue(q, "page"), 0);
    ListAttractionTypesRequest(limit, PageOffset(page, limit), QueryValue(q, "name"))
  }

  /** Page `p >= 1` starts after the rows of the pages before it. */
  lemma ListAttractionTypesPageWindow(page: nat, limit: int)
    requires page >= 1
    ensures ListAttractionTypesFilter(map["page" := Decimal(page), "limit" := Decimal(limit)]).offset
            == RowsBefore(page, limit)
  {
    AtoiOrDecimal(page, 0);
    AtoiOrDecimal(limit, 10);
    PageOffsetCountsEarlierPages(page, limit);
  }

  method ListAttractionsType<R>(q: Query, service: ListAttractionTypesRequest -> Result<R>)
    returns (reply: Reply<R>, sent: seq<ListAttractionTypesRequest>)
    ensures sent == [ListAttractionTypesFilter(q)]
    ensures reply == Answer(service(ListAttractionTypesFilter(q)), StatusInternalServerError, StatusOK, None)
  {
    var request := ListAttractionTypesFilter(q);
    sent := [request];
    reply := Answer(service(request), StatusInternalServerError, StatusOK, None);
  }

  /** The attraction service's search request: the window stays text. */
  datatype AttractionSearch = AttractionSearch(limit: string, offset: string, searchTerm: string)

  /** `SearchAttractions` forwards `limit` and `offset` as written, without
      parsing or defaults. */
  function SearchAttractionsRequest(q: Query): (r: AttractionSearch)
    ensures r.limit == QueryValue(q, "limit") && r.offset == QueryValue(q, "offset")
    ensures r.searchTerm == QueryValue(q, "search_term")
  {
    AttractionSearch(QueryValue(q, "limit"), QueryValue(q, "offset"), QueryValue(q, "search_term"))
  }

  /** A window that is not a number still reaches the service, where the
      list handler would have fallen back to its default. */
  lemma SearchForwardsUnparsedWindow(limit: string)
    requires !IsAtoiSyntax(limit)
    ensures SearchAttractionsRequest(map["limit" := limit]).limit == limit
    ensures ListAttractionsFilter(map["limit" := limit]).limit == 1
  {
  }

  method SearchAttractions<R>(q: Query, service: AttractionSearch -> Result<R>)
    returns (reply: Reply<R>, sent: seq<AttractionSearch>)
    ensures sent == [SearchAttractionsRequest(q)]
    ensures reply == Answer(service(SearchAttractionsRequest(q)), StatusInternalServerError, StatusOK, None)
  {
    var request := SearchAttractionsRequest(q);
    sent := [request];
    reply := Answer(service(request), StatusInternalServerError, StatusOK, None);
  }

  /** The bound multipart form. */
  datatype AttractionForm = AttractionForm(
    country: string, name: string, description: string, category: string, imageUrl: string, location: string)

  /** The attraction service's `Attraction`, without its timestamps. */
  datatype AttractionRequest = AttractionRequest(
    name: string, description: string, category: string, imageUrl: string, location: string)

  /** `CreateAttraction`: the image is required and uploaded before the
      service is called; the request carries its URL. */
  method CreateAttraction<R>(bound: Result<AttractionForm>, file: Result<File>, upload: File -> Result<string>,
                             service: AttractionRequest -> Result<R>)
    returns (reply: Reply<R>, sent: seq<AttractionRequest>)
    ensures bound.Err? ==> reply == Fail(StatusBadRequest, bound.error) && sent == []
    ensures bound.Ok? && file.Err? ==>
              reply == Reply(StatusBadRequest, ErrorJson("File upload is required")) && sent == []
    ensures bound.Ok? && file.Ok? && upload(file.value).Err? ==>
              reply == Reply(StatusInternalServerError, ErrorJson("Error occurred while uploading file")) && sent == []
    ensures bound.Ok? && file.Ok? && upload(file.value).Ok? ==>
              var f := bound.value;
              var request := AttractionRequest(f.name, f.description, f.category, upload(file.value).value, f.location);
              && sent == [request]
              && reply == Answer(service(request), StatusInternalServerError, StatusCreated, None)
  {
    if bound.Err? {
      return Fail(StatusBadRequest, bound.error), [];
    }
    if file.Err? {
      return Reply(StatusBadRequest, ErrorJson("File upload is required")), [];
    }
    var url := upload(file.value);
    if url.Err? {
      return Reply(StatusInternalServerError, ErrorJson("Error occurred while uploading file")), [];
    }
    var att := bound.value.(imageUrl := url.value);
    var request := AttractionRequest(att.name, att.description, att.category, att.imageUrl, att.location);
    sent := [request];
    reply := Answer(service(request), StatusInternalServerError, StatusCreated, None);
  }

  datatype AttractionImage = AttractionImage(id: string, imageUrl: string)

  /** `UpdateImage`: upload the file, then attach its URL to the attraction
      named in the path. */
  method UpdateImage<R>(id: string, file: Result<File>, upload: File -> Result<string>,
                        service: AttractionImage -> Result<R>)
    returns (reply: Reply<R>, sent: seq<AttractionImage>)
    ensures file.Err? ==> reply == Fail(StatusBadRequest, file.error) && sent == []
    ensures file.Ok? && upload(file.value).Err? ==>
              reply == Fail(StatusBadRequest, upload(file.value).error) && sent == []
    ensures file.Ok? && upload(file.value).Ok? ==>
              var request := AttractionImage(id, upload(file.value).value);
              && sent == [request]
              && reply == Answer(service(request), StatusInternalServerError, StatusOK, None)
  {
    if file.Err? {
      return Fail(StatusBadRequest, file.error), [];
    }
    var url := upload(file.value);
    if url.Err? {
      return Fail(StatusBadRequest, url.error), [];
    }
    var request := AttractionImage(id, url.value);
    sent := [request];
    reply := Answer(service(request), StatusInternalServerError, StatusOK, None);
  }
}
