/** The country and city handlers with logic of their own: the two list
    filters, the flag upload of `CreateCountry` and `UpdateCountry`, and
    the service call behind `DeleteCity`. */
module Country {
  import opened Common
  import opened Paging

  datatype ListCountriesRequest = ListCountriesRequest(limit: int, offset: int, name: string)

  /** `ListCountries`' filter: limit 10 and page 0 unless the query holds
      integers, the offset by the page rule, the name from the query. */
  function ListCountriesFilter(q: Query): (r: ListCountriesRequest)
    ensures !IsAtoiSyntax(QueryValue(q, "limit")) ==> r.limit == 10
    ensures IsAtoiSyntax(QueryValue(q, "limit")) ==> Atoi(QueryValue(q, "limit")) == Some(r.limit)
    ensures r.offset == PageOffset(AtoiOr(QueryValue(q, "page"), 0), r.limit)
    ensures !IsAtoiSyntax(QueryValue(q, "page")) ==> r.offset == 0
    ensures r.name == QueryValue(q, "name")
  {
    var limit := AtoiOr(QueryValue(q, "limit"), 10);
    var page := AtoiOr(QueryValue(q, "page"), 0);
    ListCountriesRequest(limit, PageOffset(page, limit), QueryValue(q, "name"))
  }

  /** Asking for page `p >= 1` skips exactly the rows of pages 1 .. p-1, so
      walking the pages one by one visits consecutive windows. */
  lemma ListCountriesPagesAreConsecutive(page: nat, limit: int, name: string)
    requires page >= 1
    ensures ListCountriesFilter(map["page" := Decimal(page), "limit" := Decimal(limit), "name" := name])
            == ListCountriesRequest(limit, RowsBefore(page, limit), name)
    ensures ListCountriesFilter(map["page" := Decimal(page + 1), "limit" := Decimal(limit), "name" := name]).offset
            == ListCountriesFilter(map["page" := Decimal(page), "limit" := Decimal(limit), "name" := name]).offset + limit
  {
    AtoiOrDecimal(page, 0);
    AtoiOrDecimal(page + 1, 0);
    AtoiOrDecimal(limit, 10);
    PageOffsetCountsEarlierPages(page, limit);
    PageOffsetStep(page, limit);
  }

  method ListCountries<R>(q: Query, service: ListCountriesRequest -> Result<R>)
    returns (reply: Reply<R>, sent: seq<ListCountriesRequest>)
    ensures sent == [ListCountriesFilter(q)]
    ensures reply == Answer(service(ListCountriesFilter(q)), StatusInternalServerError, StatusOK, None)
  {
    var request := ListCountriesFilter(q);
    sent := [request];
    reply := Answer(service(request), StatusInternalServerError, StatusOK, None);
  }

  datatype ListCityRequest = ListCityRequest(limit: int, offset: int, name: string)

  /** `ListCity`'s filter: the offset is read as given (default 0), the
      limit defaults to 10. */
  function ListCityFilter(q: Query): (r: ListCityRequest)
    ensures !IsAtoiSyntax(QueryValue(q, "limit")) ==> r.limit == 10
    ensures IsAtoiSyntax(QueryValue(q, "limit")) ==> Atoi(QueryValue(q, "limit")) == Some(r.limit)
    ensures !IsAtoiSyntax(QueryValue(q, "offset")) ==> r.offset == 0
    ensures IsAtoiSyntax(QueryValue(q, "offset")) ==> Atoi(QueryValue(q, "offset")) == Some(r.offset)
    ensures r.name == QueryValue(q, "name")
  {
    ListCityRequest(AtoiOr(QueryValue(q, "limit"), 10), AtoiOr(QueryValue(q, "offset"), 0), QueryValue(q, "name"))
  }

  /** Unlike the country list, the city list takes a row offset, not a page. */
  lemma ListCityTakesOffsetNotPage(offset: int, page: int)
    ensures ListCityFilter(map["offset" := Decimal(offset), "page" := Decimal(page)]).offset == offset
  {
    AtoiOrDecimal(offset, 0);
  }

  method ListCity<R>(q: Query, service: ListCityRequest -> Result<R>)
    returns (reply: Reply<R>, sent: seq<ListCityRequest>)
    ensures sent == [ListCityFilter(q)]
    ensures reply == Answer(service(ListCityFilter(q)), StatusInternalServerError, StatusOK, None)
  {
    var request := ListCityFilter(q);
    sent := [request];
    reply := Answer(service(request), StatusInternalServerError, StatusOK, None);
  }

  datatype CreateCountryRequest = CreateCountryRequest(name: string, imageUrl: string)

  /** `CreateCountry`: the flag file is required; its uploaded URL and the
      form's `country` field make the request. */
  method CreateCountry<R>(bound: Result<string>, file: Result<File>, upload: File -> Result<string>,
                          service: CreateCountryRequest -> Result<R>)
    returns (reply: Reply<R>, sent: seq<CreateCountryRequest>)
    ensures bound.Err? ==> reply == Fail(StatusBadRequest, bound.error) && sent == []
    ensures bound.Ok? && file.Err? ==> reply == Fail(StatusBadRequest, file.error) && sent == []
    ensures bound.Ok? && file.Ok? && upload(file.value).Err? ==>
              reply == Fail(StatusBadRequest, upload(file.value).error) && sent == []
    ensures bound.Ok? && file.Ok? && upload(file.value).Ok? ==>
              var request := CreateCountryRequest(bound.value, upload(file.value).value);
              && sent == [request]
              && reply == Answer(service(request), StatusInternalServerError, StatusCreated, None)
  {
    if bound.Err? {
      return Fail(StatusBadRequest, bound.error), [];
    }
    if file.Err? {
      return Fail(StatusBadRequest, file.error), [];
    }
    var url := upload(file.value);
    if url.Err? {
      return Fail(StatusBadRequest, url.error), [];
    }
    var request := CreateCountryRequest(bound.value, url.value);
    sent := [request];
    reply := Answer(service(request), StatusInternalServerError, StatusCreated, None);
  }

  datatype UpdateCountryForm = UpdateCountryForm(id: string, name: string)

  datatype UpdateCountryRequest = UpdateCountryRequest(id: string, name: string, imageUrl: string)

  /** `UpdateCountry`: without a file, update id and name only; with one,
      upload it first and send its URL too. */
  method UpdateCountry<R>(bound: Result<UpdateCountryForm>, file: Result<File>, upload: File -> Result<string>,
                          service: UpdateCountryRequest -> Result<R>)
    returns (reply: Reply<R>, sent: seq<UpdateCountryRequest>)
    ensures bound.Err? ==> reply == Fail(StatusBadRequest, bound.error) && sent == []
    ensures bound.Ok? && file.Err? ==>
              var request := UpdateCountryRequest(bound.value.id, bound.value.name, "");
              && sent == [request]
              && reply == Answer(service(request), StatusInternalServerError, StatusOK, None)
    ensures bound.Ok? && file.Ok? && upload(file.value).Err? ==>
              reply == Fail(StatusBadRequest, upload(file.value).error) && sent == []
    ensures bound.Ok? && file.Ok? && upload(file.value).Ok? ==>
              var request := UpdateCountryRequest(bound.value.id, bound.value.name, upload(file.value).value);
              && sent == [request]
              && reply == Answer(service(request), StatusInternalServerError, StatusOK, None)
  {
    if bound.Err? {
      return Fail(StatusBadRequest, bound.error), [];
    }
    var request := UpdateCountryRequest(bound.value.id, bound.value.name, "");
    if file.Err? {
      sent := [request];
      reply := Answer(service(request), StatusInternalServerError, StatusOK, None);
      return;
    }
    var url := upload(file.value);
    if url.Err? {
      return Fail(StatusBadRequest, url.error), [];
    }
    request := request.(imageUrl := url.value);
    sent := [request];
    reply := Answer(service(request), StatusInternalServerError, StatusOK, None);
  }

  datatype DeleteCountryRequest = DeleteCountryRequest(id: string)

  /** `DeleteCity` sends the service's `DeleteCountry` call with the path id. */
  method DeleteCity<R>(id: string, deleteCountry: DeleteCountryRequest -> Result<R>)
    returns (reply: Reply<R>, sent: seq<DeleteCountryRequest>)
    ensures sent == [DeleteCountryRequest(id)]
    ensures reply == Answer(deleteCountry(DeleteCountryRequest(id)), StatusInternalServerError, StatusOK, None)
  {
    sent := [DeleteCountryRequest(id)];
    reply := Answer(deleteCountry(DeleteCountryRequest(id)), StatusInternalServerError, StatusOK, None);
  }
}
