/** The historical-sites handlers with logic of their own: the
    `ListHistorical` filter and the upload guards of `AddHistorical` and
    `UpdateHisImage`. */
module History {
  import opened Common
  import opened Paging

  datatype HistoricalList = HistoricalList(limit: int, offset: int, country: string)

  /** `ListHistorical`'s filter: page 0 and limit 10 unless the query holds
      integers, the offset by the page rule, and no country filter. */
  function ListHistoricalFilter(q: Query): (r: HistoricalList)
    ensures !IsAtoiSyntax(QueryValue(q, "limit")) ==> r.limit == 10
    ensures IsAtoiSyntax(QueryValue(q, "limit")) ==> Atoi(QueryValue(q, "limit")) == Some(r.limit)
    ensures r.offset == PageOffset(AtoiOr(QueryValue(q, "page"), 0), r.limit)
    ensures !IsAtoiSyntax(QueryValue(q, "page")) ==> r.offset == 0
    ensures r.country == ""
  {
    var page := AtoiOr(QueryValue(q, "page"), 0);
    var limit := AtoiOr(QueryValue(q, "limit"), 10);
    HistoricalList(limit, PageOffset(page, limit), "")
  }

  /** A `country` query is ignored: the filter is the same without it. */
  lemma ListHistoricalIgnoresCountry(q: Query, country: string)
    ensures ListHistoricalFilter(q["country" := country]) == ListHistoricalFilter(q)
  {
    assert QueryValue(q["country" := country], "page") == QueryValue(q, "page");
    assert QueryValue(q["country" := country], "limit") == QueryValue(q, "limit");
  }

  /** Page `p >= 1` starts after the rows of the pages before it. */
  lemma ListHistoricalPageWindow(page: nat, limit: int)
    requires page >= 1
    ensures ListHistoricalFilter(map["page" := Decimal(page), "limit" := Decimal(limit)])
            == HistoricalList(limit, RowsBefore(page, limit), "")
  {
    AtoiOrDecimal(page, 0);
    AtoiOrDecimal(limit, 10);
    PageOffsetCountsEarlierPages(page, limit);
  }

  method ListHistorical<R>(q: Query, service: HistoricalList -> Result<R>)
    returns (reply: Reply<R>, sent: seq<HistoricalList>)
    ensures sent == [ListHistoricalFilter(q)]
    ensures reply == Answer(service(ListHistoricalFilter(q)), StatusBadRequest, StatusOK, None)
  {
    var request := ListHistoricalFilter(q);
    sent := [request];
    reply := Answer(service(request), StatusBadRequest, StatusOK, None);
  }

  /** The bound multipart form. */
  datatype HistoricalForm = HistoricalForm(
    country: string, city: string, name: string, description: string, imageUrl: string)

  /** The history service's `Historical`: no country. */
  datatype HistoricalRequest = HistoricalRequest(city: string, name: string, description: string, imageUrl: string)

  /** `AddHistorical`: the image is required and uploaded first; the
      request carries the form's city, name and description and the URL. */
  method AddHistorical<R>(bound: Result<HistoricalForm>, file: Result<File>, upload: File -> Result<string>,
                          service: HistoricalRequest -> Result<R>)
    returns (reply: Reply<R>, sent: seq<HistoricalRequest>)
    ensures bound.Err? ==> reply == Fail(StatusBadRequest, bound.error) && sent == []
    ensures bound.Ok? && file.Err? ==>
              reply == Reply(StatusBadRequest, ErrorJson("File upload is required")) && sent == []
    ensures bound.Ok? && file.Ok? && upload(file.value).Err? ==>
              reply == Reply(StatusInternalServerError, ErrorJson("Error occurred while uploading file")) && sent == []
    ensures bound.Ok? && file.Ok? && upload(file.value).Ok? ==>
              var f := bound.value;
              var request := HistoricalRequest(f.city, f.name, f.description, upload(file.value).value);
              && sent == [request]
              && reply == Answer(service(request), StatusInternalServerError, StatusCreated, None)
  {
    if bound.Err? {
      return Fail(StatusBadRequest, bound.error), [];
    }
    if file.Err? {
      return Reply(StatusBadRequest, ErrorJson("File upload is required")), [];
    }
    var url := upload(file.value);
    if url.Err? {
      return Reply(StatusInternalServerError, ErrorJson("Error occurred while uploading file")), [];
    }
    var his := bound.value.(imageUrl := url.value);
    var request := HistoricalRequest(his.city, his.name, his.description, url.value);
    sent := [request];
    reply := Answer(service(request), StatusInternalServerError, StatusCreated, None);
  }

  datatype HistoricalImage = HistoricalImage(id: string, url: string)

  /** `UpdateHisImage`: upload the file, attach its URL to the site named in
      the path; both failures and a service error answer 400, success 201. */
  method UpdateHisImage<R>(id: string, file: Result<File>, upload: File -> Result<string>,
                           service: HistoricalImage -> Result<R>)
    returns (reply: Reply<R>, sent: seq<HistoricalImage>)
    ensures file.Err? ==> reply == Fail(StatusBadRequest, file.error) && sent == []
    ensures file.Ok? && upload(file.value).Err? ==>
              reply == Fail(StatusBadRequest, upload(file.value).error) && sent == []
    ensures file.Ok? && upload(file.value).Ok? ==>
              var request := HistoricalImage(id, upload(file.value).value);
              && sent == [request]
              && reply == Answer(service(request), StatusBadRequest, StatusCreated, None)
  {
    if file.Err? {
      return Fail(StatusBadRequest, file.error), [];
    }
    var url := upload(file.value);
    if url.Err? {
      return Fail(StatusBadRequest, url.error), [];
    }
    var request := HistoricalImage(id, url.value);
    sent := [request];
    reply := Answer(service(request), StatusBadRequest, StatusCreated, None);
  }
}
