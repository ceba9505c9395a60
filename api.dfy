/**
 * The paging logic of `useBaseInfiniteQuery` (packages/util/src/api/index.ts):
 * how `queryFn` turns a page parameter into a request, and how
 * `getNextPageParam` picks the next page from the last response.
 */
module Api {
  import opened Wrappers
  import opened Strings

  /** `pagination` of an `IResponseObject`. */
  datatype Pagination = Pagination(page: int, totalPages: int)

  /** The fields of `lastPage.data` that `getNextPageParam` looks at. */
  datatype PageData = PageData(success: bool, pagination: Option<Pagination>)

  /** A query parameter value: the page number, or anything the caller passed. */
  datatype Param = Num(n: int) | Text(s: string)

  /** The URL and params `queryFn` hands to `apiService.get`. */
  datatype PageRequest = PageRequest(url: string, params: map<string, Param>)

  const PAGE: string := "page"
  const PAGE_QUERY: string := "?page="

  /**
   * `getNextPageParam`: the page after the last one while there is one, for a
   * successful response that carries pagination; `None` (`undefined`, which
   * stops the infinite query) otherwise.
   */
  function NextPageParam(last: PageData): (next: Option<int>)
    ensures next.Some? <==>
      last.success && last.pagination.Some? && last.pagination.value.page < last.pagination.value.totalPages
    ensures next.Some? ==> next.value == last.pagination.value.page + 1
    ensures next.Some? ==> last.pagination.value.page < next.value <= last.pagination.value.totalPages
  {
    if last.pagination.Some? && last.success then
      var p := last.pagination.value;
      if p.page < p.totalPages then Some(p.page + 1) else None
    else
      None
  }

  /**
   * The pages an infinite query fetches from page `page` on, when the server
   * answers each request for page p with `success` and `Pagination(p, totalPages)`.
   */
  function PagesFrom(page: int, totalPages: int): (pages: seq<int>)
    ensures |pages| >= 1 && pages[0] == page
    decreases totalPages - page
  {
    match NextPageParam(PageData(true, Some(Pagination(page, totalPages))))
    case None => [page]
    case Some(next) => [page] + PagesFrom(next, totalPages)
  }

  /**
   * Starting from page p <= totalPages, the query fetches p, p+1, ...,
   * totalPages, each once, and stops.
   */
  lemma {:induction false} PagesFromCountsUp(page: int, totalPages: int)
    requires page <= totalPages
    ensures PagesFrom(page, totalPages) == seq(totalPages - page + 1, i => page + i)
    decreases totalPages - page
  {
    if page < totalPages {
      PagesFromCountsUp(page + 1, totalPages);
      var rest := seq(totalPages - page, i => page + 1 + i);
      assert PagesFrom(page, totalPages) == [page] + rest;
    }
  }

  /** `pageParam = 1`: the first page is requested when React Query passes no parameter. */
  function PageParamOrDefault(pageParam: Option<int>): int {
    pageParam.GetOr(1)
  }

  /**
   * `queryFn`: the URL is `url?page=<pageParam>`, and the params are the
   * caller's `config.params` with `page` overwritten by the page parameter.
   */
  function QueryRequest(url: string, configParams: Option<map<string, Param>>, pageParam: Option<int>): (r: PageRequest)
    ensures r.url == url + PAGE_QUERY + IntToString(PageParamOrDefault(pageParam))
    ensures PAGE in r.params && r.params[PAGE] == Num(PageParamOrDefault(pageParam))
    ensures configParams.Some? ==> r.params.Keys == configParams.value.Keys + {PAGE}
    ensures configParams.None? ==> r.params.Keys == {PAGE}
    ensures configParams.Some? ==> forall k :: k in configParams.value && k != PAGE ==>
      r.params[k] == configParams.value[k]
  {
    var page := PageParamOrDefault(pageParam);
    var params := configParams.GetOr(map[])[PAGE := Num(page)];
    PageRequest(url + PAGE_QUERY + IntToString(page), params)
  }

  /** The page number can be read back from the query string of the URL `queryFn` builds. */
  lemma QueryUrlCarriesPage(url: string, configParams: Option<map<string, Param>>, pageParam: Option<int>)
    ensures var r := QueryRequest(url, configParams, pageParam);
      |r.url| > |url| + |PAGE_QUERY|
      && r.url[..|url| + |PAGE_QUERY|] == url + PAGE_QUERY
      && ParseInt(r.url[|url| + |PAGE_QUERY|..]) == Some(PageParamOrDefault(pageParam))
  {
    var r := QueryRequest(url, configParams, pageParam);
    var numeral := IntToString(PageParamOrDefault(pageParam));
    assert r.url[|url| + |PAGE_QUERY|..] == numeral;
    IntToStringRoundTrip(PageParamOrDefault(pageParam));
  }
}
