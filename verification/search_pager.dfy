/** The pager under a search result list: how many pages it offers, and the
    request it sends for the page the user picks. Only the first 10 000
    records of a result can be paged through. */
module SearchPager {
  import opened Common
  import opened UrlParams

  const MAX_TRACKED_RECORDS: int := 10000

  datatype Method = Get | Post

  /** The request sent for a page: the URL path, the query-string pairs (GET)
      and the body pairs (POST). The text form of the pairs is their
      `application/x-www-form-urlencoded` serialisation. */
  datatype Request = Request(verb: Method, path: string, query: Option<Params>, body: Option<Params>)

  function MinInt(a: int, b: int): int { if a <= b then a else b }

  /** `Math.ceil(Math.min(total, MAX_TRACKED_RECORDS) / pageSize)`. */
  function PageCount(total: int, pageSize: int): (count: int)
    requires total >= 0 && pageSize > 0
  {
    var m := MinInt(total, MAX_TRACKED_RECORDS);
    (m + pageSize - 1) / pageSize
  }

  /** The page count is the least number of pages that holds every tracked record. */
  lemma PageCountCovers(total: int, pageSize: int)
    requires total >= 0 && pageSize > 0
    ensures var m := MinInt(total, MAX_TRACKED_RECORDS);
      var count := PageCount(total, pageSize);
      && count >= 0
      && count * pageSize >= m
      && (m > 0 ==> (count - 1) * pageSize < m)
      && (m == 0 ==> count == 0)
  {
    var m := MinInt(total, MAX_TRACKED_RECORDS);
    var a := m + pageSize - 1;
    var q := a / pageSize;
    var r := a % pageSize;
    assert a == q * pageSize + r && 0 <= r < pageSize;
    assert q * pageSize == a - r;
    assert (q - 1) * pageSize == q * pageSize - pageSize;
    if m == 0 {
      assert a < pageSize;
    }
  }

  /** The pager renders only when there is more than one page. */
  predicate ShowPager(total: int, pageSize: int)
    requires total >= 0 && pageSize > 0
  {
    PageCount(total, pageSize) > 1
  }

  /** The pager shows exactly when the tracked records do not fit on one page. */
  lemma ShowPagerIff(total: int, pageSize: int)
    requires total >= 0 && pageSize > 0
    ensures ShowPager(total, pageSize) <==> MinInt(total, MAX_TRACKED_RECORDS) > pageSize
  {
    PageCountCovers(total, pageSize);
    var m := MinInt(total, MAX_TRACKED_RECORDS);
    var count := PageCount(total, pageSize);
    if count > 1 {
      assert (count - 1) * pageSize >= pageSize by {
        assert (count - 1) * pageSize == (count - 2) * pageSize + pageSize;
        assert (count - 2) * pageSize >= 0;
      }
    }
  }

  /** The offset requested for page `page` (counted from 1). */
  function PageOffset(page: int, pageSize: int): int
  {
    (page - 1) * pageSize
  }

  /** Page 1 starts at the first record, consecutive pages are one page size
      apart, and every offered page starts inside the tracked records. */
  lemma PageOffsets(total: int, pageSize: int, page: int)
    requires total >= 0 && pageSize > 0
    requires 1 <= page <= PageCount(total, pageSize)
    ensures PageOffset(1, pageSize) == 0
    ensures PageOffset(page + 1, pageSize) == PageOffset(page, pageSize) + pageSize
    ensures 0 <= PageOffset(page, pageSize) < MinInt(total, MAX_TRACKED_RECORDS)
  {
    PageCountCovers(total, pageSize);
    var count := PageCount(total, pageSize);
    assert (page - 1) * pageSize <= (count - 1) * pageSize by {
      assert (count - 1) * pageSize - (page - 1) * pageSize == (count - page) * pageSize;
    }
  }

  /** The pairs of the page query: the search with `rows` and `offset` set. */
  function PageParams(search: Params, page: int, pageSize: int): (r: Params)
    ensures GetAll(r, "rows") == [IntToString(pageSize)]
    ensures GetAll(r, "offset") == [IntToString(PageOffset(page, pageSize))]
    ensures forall other :: other != "rows" && other != "offset" ==> GetAll(r, other) == GetAll(search, other)
  {
    Set(Set(search, "rows", IntToString(pageSize)), "offset", IntToString(PageOffset(page, pageSize)))
  }

  /** `handleChange`: the request for page `page`. A GET carries the page query
      in the URL and no body; a POST carries it as the body. An empty `url`
      stands for none, and the index's search endpoint is used. */
  function PageRequest(verb: Method, url: string, index: string, search: Params,
                       page: int, pageSize: int): (r: Request)
    ensures r.verb == verb
    ensures url == "" ==> r.path == "/api/v4/search/" + index + "/"
    ensures url != "" ==> r.path == url
    ensures r.query.Some? <==> verb == Get
    ensures r.body.Some? <==> verb == Post
    ensures var carried := if verb == Get then r.query else r.body;
      && carried.Some?
      && GetAll(carried.value, "rows") == [IntToString(pageSize)]
      && GetAll(carried.value, "offset") == [IntToString((page - 1) * pageSize)]
  {
    var params := PageParams(search, page, pageSize);
    Request(
      verb,
      if url != "" then url else "/api/v4/search/" + index + "/",
      if verb == Get then Some(params) else None,
      if verb == Post then Some(params) else None)
  }
}
