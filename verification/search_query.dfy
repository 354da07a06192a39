/** The alert search query (`SearchQuery`): a `URLSearchParams` list with defaults
    for offset, time constraint (`tc`), rows, group-by and sort, the filter-query
    list (`fq`), the two serialisations (browser URL and API) and the split of the
    `fq` filters into status/priority/label/query buckets.

    The effect of a chain of parameter edits is stated key by key: for each
    name, what `getAll(name)` returns afterwards. */
module SearchQuery {
  import opened Common
  import opened UrlParams

  const DEFAULT_TC: string := "4d"
  const DEFAULT_OFFSET: int := 0
  const DEFAULT_GROUPBY: string := "file.sha256"
  const DEFAULT_SORT: string := "reporting_ts desc"

  /** A query: the page path, the parameter list and the page size. The search
      text it is built from is given already parsed into pairs. */
  datatype Query = Query(path: string, params: Params, pageSize: int)

  datatype FilterType = Blank | Status | Priority | Label | QueryFilter

  /** A filter chip; `labelText` is the source's `label` field. */
  datatype SearchFilter = SearchFilter(id: int, kind: FilterType, labelText: string, value: string)

  datatype Filters = Filters(
    groupBy: string,
    sort: string,
    tc: string,
    labels: seq<SearchFilter>,
    priorities: seq<SearchFilter>,
    queries: seq<SearchFilter>,
    statuses: seq<SearchFilter>)

  // ---------------------------------------------------------------------------
  // Getters and single-key edits
  // ---------------------------------------------------------------------------

  /** The value of `name`, or `fallback` when the key is absent. */
  function GetOr(q: Query, name: string, fallback: string): (r: string)
    ensures Has(q.params, name) ==> r == GetAll(q.params, name)[0]
    ensures !Has(q.params, name) ==> r == fallback
  {
    if Has(q.params, name) then Get(q.params, name).value else fallback
  }

  function GetRows(q: Query): string { GetOr(q, "rows", IntToString(q.pageSize)) }
  function GetOffset(q: Query): string { GetOr(q, "offset", "0") }
  function GetQuery(q: Query): string { GetOr(q, "q", "") }
  function GetTc(q: Query): string { GetOr(q, "tc", "") }
  function GetTcStart(q: Query): string { GetOr(q, "tc_start", "") }
  function GetGroupBy(q: Query): string { GetOr(q, "group_by", DEFAULT_GROUPBY) }
  function GetSort(q: Query): string { GetOr(q, "sort", DEFAULT_SORT) }
  function GetFqList(q: Query): seq<string> { GetAll(q.params, "fq") }

  function GetOffsetNumber(q: Query): JsNum
  {
    if Has(q.params, "offset") then ParseInt(Get(q.params, "offset").value) else Finite(0)
  }

  function GetRowsNumber(q: Query): JsNum
  {
    if Has(q.params, "rows") then ParseInt(Get(q.params, "rows").value) else Finite(q.pageSize)
  }

  /** `setX(value)` for one key. */
  function SetParam(q: Query, name: string, value: string): (r: Query)
    ensures r.path == q.path && r.pageSize == q.pageSize
    ensures GetAll(r.params, name) == [value]
    ensures forall other :: other != name ==> GetAll(r.params, other) == GetAll(q.params, other)
  {
    q.(params := Set(q.params, name, value))
  }

  /** `deleteX()` for one key. */
  function DeleteParam(q: Query, name: string): (r: Query)
    ensures r.path == q.path && r.pageSize == q.pageSize
    ensures GetAll(r.params, name) == []
    ensures forall other :: other != name ==> GetAll(r.params, other) == GetAll(q.params, other)
  {
    q.(params := Delete(q.params, name))
  }

  /** `deleteQuery()`. */
  function DeleteQuery(q: Query): (r: Query)
    ensures GetQuery(r) == ""
    ensures forall other :: other != "q" ==> GetAll(r.params, other) == GetAll(q.params, other)
  {
    DeleteParam(q, "q")
  }

  /** `deleteTCStart()`. */
  function DeleteTcStart(q: Query): (r: Query)
    ensures GetTcStart(r) == ""
    ensures forall other :: other != "tc_start" ==> GetAll(r.params, other) == GetAll(q.params, other)
  {
    DeleteParam(q, "tc_start")
  }

  // ---------------------------------------------------------------------------
  // Construction and defaults
  // ---------------------------------------------------------------------------

  /** The value the constructor gives a key that the base search lacks. */
  function DefaultFor(name: string, pageSize: int): Option<string>
  {
    if name == "offset" then Some(IntToString(DEFAULT_OFFSET))
    else if name == "tc" then Some(DEFAULT_TC)
    else if name == "rows" then Some(IntToString(pageSize))
    else if name == "group_by" then Some(DEFAULT_GROUPBY)
    else if name == "sort" then Some(DEFAULT_SORT)
    else None
  }

  /** `if (!this.hasX()) this.setX(value)`. */
  function SetIfAbsent(p: Params, name: string, value: string): Params
  {
    if Has(p, name) then p else Set(p, name, value)
  }

  /** One `setX`-if-absent step, seen from one key. */
  lemma SetIfAbsentAt(p: Params, n: string, v: string, name: string)
    ensures GetAll(SetIfAbsent(p, n, v), name) ==
      if name == n && GetAll(p, n) == [] then [v] else GetAll(p, name)
  {
  }

  function WithDefaults(base: Params, pageSize: int): Params
  {
    var p1 := SetIfAbsent(base, "offset", IntToString(DEFAULT_OFFSET));
    var p2 := SetIfAbsent(p1, "tc", DEFAULT_TC);
    var p3 := SetIfAbsent(p2, "rows", IntToString(pageSize));
    var p4 := SetIfAbsent(p3, "group_by", DEFAULT_GROUPBY);
    SetIfAbsent(p4, "sort", DEFAULT_SORT)
  }

  /** The constructor. */
  function New(path: string, base: Params, pageSize: int, setDefaults: bool): (q: Query)
    ensures q.path == path && q.pageSize == pageSize
    ensures !setDefaults ==> q.params == base
  {
    if setDefaults then Query(path, WithDefaults(base, pageSize), pageSize)
    else Query(path, base, pageSize)
  }

  /** With defaults on, each of the five defaulted keys that the base search
      lacks gets its default; a key the base search has keeps all its values,
      and every other key is left alone. */
  lemma NewAt(path: string, base: Params, pageSize: int, name: string)
    ensures GetAll(New(path, base, pageSize, true).params, name) ==
      if DefaultFor(name, pageSize).Some? && !Has(base, name)
      then [DefaultFor(name, pageSize).value]
      else GetAll(base, name)
  {
    var p1 := SetIfAbsent(base, "offset", IntToString(DEFAULT_OFFSET));
    var p2 := SetIfAbsent(p1, "tc", DEFAULT_TC);
    var p3 := SetIfAbsent(p2, "rows", IntToString(pageSize));
    var p4 := SetIfAbsent(p3, "group_by", DEFAULT_GROUPBY);
    var p5 := SetIfAbsent(p4, "sort", DEFAULT_SORT);
    assert New(path, base, pageSize, true).params == p5;
    SetIfAbsentAt(base, "offset", IntToString(DEFAULT_OFFSET), name);
    SetIfAbsentAt(p1, "tc", DEFAULT_TC, name);
    SetIfAbsentAt(p2, "rows", IntToString(pageSize), name);
    SetIfAbsentAt(p3, "group_by", DEFAULT_GROUPBY, name);
    SetIfAbsentAt(p4, "sort", DEFAULT_SORT, name);
    if name == "offset" {
    } else if name == "tc" {
    } else if name == "rows" {
    } else if name == "group_by" {
    } else if name == "sort" {
    } else {
    }
  }

  /** `build()`: a fresh query from this one's parameters, defaults filled. */
  function Build(q: Query): (r: Query)
    ensures r.path == q.path && r.pageSize == q.pageSize
  {
    New(q.path, q.params, q.pageSize, true)
  }

  /** Defaults only fill absent keys, so building a built query changes nothing. */
  lemma BuildIdempotent(q: Query, name: string)
    ensures GetAll(Build(Build(q)).params, name) == GetAll(Build(q).params, name)
  {
    NewAt(q.path, q.params, q.pageSize, name);
    NewAt(q.path, Build(q).params, q.pageSize, name);
  }

  // ---------------------------------------------------------------------------
  // Paging and filters
  // ---------------------------------------------------------------------------

  /** `tickOffset`: the next page. The numeric offset grows by exactly one page
      (NaN stays NaN), rows keeps its first value or becomes the page size, and
      no other key changes. */
  function TickOffset(q: Query): (r: Query)
    ensures r.path == q.path && r.pageSize == q.pageSize
    ensures GetOffsetNumber(r) == AddNum(GetOffsetNumber(q), q.pageSize)
    ensures GetAll(r.params, "rows") == [GetRows(q)]
    ensures GetRows(r) == GetRows(q)
  {
    var next := AddNum(GetOffsetNumber(q), q.pageSize);
    var p1 := Set(q.params, "offset", NumToString(next));
    var p2 := Set(p1, "rows", GetOr(q.(params := p1), "rows", IntToString(q.pageSize)));
    SetAt(q.params, "offset", NumToString(next), "rows");
    SetAt(p1, "rows", GetRows(q.(params := p1)), "offset");
    NumRoundTrip(next);
    q.(params := p2)
  }

  /** Turning the page changes no key but `offset` and `rows`. */
  lemma TickOffsetAt(q: Query, name: string)
    requires name != "offset" && name != "rows"
    ensures GetAll(TickOffset(q).params, name) == GetAll(q.params, name)
  {
    var next := AddNum(GetOffsetNumber(q), q.pageSize);
    var p1 := Set(q.params, "offset", NumToString(next));
    SetAt(q.params, "offset", NumToString(next), name);
    SetAt(p1, "rows", GetRows(q.(params := p1)), name);
  }

  /** Printing a `parseInt` result and parsing it back gives it again. */
  lemma NumRoundTrip(a: JsNum)
    ensures ParseInt(NumToString(a)) == a
  {
    match a
    case Finite(x) => ParseIntOfIntToString(x);
    case NaN =>
      assert TrimStart("NaN") == "NaN";
      assert DigitRun("NaN") == 0;
  }

  /** `addFq`: the filter goes to the end of the `fq` list; nothing else changes. */
  function AddFq(q: Query, fq: string): (r: Query)
    ensures r.path == q.path && r.pageSize == q.pageSize
    ensures GetFqList(r) == GetFqList(q) + [fq]
    ensures forall other :: other != "fq" ==> GetAll(r.params, other) == GetAll(q.params, other)
  {
    q.(params := Append(q.params, "fq", fq))
  }

  /** `clearFq`: no `fq` is left; nothing else changes. */
  function ClearFq(q: Query): (r: Query)
    ensures r.path == q.path && r.pageSize == q.pageSize
    ensures GetFqList(r) == []
    ensures forall other :: other != "fq" ==> GetAll(r.params, other) == GetAll(q.params, other)
  {
    DeleteParam(q, "fq")
  }

  /** Adding filters one after another lists them in insertion order. */
  function AddFqs(q: Query, fqs: seq<string>): (r: Query)
    decreases |fqs|
    ensures r.path == q.path && r.pageSize == q.pageSize
    ensures GetFqList(r) == GetFqList(q) + fqs
    ensures forall other :: other != "fq" ==> GetAll(r.params, other) == GetAll(q.params, other)
  {
    if |fqs| == 0 then q
    else
      var r := AddFqs(AddFq(q, fqs[0]), fqs[1..]);
      assert [fqs[0]] + fqs[1..] == fqs;
      r
  }

  /** `reset(clearQuery)`. */
  function Reset(q: Query, clearQuery: bool): (r: Query)
    ensures r.path == q.path && r.pageSize == q.pageSize
  {
    var q1 := SetParam(q, "offset", "0");
    var q2 := SetParam(q1, "rows", IntToString(q.pageSize));
    var q3 := SetParam(q2, "tc", "4d");
    var q4 := SetParam(q3, "group_by", "file.sha256");
    var q5 := SetParam(q4, "sort", DEFAULT_SORT);
    var q6 := SetParam(q5, "tc_start", "");
    var q7 := ClearFq(q6);
    if clearQuery then SetParam(q7, "q", "") else q7
  }

  /** The value `reset` gives a key it rewrites, or `None` for a key it keeps. */
  function ResetValue(name: string, pageSize: int, clearQuery: bool): Option<seq<string>>
  {
    if name == "offset" then Some(["0"])
    else if name == "rows" then Some([IntToString(pageSize)])
    else if name == "tc" then Some([DEFAULT_TC])
    else if name == "group_by" then Some([DEFAULT_GROUPBY])
    else if name == "sort" then Some([DEFAULT_SORT])
    else if name == "tc_start" then Some([""])
    else if name == "fq" then Some([])
    else if name == "q" && clearQuery then Some([""])
    else None
  }

  /** After `reset`: first page, default window, grouping and sort, an empty
      `tc_start`, no filters, and the text query emptied only when asked; every
      other key keeps its values. */
  lemma ResetAt(q: Query, clearQuery: bool, name: string)
    ensures GetAll(Reset(q, clearQuery).params, name) ==
      match ResetValue(name, q.pageSize, clearQuery)
      case Some(v) => v
      case None => GetAll(q.params, name)
  {
    var q1 := SetParam(q, "offset", "0");
    var q2 := SetParam(q1, "rows", IntToString(q.pageSize));
    var q3 := SetParam(q2, "tc", "4d");
    var q4 := SetParam(q3, "group_by", "file.sha256");
    var q5 := SetParam(q4, "sort", DEFAULT_SORT);
    var q6 := SetParam(q5, "tc_start", "");
    var q7 := ClearFq(q6);
    assert Reset(q, clearQuery) == if clearQuery then SetParam(q7, "q", "") else q7;
    SetAt(q.params, "offset", "0", name);
    SetAt(q1.params, "rows", IntToString(q.pageSize), name);
    SetAt(q2.params, "tc", "4d", name);
    SetAt(q3.params, "group_by", "file.sha256", name);
    SetAt(q4.params, "sort", DEFAULT_SORT, name);
    SetAt(q5.params, "tc_start", "", name);
    DeleteAt(q6.params, "fq", name);
    SetAt(q7.params, "q", "", name);
    if name == "offset" {
    } else if name == "rows" {
    } else if name == "tc" {
    } else if name == "group_by" {
    } else if name == "sort" {
    } else if name == "tc_start" {
    } else if name == "fq" {
    } else if name == "q" {
    } else {
    }
  }

  /** Resetting twice is resetting once. */
  lemma ResetIdempotent(q: Query, clearQuery: bool, name: string)
    ensures GetAll(Reset(Reset(q, clearQuery), clearQuery).params, name) ==
      GetAll(Reset(q, clearQuery).params, name)
  {
    ResetAt(q, clearQuery, name);
    ResetAt(Reset(q, clearQuery), clearQuery, name);
  }

  /** The filter values in the order `setFilters` adds them. */
  function Values(fs: seq<SearchFilter>): (r: seq<string>)
    ensures |r| == |fs|
    ensures forall i :: 0 <= i < |fs| ==> r[i] == fs[i].value
  {
    if |fs| == 0 then [] else [fs[0].value] + Values(fs[1..])
  }

  lemma {:induction false} ValuesConcat(a: seq<SearchFilter>, b: seq<SearchFilter>)
    ensures Values(a + b) == Values(a) + Values(b)
  {
    if |a| > 0 {
      assert (a + b)[1..] == a[1..] + b;
      ValuesConcat(a[1..], b);
    } else {
      assert a + b == b;
    }
  }

  /** Every filter value, statuses first, then priorities, labels and queries. */
  function AllValues(f: Filters): seq<string>
  {
    Values(f.statuses) + Values(f.priorities) + Values(f.labels) + Values(f.queries)
  }

  /** `setFilters`. */
  function SetFilters(q: Query, f: Filters): (r: Query)
    ensures r.path == q.path && r.pageSize == q.pageSize
  {
    var q1 := Reset(q, false);
    var q2 := SetParam(q1, "tc", f.tc);
    var q3 := SetParam(q2, "group_by", f.groupBy);
    var q4 := SetParam(q3, "sort", f.sort);
    AddFqs(q4, AllValues(f))
  }

  /** After `setFilters`: the supplied window, grouping and sort, one `fq` per
      filter in bucket order, the first page, an empty `tc_start`, and the text
      query and every other key untouched. */
  lemma SetFiltersAt(q: Query, f: Filters, name: string)
    ensures GetAll(SetFilters(q, f).params, name) ==
      if name == "tc" then [f.tc]
      else if name == "group_by" then [f.groupBy]
      else if name == "sort" then [f.sort]
      else if name == "fq" then AllValues(f)
      else match ResetValue(name, q.pageSize, false)
        case Some(v) => v
        case None => GetAll(q.params, name)
  {
    ResetAt(q, false, name);
  }

  // ---------------------------------------------------------------------------
  // Serialisations
  // ---------------------------------------------------------------------------

  /** `if (cond) params.delete(name)`. */
  function DeleteIf(p: Params, cond: bool, name: string): (r: Params)
    ensures GetAll(r, name) == if cond then [] else GetAll(p, name)
    ensures forall other :: other != name ==> GetAll(r, other) == GetAll(p, other)
  {
    if cond then Delete(p, name) else p
  }

  /** One `if (cond) delete` step, seen from one key. */
  lemma DeleteIfAt(p: Params, cond: bool, n: string, name: string)
    ensures GetAll(DeleteIf(p, cond, n), name) == if cond && name == n then [] else GetAll(p, name)
  {
  }

  /** `buildURLQueryString`, as the pair list it serialises. */
  function BuildURLQueryString(q: Query): Params
  {
    var p1 := Delete(q.params, "tc_start");
    var p2 := Delete(p1, "offset");
    var p3 := Delete(p2, "rows");
    var p4 := DeleteIf(p3, GetTc(q) == DEFAULT_TC, "tc");
    var p5 := DeleteIf(p4, GetGroupBy(q) == DEFAULT_GROUPBY, "group_by");
    var p6 := DeleteIf(p5, GetSort(q) == DEFAULT_SORT, "sort");
    DeleteIf(p6, GetQuery(q) == "", "q")
  }

  /** The browser URL never carries the paging keys; the window, grouping and
      sort appear only when they differ from their defaults, the text query only
      when it is non-empty, and every other key as it is. */
  lemma BuildURLQueryStringAt(q: Query, name: string)
    ensures name == "tc_start" || name == "offset" || name == "rows" ==> GetAll(BuildURLQueryString(q), name) == []
    ensures name == "tc" ==>
      GetAll(BuildURLQueryString(q), name) == (if GetTc(q) == DEFAULT_TC then [] else GetAll(q.params, name))
    ensures name == "group_by" ==>
      GetAll(BuildURLQueryString(q), name) == (if GetGroupBy(q) == DEFAULT_GROUPBY then [] else GetAll(q.params, name))
    ensures name == "sort" ==>
      GetAll(BuildURLQueryString(q), name) == (if GetSort(q) == DEFAULT_SORT then [] else GetAll(q.params, name))
    ensures name == "q" ==>
      GetAll(BuildURLQueryString(q), name) == (if GetQuery(q) == "" then [] else GetAll(q.params, name))
    ensures (name != "tc_start" && name != "offset" && name != "rows" && name != "tc"
              && name != "group_by" && name != "sort" && name != "q") ==>
      GetAll(BuildURLQueryString(q), name) == GetAll(q.params, name)
  {
    var p1 := Delete(q.params, "tc_start");
    var p2 := Delete(p1, "offset");
    var p3 := Delete(p2, "rows");
    var p4 := DeleteIf(p3, GetTc(q) == DEFAULT_TC, "tc");
    var p5 := DeleteIf(p4, GetGroupBy(q) == DEFAULT_GROUPBY, "group_by");
    var p6 := DeleteIf(p5, GetSort(q) == DEFAULT_SORT, "sort");
    assert BuildURLQueryString(q) == DeleteIf(p6, GetQuery(q) == "", "q");
    DeleteAt(q.params, "tc_start", name);
    DeleteAt(p1, "offset", name);
    DeleteAt(p2, "rows", name);
    DeleteIfAt(p3, GetTc(q) == DEFAULT_TC, "tc", name);
    DeleteIfAt(p4, GetGroupBy(q) == DEFAULT_GROUPBY, "group_by", name);
    DeleteIfAt(p5, GetSort(q) == DEFAULT_SORT, "sort", name);
    DeleteIfAt(p6, GetQuery(q) == "", "q", name);
    if name == "tc_start" {
    } else if name == "offset" {
    } else if name == "rows" {
    } else if name == "tc" {
    } else if name == "group_by" {
    } else if name == "sort" {
    } else if name == "q" {
    } else {
    }
  }

  /** `buildAPIQueryString`, as the pair list it serialises. */
  function BuildAPIQueryString(q: Query): Params
  {
    var p1 := Delete(q.params, "group_by");
    var p2 := DeleteIf(p1, GetTc(q) == "", "tc");
    DeleteIf(p2, GetQuery(q) == "", "q")
  }

  /** The API never receives the grouping; the window and the text query are
      dropped only when empty; every other key, paging included, is kept. */
  lemma BuildAPIQueryStringAt(q: Query, name: string)
    ensures name == "group_by" ==> GetAll(BuildAPIQueryString(q), name) == []
    ensures name == "tc" ==>
      GetAll(BuildAPIQueryString(q), name) == (if GetTc(q) == "" then [] else GetAll(q.params, name))
    ensures name == "q" ==>
      GetAll(BuildAPIQueryString(q), name) == (if GetQuery(q) == "" then [] else GetAll(q.params, name))
    ensures name != "group_by" && name != "tc" && name != "q" ==>
      GetAll(BuildAPIQueryString(q), name) == GetAll(q.params, name)
  {
    if name == "group_by" {
    } else if name == "tc" {
    } else if name == "q" {
    } else {
    }
  }

  /** A query freshly built from an empty search has an empty URL form: every
      key it holds is a default the URL leaves out. */
  lemma URLQueryStringOfDefaults(path: string, pageSize: int, name: string)
    ensures !Has(BuildURLQueryString(New(path, [], pageSize, true)), name)
  {
    var q := New(path, [], pageSize, true);
    NewAt(path, [], pageSize, "tc");
    NewAt(path, [], pageSize, "group_by");
    NewAt(path, [], pageSize, "sort");
    NewAt(path, [], pageSize, "q");
    NewAt(path, [], pageSize, name);
    BuildURLQueryStringAt(q, name);
  }

  // ---------------------------------------------------------------------------
  // newBase
  // ---------------------------------------------------------------------------

  function Last(s: seq<string>): string
    requires |s| > 0
  {
    s[|s| - 1]
  }

  /** The accepted pairs of `p`, each `set` in turn into an empty list. */
  function SetAccepted(p: Params, keep: string -> bool): Params
    decreases |p|
  {
    if |p| == 0 then []
    else
      var prev := SetAccepted(p[..|p| - 1], keep);
      if keep(p[|p| - 1].0) then Set(prev, p[|p| - 1].0, p[|p| - 1].1) else prev
  }

  /** An accepted key keeps one value, the last one it had; any other key is gone. */
  lemma {:induction false} SetAcceptedAt(p: Params, keep: string -> bool, name: string)
    decreases |p|
    ensures GetAll(SetAccepted(p, keep), name) ==
      if keep(name) && Has(p, name) then [Last(GetAll(p, name))] else []
  {
    if |p| > 0 {
      var init := p[..|p| - 1];
      var (k, v) := p[|p| - 1];
      assert p == init + [(k, v)];
      GetAllConcat(init, [(k, v)], name);
      SetAcceptedAt(init, keep, name);
    }
  }

  /** `newBase(accept)`: the defaults of the fresh query are discarded and only
      accepted pairs survive. */
  function NewBase(q: Query, accept: Option<string -> bool>): (r: Query)
    ensures r.path == q.path && r.pageSize == q.pageSize
    ensures accept.None? ==> r.params == []
  {
    var blank := New(q.path, [], q.pageSize, true);
    match accept
    case None => blank.(params := [])
    case Some(keep) => blank.(params := SetAccepted(q.params, keep))
  }

  lemma NewBaseAt(q: Query, keep: string -> bool, name: string)
    ensures GetAll(NewBase(q, Some(keep)).params, name) ==
      if keep(name) && Has(q.params, name) then [Last(GetAll(q.params, name))] else []
  {
    SetAcceptedAt(q.params, keep, name);
  }

  // ---------------------------------------------------------------------------
  // Filters
  // ---------------------------------------------------------------------------

  /** `filter.split(':')[0]`: the text before the first colon. */
  function TypePrefix(filter: string): (r: string)
    ensures StartsWith(filter, r)
    ensures ':' !in r
    ensures |r| < |filter| ==> filter[|r|] == ':'
  {
    if |filter| == 0 || filter[0] == ':' then ""
    else [filter[0]] + TypePrefix(filter[1..])
  }

  function ResolveType(prefix: string): FilterType
  {
    if prefix == "status" then Status
    else if prefix == "priority" then Priority
    else if prefix == "label" then Label
    else QueryFilter
  }

  function KindOf(filter: string): FilterType
  {
    ResolveType(TypePrefix(filter))
  }

  /** `parseFilterValue(id, filter)`. */
  function ParseFilterValue(id: int, filter: string): (r: SearchFilter)
    ensures r.id == id && r.labelText == filter && r.value == filter
    ensures r.kind != Blank
    ensures r.kind == Status <==> TypePrefix(filter) == "status"
    ensures r.kind == Priority <==> TypePrefix(filter) == "priority"
    ensures r.kind == Label <==> TypePrefix(filter) == "label"
  {
    SearchFilter(id, KindOf(filter), filter, filter)
  }

  /** The parsed filters of `fqs` whose type is `kind`, numbered from `start` by position. */
  function Bucket(fqs: seq<string>, start: int, kind: FilterType): (r: seq<SearchFilter>)
    ensures |r| <= |fqs|
    ensures forall i :: 0 <= i < |r| ==> r[i].kind == kind
  {
    if |fqs| == 0 then []
    else
      var f := ParseFilterValue(start, fqs[0]);
      (if f.kind == kind then [f] else []) + Bucket(fqs[1..], start + 1, kind)
  }

  /** `parseFilters`. */
  function ParseFilters(q: Query): (r: Filters)
    ensures r.tc == GetTc(q) && r.groupBy == GetGroupBy(q) && r.sort == GetSort(q)
    ensures forall i :: 0 <= i < |r.statuses| ==> r.statuses[i].kind == Status
    ensures forall i :: 0 <= i < |r.priorities| ==> r.priorities[i].kind == Priority
    ensures forall i :: 0 <= i < |r.labels| ==> r.labels[i].kind == Label
    ensures forall i :: 0 <= i < |r.queries| ==> r.queries[i].kind == QueryFilter
  {
    var fqs := GetFqList(q);
    Filters(
      GetGroupBy(q), GetSort(q), GetTc(q),
      Bucket(fqs, 0, Label), Bucket(fqs, 0, Priority), Bucket(fqs, 0, QueryFilter), Bucket(fqs, 0, Status))
  }

  /** Reference definition: the filter strings of type `kind`, in order. */
  function OfKind(fqs: seq<string>, kind: FilterType): seq<string>
  {
    if |fqs| == 0 then []
    else (if KindOf(fqs[0]) == kind then [fqs[0]] else []) + OfKind(fqs[1..], kind)
  }

  /** A bucket holds exactly the filter strings of its type, in order. */
  lemma {:induction false} BucketIsOfKind(fqs: seq<string>, start: int, kind: FilterType)
    ensures Values(Bucket(fqs, start, kind)) == OfKind(fqs, kind)
  {
    if |fqs| > 0 {
      BucketIsOfKind(fqs[1..], start + 1, kind);
      var f := ParseFilterValue(start, fqs[0]);
      var head: seq<SearchFilter> := if f.kind == kind then [f] else [];
      ValuesConcat(head, Bucket(fqs[1..], start + 1, kind));
    }
  }

  /** Each filter in a bucket is numbered by its position in the `fq` list. */
  lemma {:induction false} BucketIds(fqs: seq<string>, start: int, kind: FilterType)
    ensures forall i :: 0 <= i < |Bucket(fqs, start, kind)| ==>
      && start <= Bucket(fqs, start, kind)[i].id < start + |fqs|
      && fqs[Bucket(fqs, start, kind)[i].id - start] == Bucket(fqs, start, kind)[i].value
  {
    if |fqs| > 0 {
      BucketIds(fqs[1..], start + 1, kind);
      var f := ParseFilterValue(start, fqs[0]);
      var head: seq<SearchFilter> := if f.kind == kind then [f] else [];
      var tail := Bucket(fqs[1..], start + 1, kind);
      var b := Bucket(fqs, start, kind);
      assert b == head + tail;
      forall i | 0 <= i < |b|
        ensures start <= b[i].id < start + |fqs| && fqs[b[i].id - start] == b[i].value
      {
        if i < |head| {
          assert b[i] == f;
        } else {
          var k := i - |head|;
          assert 0 <= k < |tail|;
          var g := tail[k];
          assert b[i] == g;
          assert start + 1 <= g.id < start + |fqs|;
          assert fqs[1..][g.id - (start + 1)] == g.value;
        }
      }
    }
  }

  /** Every `fq` lands in exactly one bucket: the bucket sizes add up to the list's. */
  lemma {:induction false} OfKindSizesSum(fqs: seq<string>)
    ensures |OfKind(fqs, Status)| + |OfKind(fqs, Priority)|
          + |OfKind(fqs, Label)| + |OfKind(fqs, QueryFilter)| == |fqs|
  {
    if |fqs| > 0 {
      OfKindSizesSum(fqs[1..]);
    }
  }

  lemma ParseFiltersPartition(q: Query)
    ensures var f := ParseFilters(q);
      |f.statuses| + |f.priorities| + |f.labels| + |f.queries| == |GetFqList(q)|
  {
    var fqs := GetFqList(q);
    BucketIsOfKind(fqs, 0, Status);
    BucketIsOfKind(fqs, 0, Priority);
    BucketIsOfKind(fqs, 0, Label);
    BucketIsOfKind(fqs, 0, QueryFilter);
    OfKindSizesSum(fqs);
  }

  lemma {:induction false} OfKindConcat(a: seq<string>, b: seq<string>, kind: FilterType)
    ensures OfKind(a + b, kind) == OfKind(a, kind) + OfKind(b, kind)
  {
    if |a| > 0 {
      assert (a + b)[1..] == a[1..] + b;
      OfKindConcat(a[1..], b, kind);
    } else {
      assert a + b == b;
    }
  }

  /** Every filter string of `fqs` has type `kind`. */
  predicate AllOfKind(fqs: seq<string>, kind: FilterType)
  {
    forall i :: 0 <= i < |fqs| ==> KindOf(fqs[i]) == kind
  }

  lemma {:induction false} OfKindUniform(fqs: seq<string>, kind: FilterType, other: FilterType)
    requires AllOfKind(fqs, kind)
    ensures OfKind(fqs, other) == if other == kind then fqs else []
  {
    if |fqs| > 0 {
      OfKindUniform(fqs[1..], kind, other);
      assert [fqs[0]] + fqs[1..] == fqs;
    }
  }

  /** Every filter sits in the bucket its own prefix names. */
  predicate WellBucketed(f: Filters)
  {
    && AllOfKind(Values(f.statuses), Status) && AllOfKind(Values(f.priorities), Priority)
    && AllOfKind(Values(f.labels), Label) && AllOfKind(Values(f.queries), QueryFilter)
  }

  lemma OfKindOfAllValues(f: Filters, kind: FilterType)
    requires WellBucketed(f)
    ensures OfKind(AllValues(f), kind) ==
      (if kind == Status then Values(f.statuses) else [])
      + (if kind == Priority then Values(f.priorities) else [])
      + (if kind == Label then Values(f.labels) else [])
      + (if kind == QueryFilter then Values(f.queries) else [])
  {
    var s, p, l, u := Values(f.statuses), Values(f.priorities), Values(f.labels), Values(f.queries);
    OfKindConcat(s + p + l, u, kind);
    OfKindConcat(s + p, l, kind);
    OfKindConcat(s, p, kind);
    OfKindUniform(s, Status, kind);
    OfKindUniform(p, Priority, kind);
    OfKindUniform(l, Label, kind);
    OfKindUniform(u, QueryFilter, kind);
  }

  /** Installing filters and parsing them back gives the same window, grouping
      and sort, and the same values in each bucket, provided every filter sits in
      the bucket its own prefix names. */
  lemma SetFiltersThenParse(q: Query, f: Filters)
    requires WellBucketed(f)
    ensures var g := ParseFilters(SetFilters(q, f));
      && g.tc == f.tc && g.groupBy == f.groupBy && g.sort == f.sort
      && Values(g.statuses) == Values(f.statuses)
      && Values(g.priorities) == Values(f.priorities)
      && Values(g.labels) == Values(f.labels)
      && Values(g.queries) == Values(f.queries)
  {
    var r := SetFilters(q, f);
    SetFiltersAt(q, f, "tc");
    SetFiltersAt(q, f, "group_by");
    SetFiltersAt(q, f, "sort");
    SetFiltersAt(q, f, "fq");
    var fqs := GetFqList(r);
    assert fqs == AllValues(f);
    BucketIsOfKind(fqs, 0, Status);
    BucketIsOfKind(fqs, 0, Priority);
    BucketIsOfKind(fqs, 0, Label);
    BucketIsOfKind(fqs, 0, QueryFilter);
    OfKindOfAllValues(f, Status);
    OfKindOfAllValues(f, Priority);
    OfKindOfAllValues(f, Label);
    OfKindOfAllValues(f, QueryFilter);
  }
}
