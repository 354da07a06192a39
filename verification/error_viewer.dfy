/** The administrator's error viewer: the time window (`tc`) turned into a
    created-time filter and histogram range, the list, facet and histogram
    queries built from the page query, the search bar's search and clear
    actions, and the filter chips that toggle a `"NOT "` prefix. The page
    query (a `SimpleSearchQuery`) is modelled as its list of name/value pairs. */
module ErrorViewer {
  import opened Common
  import opened UrlParams

  /** The created-time filter of each time window. */
  const TC_MAP: map<string, string> := map[
    "null" := "created:[now-24h TO now]",
    "4d" := "created:[now-4d TO now]",
    "7d" := "created:[now-7d TO now]",
    "1m" := "created:[now-1M TO now]"]

  /** The histogram start of each time window. */
  const START_MAP: map<string, string> := map[
    "null" := "now-1d",
    "4d" := "now-4d",
    "7d" := "now-7d",
    "1m" := "now-1M",
    "1y" := "now-1y"]

  /** The histogram bucket width of each time window. */
  const GAP_MAP: map<string, string> := map[
    "null" := "1h",
    "4d" := "2h",
    "7d" := "4h",
    "1m" := "1d",
    "1y" := "15d"]

  /** The property key an object lookup uses for the popped `tc`: a missing
      window is `null`, whose key is the text `"null"`. */
  function TcKey(tc: Option<string>): (r: string)
    ensures tc.Some? ==> r == tc.value
  {
    if tc.None? then "null" else tc.value
  }

  // ---------------------------------------------------------------------------
  // The requests of one query
  // ---------------------------------------------------------------------------

  /** The paging of the list query: `tc` popped, `rows` and `offset` set to
      the first page. */
  function Paging(q: Params, pageSize: nat): Params
  {
    Set(Set(Delete(q, "tc"), "rows", NatToString(pageSize)), "offset", "0")
  }

  /** The list query: the paged query with the window's created-time filter
      added unless the window is `1y`. `None` when that filter is `undefined`
      (a window missing from the table), whose treatment by `add` is not part
      of this model. */
  function ListParams(q: Params, pageSize: nat): (r: Option<Params>)
    ensures r.None? <==> Get(q, "tc") != Some("1y") && TcKey(Get(q, "tc")) !in TC_MAP
  {
    var tc := Get(q, "tc");
    if tc == Some("1y") then Some(Paging(q, pageSize))
    else if TcKey(tc) in TC_MAP then Some(Append(Paging(q, pageSize), "filters", TC_MAP[TcKey(tc)]))
    else None
  }

  /** The list query seen from one name: no `tc`, the first page, the
      window's filter after the page's own filters, everything else as the
      page query has it. */
  lemma ListParamsAt(q: Params, pageSize: nat, name: string)
    requires ListParams(q, pageSize).Some?
    ensures GetAll(ListParams(q, pageSize).value, name) ==
      if name == "tc" then []
      else if name == "rows" then [NatToString(pageSize)]
      else if name == "offset" then ["0"]
      else if name == "filters" then
        GetAll(q, "filters") + (if Get(q, "tc") == Some("1y") then [] else [TC_MAP[TcKey(Get(q, "tc"))]])
      else GetAll(q, name)
  {
    var p := Delete(q, "tc");
    DeleteAt(q, "tc", name);
    SetAt(p, "rows", NatToString(pageSize), name);
    SetAt(Set(p, "rows", NatToString(pageSize)), "offset", "0", name);
  }

  /** The names the facet and histogram queries leave out. */
  predicate Excluded(name: string)
  {
    name == "rows" || name == "offset" || name == "sort" || name == "track_total_hits"
  }

  /** `curQuery.toString(['rows', 'offset', 'sort', 'track_total_hits'])`. */
  function FacetParams(p: Params): (r: Params)
    ensures forall name :: Excluded(name) ==> GetAll(r, name) == []
    ensures forall name :: !Excluded(name) ==> GetAll(r, name) == GetAll(p, name)
  {
    Filter(p, name => !Excluded(name))
  }

  /** The facet and histogram queries search what the list searches, filters
      and time filter included, without paging. */
  lemma FacetOfList(q: Params, pageSize: nat, l: Params)
    requires ListParams(q, pageSize) == Some(l)
    ensures GetAll(FacetParams(l), "rows") == []
    ensures GetAll(FacetParams(l), "offset") == []
    ensures GetAll(FacetParams(l), "filters") == GetAll(l, "filters")
    ensures GetAll(FacetParams(l), "query") == GetAll(q, "query")
  {
    FacetAt(l, "rows");
    FacetAt(l, "offset");
    FacetAt(l, "filters");
    FacetAt(l, "query");
    ListParamsAt(q, pageSize, "query");
  }

  lemma FacetAt(p: Params, name: string)
    ensures GetAll(FacetParams(p), name) == if Excluded(name) then [] else GetAll(p, name)
  {
  }

  /** The histogram's start and bucket width for the popped window, `None`
      when the window is missing from the tables. */
  function HistogramRange(tc: Option<string>): (r: Option<(string, string)>)
    ensures r.Some? <==> TcKey(tc) in START_MAP && TcKey(tc) in GAP_MAP
    ensures r.Some? ==> r.value == (START_MAP[TcKey(tc)], GAP_MAP[TcKey(tc)])
  {
    var key := TcKey(tc);
    if key in START_MAP && key in GAP_MAP then Some((START_MAP[key], GAP_MAP[key])) else None
  }

  /** Every window with a histogram range has a created-time filter except
      `1y`, and the two histogram tables cover the same windows. */
  lemma WindowTables()
    ensures START_MAP.Keys == GAP_MAP.Keys
    ensures START_MAP.Keys == TC_MAP.Keys + {"1y"}
    ensures "1y" !in TC_MAP
  {
  }

  /** The default window: the last 24 hours, in hourly buckets. */
  lemma DayWindow(q: Params, pageSize: nat)
    requires Get(q, "tc").None?
    ensures ListParams(q, pageSize).Some?
    ensures GetAll(ListParams(q, pageSize).value, "filters") == GetAll(q, "filters") + ["created:[now-24h TO now]"]
  {
    DayFilter();
    ListParamsAt(q, pageSize, "filters");
  }

  lemma DayFilter()
    ensures TcKey(None) in TC_MAP && TC_MAP[TcKey(None)] == "created:[now-24h TO now]"
    ensures HistogramRange(None) == Some(("now-1d", "1h"))
  {
  }

  lemma WeekWindow()
    ensures TC_MAP[TcKey(Some("7d"))] == "created:[now-7d TO now]"
    ensures HistogramRange(Some("7d")) == Some(("now-7d", "4h"))
  {
  }

  /** The year window adds no created-time filter. */
  lemma YearWindow(q: Params, pageSize: nat)
    requires Get(q, "tc") == Some("1y")
    ensures ListParams(q, pageSize).Some?
    ensures GetAll(ListParams(q, pageSize).value, "filters") == GetAll(q, "filters")
    ensures HistogramRange(Get(q, "tc")) == Some(("now-1y", "15d"))
  {
    ListParamsAt(q, pageSize, "filters");
  }

  /** A window missing from the tables (such as `24h`) gets neither a
      created-time filter nor a histogram range. */
  lemma UnlistedWindow(q: Params, pageSize: nat)
    requires Get(q, "tc") == Some("24h")
    ensures ListParams(q, pageSize).None?
    ensures HistogramRange(Get(q, "tc")).None?
  {
  }

  // ---------------------------------------------------------------------------
  // Search and clear
  // ---------------------------------------------------------------------------

  /** Where the page navigates: the same path with a new query, or the bare
      path. */
  datatype Nav = ToQuery(params: Params) | ToPath

  /** `onClear`: with filters the query text is dropped and the filters kept;
      without, the page goes to its bare path. */
  function Clear(q: Params): (r: Nav)
    ensures r.ToQuery? <==> GetAll(q, "filters") != []
    ensures r.ToQuery? ==> GetAll(r.params, "query") == []
    ensures r.ToQuery? ==> forall other :: other != "query" ==> GetAll(r.params, other) == GetAll(q, other)
  {
    if |GetAll(q, "filters")| != 0 then ToQuery(Delete(q, "query")) else ToPath
  }

  /** `onSearch`: a non-empty search text becomes the only `query` value;
      an empty one clears. */
  function Search(q: Params, filterValue: string): (r: Nav)
    ensures filterValue != "" ==> r.ToQuery? && GetAll(r.params, "query") == [filterValue]
    ensures filterValue != "" ==> forall other :: other != "query" ==> GetAll(r.params, other) == GetAll(q, other)
    ensures filterValue == "" ==> r == Clear(q)
  {
    if filterValue != "" then ToQuery(Set(q, "query", filterValue)) else Clear(q)
  }

  /** Whatever is searched, the filters survive, unless there were none and
      the page goes to its bare path; the query text is the search text or
      gone. */
  lemma SearchKeepsFilters(q: Params, filterValue: string)
    ensures Search(q, filterValue).ToPath? <==> filterValue == "" && GetAll(q, "filters") == []
    ensures Search(q, filterValue).ToQuery? ==>
      GetAll(Search(q, filterValue).params, "filters") == GetAll(q, "filters")
    ensures Search(q, filterValue).ToQuery? ==>
      GetAll(Search(q, filterValue).params, "query") == (if filterValue == "" then [] else [filterValue])
  {
    if filterValue != "" {
      SetAt(q, "query", filterValue, "filters");
    } else if GetAll(q, "filters") != [] {
      DeleteAt(q, "query", "filters");
      DeleteAt(q, "query", "query");
    }
  }

  // ---------------------------------------------------------------------------
  // Filter chips
  // ---------------------------------------------------------------------------

  const NOT: string := "NOT "

  /** `v.indexOf('NOT ') === 0`. */
  predicate Negated(v: string)
  {
    IndexOf(v, NOT) == 0
  }

  /** A chip is coloured as an error exactly when its filter is negated. */
  function ChipColor(v: string): (r: Option<string>)
    ensures r == Some("error") <==> StartsWith(v, NOT)
    ensures r.None? <==> !StartsWith(v, NOT)
  {
    StartsWithIsIndexZero(v, NOT);
    if Negated(v) then Some("error") else None
  }

  /** A chip click: a negated filter loses its `"NOT "`, any other gains one. */
  function Toggle(v: string): (r: string)
    ensures StartsWith(v, NOT) ==> NOT + r == v
    ensures !StartsWith(v, NOT) ==> r == NOT + v
  {
    StartsWithIsIndexZero(v, NOT);
    if Negated(v) then
      assert v == v[..4] + v[4..];
      SubstringFrom(v, 4)
    else NOT + v
  }

  /** Toggling twice gives back the filter, and the colour flips each time,
      unless the filter is negated twice over (`"NOT NOT x"` stays red). */
  lemma ToggleTwice(v: string)
    requires !StartsWith(v, NOT) || !StartsWith(v[4..], NOT)
    ensures Toggle(Toggle(v)) == v
    ensures ChipColor(Toggle(v)).None? <==> ChipColor(v).Some?
  {
    if StartsWith(v, NOT) {
      assert v == NOT + v[4..];
    } else {
      assert (NOT + v)[..4] == NOT;
      assert (NOT + v)[4..] == v;
    }
  }

  /** `query.replace(name, was, now)`: every `was` value of `name` becomes
      `now`, in place. */
  function ReplaceValue(p: Params, name: string, was: string, now: string): (r: Params)
    ensures |r| == |p|
    ensures forall i :: 0 <= i < |p| ==> r[i] == (if p[i] == (name, was) then (name, now) else p[i])
  {
    if |p| == 0 then []
    else [if p[0] == (name, was) then (name, now) else p[0]] + ReplaceValue(p[1..], name, was, now)
  }

  /** Replacing a value leaves the other names alone. */
  lemma {:induction false} ReplaceValueOthers(p: Params, name: string, was: string, now: string, other: string)
    requires other != name
    ensures GetAll(ReplaceValue(p, name, was, now), other) == GetAll(p, other)
  {
    if |p| > 0 {
      var r := ReplaceValue(p, name, was, now);
      assert r[1..] == ReplaceValue(p[1..], name, was, now);
      ReplaceValueOthers(p[1..], name, was, now, other);
    }
  }

  /** A chip click on the filter `v`. */
  function ToggleChip(q: Params, v: string): (r: Params)
    ensures |r| == |q|
    ensures forall other :: other != "filters" ==> GetAll(r, other) == GetAll(q, other)
  {
    forall other | other != "filters" ensures GetAll(ReplaceValue(q, "filters", v, Toggle(v)), other) == GetAll(q, other) {
      ReplaceValueOthers(q, "filters", v, Toggle(v), other);
    }
    ReplaceValue(q, "filters", v, Toggle(v))
  }

  /** Clicking a chip and then the chip it became restores the query, as long
      as the toggled filter was not already present. */
  lemma {:induction false} ToggleChipTwice(q: Params, v: string)
    requires !StartsWith(v, NOT) || !StartsWith(v[4..], NOT)
    requires ("filters", Toggle(v)) !in q
    ensures ToggleChip(ToggleChip(q, v), Toggle(v)) == q
  {
    ToggleTwice(v);
    var once := ToggleChip(q, v);
    var twice := ToggleChip(once, Toggle(v));
    forall i | 0 <= i < |q|
      ensures twice[i] == q[i]
    {
      assert q[i] in q;
    }
  }

  /** `query.remove(name, value)`: that name/value pair dropped, every other
      pair kept in order. */
  function RemoveValue(p: Params, name: string, value: string): (r: Params)
    ensures (name, value) !in r
    ensures forall x :: x in r ==> x in p
    ensures forall x :: x in p && x != (name, value) ==> x in r
  {
    if |p| == 0 then []
    else if p[0] == (name, value) then RemoveValue(p[1..], name, value)
    else [p[0]] + RemoveValue(p[1..], name, value)
  }

  /** Removal works pair by pair: a single pair stays exactly when it is not
      the one removed, and removing from a concatenation removes from each
      part in turn, so the other pairs keep their order. */
  lemma {:induction false} RemoveValueConcat(a: Params, b: Params, name: string, value: string)
    ensures RemoveValue(a + b, name, value) == RemoveValue(a, name, value) + RemoveValue(b, name, value)
    ensures forall x :: RemoveValue([x], name, value) == (if x != (name, value) then [x] else [])
  {
    if |a| == 0 {
      assert a + b == b;
    } else {
      assert (a + b)[1..] == a[1..] + b;
      RemoveValueConcat(a[1..], b, name, value);
    }
    forall x
      ensures RemoveValue([x], name, value) == (if x != (name, value) then [x] else [])
    {
      assert [x][1..] == [];
    }
  }
}
