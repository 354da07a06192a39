/** The chips of the selected alert filters: which chips show, and the filters
    (and text query) reported when a chip is deleted. */
module AlertsFilters {
  import opened Common
  import opened SearchQuery

  /** The four filter buckets a chip can belong to. */
  datatype Bucket = Statuses | Priorities | Labels | Queries

  /** What `onChange(filters, query?)` receives; `None` is an omitted query. */
  datatype Change = Change(filters: Filters, query: Option<string>)

  function BucketOf(f: Filters, b: Bucket): seq<SearchFilter>
  {
    match b
    case Statuses => f.statuses
    case Priorities => f.priorities
    case Labels => f.labels
    case Queries => f.queries
  }

  function WithBucket(f: Filters, b: Bucket, fs: seq<SearchFilter>): (r: Filters)
    ensures BucketOf(r, b) == fs
    ensures forall c :: c != b ==> BucketOf(r, c) == BucketOf(f, c)
    ensures r.tc == f.tc && r.groupBy == f.groupBy && r.sort == f.sort
  {
    match b
    case Statuses => f.(statuses := fs)
    case Priorities => f.(priorities := fs)
    case Labels => f.(labels := fs)
    case Queries => f.(queries := fs)
  }

  /** `fs.filter(s => s.value !== value)`: every entry with that value goes,
      the rest keep their order. */
  function RemoveValue(fs: seq<SearchFilter>, value: string): (r: seq<SearchFilter>)
    ensures |r| <= |fs|
    ensures forall x :: x in r <==> x in fs && x.value != value
  {
    if |fs| == 0 then []
    else (if fs[0].value != value then [fs[0]] else []) + RemoveValue(fs[1..], value)
  }

  /** The filter looks at the first entry, then at the rest: that entry
      stays exactly when its value differs (so a lone entry is kept or
      dropped on its own). */
  lemma RemoveValueCons(x: SearchFilter, rest: seq<SearchFilter>, value: string)
    ensures RemoveValue([x] + rest, value) == (if x.value != value then [x] else []) + RemoveValue(rest, value)
    ensures RemoveValue([x], value) == (if x.value != value then [x] else [])
  {
    assert ([x] + rest)[1..] == rest;
    assert [x][1..] == [];
  }

  /** Filtering a concatenation filters each part in turn, so the survivors
      keep their order. */
  lemma {:induction false} RemoveValueConcat(a: seq<SearchFilter>, b: seq<SearchFilter>, value: string)
    ensures RemoveValue(a + b, value) == RemoveValue(a, value) + RemoveValue(b, value)
  {
    if |a| == 0 {
      assert a + b == b;
    } else {
      var x, t := a[0], a[1..];
      assert a + b == [x] + (t + b);
      assert a == [x] + t;
      RemoveValueConcat(t, b, value);
      RemoveValueCons(x, t + b, value);
      RemoveValueCons(x, t, value);
      if x.value != value {
        SeqAssoc([x], RemoveValue(t, value), RemoveValue(b, value));
      } else {
        SeqAssoc([], RemoveValue(t, value), RemoveValue(b, value));
      }
    }
  }

  /** Removing a value no entry carries changes nothing. */
  lemma {:induction false} RemoveAbsentValue(fs: seq<SearchFilter>, value: string)
    requires forall i :: 0 <= i < |fs| ==> fs[i].value != value
    ensures RemoveValue(fs, value) == fs
  {
    if |fs| > 0 {
      RemoveAbsentValue(fs[1..], value);
      assert [fs[0]] + fs[1..] == fs;
    }
  }

  /** Removing the same value twice is removing it once. */
  lemma RemoveValueIdempotent(fs: seq<SearchFilter>, value: string)
    ensures RemoveValue(RemoveValue(fs, value), value) == RemoveValue(fs, value)
  {
    var r := RemoveValue(fs, value);
    assert forall i :: 0 <= i < |r| ==> r[i] in r;
    RemoveAbsentValue(r, value);
  }

  /** `onDeleteStatus`/`onDeletePriority`/`onDeleteLabel`/`onDeleteQuery`: the
      chip's value leaves its own bucket only. */
  function DeleteChip(f: Filters, b: Bucket, item: SearchFilter): (r: Change)
    ensures r.query.None?
    ensures BucketOf(r.filters, b) == RemoveValue(BucketOf(f, b), item.value)
    ensures forall c :: c != b ==> BucketOf(r.filters, c) == BucketOf(f, c)
    ensures r.filters.tc == f.tc && r.filters.groupBy == f.groupBy && r.filters.sort == f.sort
  {
    Change(WithBucket(f, b, RemoveValue(BucketOf(f, b), item.value)), None)
  }

  /** `onDeleteMainQuery`: the filters as they are, the text query emptied. */
  function DeleteMainQuery(f: Filters): (r: Change)
    ensures r.filters == f && r.query == Some("")
  {
    Change(f, Some(""))
  }

  /** `onDeleteTC`. */
  function DeleteTc(f: Filters): (r: Change)
    ensures r.filters.tc == "" && r.filters.(tc := f.tc) == f && r.query.None?
  {
    Change(f.(tc := ""), None)
  }

  /** `onDeleteGroupBy`. */
  function DeleteGroupBy(f: Filters): (r: Change)
    ensures r.filters.groupBy == "" && r.filters.(groupBy := f.groupBy) == f && r.query.None?
  {
    Change(f.(groupBy := ""), None)
  }

  // ---------------------------------------------------------------------------
  // Which chips show; `None` filters stand for an absent search query.
  // ---------------------------------------------------------------------------

  predicate ShowQueryChip(query: string, hideQuery: bool)
  {
    query != "" && !hideQuery
  }

  predicate ShowTcChip(f: Option<Filters>)
  {
    f.Some? && f.value.tc != ""
  }

  predicate ShowGroupByChip(f: Option<Filters>, hideGroupBy: bool)
  {
    f.Some? && f.value.groupBy != "" && !hideGroupBy
  }

  predicate ShowBucketChips(f: Option<Filters>, b: Bucket)
  {
    f.Some? && |BucketOf(f.value, b)| != 0
  }

  /** A deleted chip is gone from what is reported: the window and grouping
      chips no longer show, and no chip of the bucket carries the value. */
  lemma DeletedChipGone(f: Filters, b: Bucket, item: SearchFilter, hideGroupBy: bool)
    ensures !ShowTcChip(Some(DeleteTc(f).filters))
    ensures !ShowGroupByChip(Some(DeleteGroupBy(f).filters), hideGroupBy)
    ensures !ShowQueryChip(DeleteMainQuery(f).query.value, false)
    ensures forall x :: x in BucketOf(DeleteChip(f, b, item).filters, b) ==> x.value != item.value
  {
  }

  /** Deleting a chip keeps every other filter value of its bucket. */
  lemma DeleteChipKeepsOthers(f: Filters, b: Bucket, item: SearchFilter, x: SearchFilter)
    requires x in BucketOf(f, b) && x.value != item.value
    ensures x in BucketOf(DeleteChip(f, b, item).filters, b)
  {
  }

  /** Concatenation regroups freely. */
  lemma SeqAssoc<T>(h: seq<T>, p: seq<T>, q: seq<T>)
    ensures h + (p + q) == (h + p) + q
  {
  }
}
