/** The labels section of an archived file: the three label categories shown
    sorted, the add/delete confirmation dialog with its draft label, the
    requests it sends, and how the labels are rebuilt from a response. */
module ArchiveLabels {
  import opened Common
  import opened LabelOrder

  /** `Object.keys(DEFAULT_LABELS)`, which is also `Object.keys(LABELS)`. */
  const CATEGORIES: seq<string> := ["attribution", "technique", "info"]

  /** The value a category holds in the labels object: an array of labels, or
      anything else. */
  datatype CatValue = Arr(items: seq<string>) | NotArray

  /** The labels object, members in order; `None` is `null`. */
  type Labels = Option<seq<(string, CatValue)>>

  /** `labels[cat]`, `undefined` (here `NotArray`) when the key is missing:
      the value of the first member with that key. */
  function CatOf(members: seq<(string, CatValue)>, cat: string): (r: CatValue)
    ensures r.Arr? ==> exists i :: 0 <= i < |members| && members[i] == (cat, r)
    ensures (forall i :: 0 <= i < |members| ==> members[i].0 != cat) ==> r == NotArray
    ensures forall k ::
      0 <= k < |members| && members[k].0 == cat && (forall j :: 0 <= j < k ==> members[j].0 != cat)
      ==> r == members[k].1
  {
    if |members| == 0 then NotArray
    else if members[0].0 == cat then members[0].1
    else CatOf(members[1..], cat)
  }

  /** `sortedLabels`: each category's labels sorted, or none when the category
      is not an array or there are no labels at all. */
  function SortedLabels(labels: Labels, le: (string, string) -> bool): (r: seq<(string, seq<string>)>)
    ensures |r| == 3
    ensures forall i :: 0 <= i < 3 ==> r[i].0 == CATEGORIES[i]
    ensures labels.None? ==> forall i :: 0 <= i < 3 ==> r[i].1 == []
    ensures labels.Some? ==> forall i :: 0 <= i < 3 ==>
      r[i].1 == (match CatOf(labels.value, CATEGORIES[i])
                 case Arr(items) => Sort(items, le)
                 case NotArray => [])
  {
    if labels.None? then [("attribution", []), ("technique", []), ("info", [])]
    else
      var ms := labels.value;
      seq(3, i requires 0 <= i < 3 =>
        (CATEGORIES[i], match CatOf(ms, CATEGORIES[i])
                        case Arr(items) => Sort(items, le)
                        case NotArray => []))
  }

  /** Every list shown is sorted, and holds exactly the labels of its category
      (each as many times as given). */
  lemma SortedLabelsSpec(labels: Labels, le: (string, string) -> bool, i: int)
    requires TotalPreorder(le)
    requires 0 <= i < 3
    ensures Sorted(SortedLabels(labels, le)[i].1, le)
    ensures labels.Some? && CatOf(labels.value, CATEGORIES[i]).Arr? ==>
      multiset(SortedLabels(labels, le)[i].1) == multiset(CatOf(labels.value, CATEGORIES[i]).items)
  {
    if labels.Some? && CatOf(labels.value, CATEGORIES[i]).Arr? {
      SortSorted(CatOf(labels.value, CATEGORIES[i]).items, le);
    }
  }

  // ---------------------------------------------------------------------------
  // Rebuilding from a response
  // ---------------------------------------------------------------------------

  /** What a category of `label_categories` holds in a response: a list of
      labels, a string (spread into its characters), or any other value
      (spreading it throws). */
  datatype CatData = List(labels: seq<string>) | Text(s: string) | Other

  /** `api_response?.label_categories`: absent or null, an object, an array,
      or a primitive (for which `k in data` throws). */
  datatype Categories = Absent | Object(members: seq<(string, CatData)>) | ArrayValue | Primitive

  function CatDataOf(members: seq<(string, CatData)>, cat: string): (r: Option<CatData>)
    ensures r.Some? ==> exists i :: 0 <= i < |members| && members[i] == (cat, r.value)
    ensures r.None? <==> forall i :: 0 <= i < |members| ==> members[i].0 != cat
    ensures forall k ::
      0 <= k < |members| && members[k].0 == cat && (forall j :: 0 <= j < k ==> members[j].0 != cat)
      ==> r == Some(members[k].1)
  {
    if |members| == 0 then None
    else if members[0].0 == cat then Some(members[0].1)
    else CatDataOf(members[1..], cat)
  }

  /** The characters of a string as one-character strings (`[...s]`). */
  function Chars(s: string): (r: seq<string>)
    ensures |r| == |s|
    ensures forall i :: 0 <= i < |s| ==> r[i] == [s[i]]
  {
    if |s| == 0 then [] else [[s[0]]] + Chars(s[1..])
  }

  /** `[...(k in data ? data[k] : [])]` for one category. */
  function Spread(data: Categories, cat: string): (r: Result<seq<string>>)
    ensures data.Absent? || data.ArrayValue? ==> r == Ok([])
    ensures data.Primitive? ==> r.Thrown?
    ensures data.Object? && CatDataOf(data.members, cat).None? ==> r == Ok([])
    ensures data.Object? && CatDataOf(data.members, cat).Some? && CatDataOf(data.members, cat).value.List? ==>
      r == Ok(CatDataOf(data.members, cat).value.labels)
    ensures data.Object? && CatDataOf(data.members, cat) == Some(Other) ==> r.Thrown?
  {
    match data
    case Absent => Ok([])
    case ArrayValue => Ok([])
    case Primitive => Thrown
    case Object(ms) =>
      match CatDataOf(ms, cat)
      case None => Ok([])
      case Some(List(ls)) => Ok(ls)
      case Some(Text(s)) => Ok(Chars(s))
      case Some(Other) => Thrown
  }

  /** The labels set after a successful add or delete: exactly the three
      categories, each copied from the response or empty. */
  function Rebuild(data: Categories): (r: Result<Labels>)
    ensures r.Ok? <==> Spread(data, "attribution").Ok? && Spread(data, "technique").Ok? && Spread(data, "info").Ok?
    ensures r.Ok? ==> (r.value.Some? && |r.value.value| == 3
      && forall i :: 0 <= i < 3 ==> r.value.value[i] == (CATEGORIES[i], Arr(Spread(data, CATEGORIES[i]).value)))
  {
    var a := Spread(data, "attribution");
    var t := Spread(data, "technique");
    var n := Spread(data, "info");
    if a.Thrown? || t.Thrown? || n.Thrown? then Thrown
    else Ok(Some([("attribution", Arr(a.value)), ("technique", Arr(t.value)), ("info", Arr(n.value))]))
  }

  /** After a rebuild from a response listing each category, the section shows
      each category's labels from the response, sorted; a category the
      response leaves out shows empty. */
  lemma RebuildThenShow(data: Categories, le: (string, string) -> bool, i: int)
    requires 0 <= i < 3
    requires Rebuild(data).Ok?
    ensures SortedLabels(Rebuild(data).value, le)[i].1 == Sort(Spread(data, CATEGORIES[i]).value, le)
    ensures data.Object? && CatDataOf(data.members, CATEGORIES[i]).None? ==> SortedLabels(Rebuild(data).value, le)[i].1 == []
  {
    var ms := Rebuild(data).value.value;
    assert ms[i] == (CATEGORIES[i], Arr(Spread(data, CATEGORIES[i]).value));
    assert "attribution"[0] != "technique"[0] && "attribution"[0] != "info"[0] && "technique"[0] != "info"[0];
    if i == 1 {
      assert CatOf(ms, CATEGORIES[i]) == CatOf(ms[1..], CATEGORIES[i]);
    } else if i == 2 {
      assert CatOf(ms, CATEGORIES[i]) == CatOf(ms[1..], CATEGORIES[i]);
      assert CatOf(ms[1..], CATEGORIES[i]) == CatOf(ms[2..], CATEGORIES[i]);
    }
  }

  // ---------------------------------------------------------------------------
  // The confirmation dialog
  // ---------------------------------------------------------------------------

  datatype Kind = Add | Delete

  /** The draft label: value and category, either of which an autocomplete
      option may leave undefined. */
  datatype Draft = Draft(value: Option<string>, category: Option<string>)

  const EMPTY_DRAFT: Draft := Draft(Some(""), Some(""))

  datatype Dialog = Dialog(open: bool, kind: Kind, draft: Draft, waiting: bool)

  /** `[null, undefined, ''].includes(x)`. */
  predicate Blank(x: Option<string>)
  {
    x.None? || x.value == ""
  }

  /** The confirm button is disabled while the value or category is blank or
      a request is in flight. */
  predicate ConfirmDisabled(d: Dialog)
  {
    Blank(d.draft.value) || Blank(d.draft.category) || d.waiting
  }

  /** `handleAddConfirmation`: an open add dialog with an empty draft. */
  function OpenAdd(d: Dialog): (r: Dialog)
    ensures r.open && r.kind == Add && r.draft == EMPTY_DRAFT && r.waiting == d.waiting
  {
    d.(open := true, kind := Add, draft := EMPTY_DRAFT)
  }

  /** `handleDeleteConfirmation`: an open delete dialog for the chosen label. */
  function OpenDelete(d: Dialog, category: string, labelText: string): (r: Dialog)
    ensures r.open && r.kind == Delete && r.draft == Draft(Some(labelText), Some(category)) && r.waiting == d.waiting
  {
    d.(open := true, kind := Delete, draft := Draft(Some(labelText), Some(category)))
  }

  /** `handleCloseConfirmation`. */
  function CloseDialog(d: Dialog): (r: Dialog)
    ensures !r.open && r.(open := d.open) == d
  {
    d.(open := false)
  }

  /** The `onExit` of an add or delete request: whatever the outcome, the
      dialog closes, keeps its kind, and the draft empties. */
  function RequestFinished(d: Dialog, kind: Kind): (r: Dialog)
    ensures r == Dialog(false, kind, EMPTY_DRAFT, false)
  {
    Dialog(false, kind, EMPTY_DRAFT, false)
  }

  /** A fresh add dialog cannot be confirmed until a value and category are
      entered; a delete dialog for a named label can, unless a request is in
      flight; a finished request leaves nothing to confirm. */
  lemma ConfirmStates(d: Dialog, category: string, labelText: string, kind: Kind)
    ensures ConfirmDisabled(OpenAdd(d))
    ensures ConfirmDisabled(OpenDelete(d, category, labelText)) <==> category == "" || labelText == "" || d.waiting
    ensures ConfirmDisabled(RequestFinished(d, kind))
  {
  }

  /** A label request: the body is `{ [category]: [value] }`, so a missing
      category becomes the key `"undefined"`, and a missing value is sent as a
      missing item. */
  datatype Request = Request(verb: string, url: string, category: string, value: Option<string>)

  /** The add (PUT) or delete (DELETE) request for the draft; none without a
      file. A blank category or value is sent as it is. */
  function LabelRequest(sha256: Option<string>, kind: Kind, draft: Draft): (r: Option<Request>)
    ensures r.Some? <==> sha256.Some? && sha256.value != ""
    ensures r.Some? ==> r.value.url == "/api/v4/file/label/" + sha256.value + "/"
    ensures r.Some? ==> r.value.verb == (if kind == Add then "PUT" else "DELETE")
  {
    if sha256.None? || sha256.value == "" then None
    else
      Some(Request(if kind == Add then "PUT" else "DELETE",
                   "/api/v4/file/label/" + sha256.value + "/",
                   if draft.category.Some? then draft.category.value else "undefined",
                   draft.value))
  }

  /** The suggestion search runs (after the debounce) only for an open add
      dialog on a file, and searches for the draft value. */
  function SuggestionQuery(sha256: Option<string>, d: Dialog): (r: Option<Option<string>>)
    ensures r.Some? <==> d.open && d.kind == Add && sha256.Some? && sha256.value != ""
    ensures r.Some? ==> r.value == d.draft.value
  {
    if d.open && d.kind == Add && sha256.Some? && sha256.value != "" then Some(d.draft.value) else None
  }
}
