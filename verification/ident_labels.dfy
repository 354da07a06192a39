/** The label editor of a file's identification section: labels loaded from
    the file information and sorted per category, an edit mode that snapshots
    the labels, per-category edits, cancel (back to the snapshot) and save
    (the sorted labels of the response). */
module IdentLabels {
  import opened Common
  import opened LabelOrder
  import opened ArchiveLabels

  /** Categories with their sorted label lists, in the object's key order. */
  type Categorized = seq<(string, seq<string>)>

  /** `sortingLabels`: every category with its list sorted. `Object.entries`
      of null or undefined throws, and so does sorting a value that is not an
      array. */
  function SortingLabels(data: Option<seq<(string, CatValue)>>, le: (string, string) -> bool): (r: Result<Categorized>)
    ensures r.Ok? <==> data.Some? && forall i :: 0 <= i < |data.value| ==> data.value[i].1.Arr?
    ensures r.Ok? ==> (|r.value| == |data.value|
      && forall i :: 0 <= i < |data.value| ==> r.value[i] == (data.value[i].0, Sort(data.value[i].1.items, le)))
  {
    if data.None? then Thrown else SortEntries(data.value, le)
  }

  function SortEntries(es: seq<(string, CatValue)>, le: (string, string) -> bool): (r: Result<Categorized>)
    ensures r.Ok? <==> forall i :: 0 <= i < |es| ==> es[i].1.Arr?
    ensures r.Ok? ==> (|r.value| == |es|
      && forall i :: 0 <= i < |es| ==> r.value[i] == (es[i].0, Sort(es[i].1.items, le)))
  {
    if |es| == 0 then Ok([])
    else if es[0].1.NotArray? then Thrown
    else
      var rest := SortEntries(es[1..], le);
      if rest.Thrown? then Thrown
      else Ok([(es[0].0, Sort(es[0].1.items, le))] + rest.value)
  }

  /** Sorting keeps the categories, in order, and gives each a sorted list
      with exactly its labels. */
  lemma SortingLabelsSpec(data: seq<(string, CatValue)>, le: (string, string) -> bool, i: int)
    requires TotalPreorder(le)
    requires 0 <= i < |data|
    requires SortingLabels(Some(data), le).Ok?
    ensures SortingLabels(Some(data), le).value[i].0 == data[i].0
    ensures Sorted(SortingLabels(Some(data), le).value[i].1, le)
    ensures multiset(SortingLabels(Some(data), le).value[i].1) == multiset(data[i].1.items)
  {
    SortSorted(data[i].1.items, le);
  }

  /** The file information: whether it has a `label_categories` key, and its
      value (`None` for null). */
  datatype FileInfo = FileInfo(sha256: string, hasLabelCategories: bool, labelCategories: Option<seq<(string, CatValue)>>)

  /** The editor's state; `None` labels are null. */
  datatype State = State(labels: Option<Categorized>, editing: bool, snapshot: Option<Categorized>)

  /** The load effect: labels are replaced only when file information with a
      `label_categories` key is present. */
  function Load(s: State, fileinfo: Option<FileInfo>, le: (string, string) -> bool): (r: Result<State>)
    ensures fileinfo.None? || !fileinfo.value.hasLabelCategories ==> r == Ok(s)
    ensures fileinfo.Some? && fileinfo.value.hasLabelCategories ==>
      var sorted := SortingLabels(fileinfo.value.labelCategories, le);
      (r.Ok? <==> sorted.Ok?) && (r.Ok? ==> r.value == s.(labels := Some(sorted.value)))
  {
    if fileinfo.None? || !fileinfo.value.hasLabelCategories then Ok(s)
    else
      var sorted := SortingLabels(fileinfo.value.labelCategories, le);
      if sorted.Thrown? then Thrown else Ok(s.(labels := Some(sorted.value)))
  }

  /** `handleEditingLabels(labels)`: edit mode on, the current labels saved. */
  function StartEdit(s: State): (r: State)
    ensures r.editing && r.snapshot == s.labels && r.labels == s.labels
  {
    s.(editing := true, snapshot := s.labels)
  }

  /** `handleCancelLabels`: back to the snapshot, edit mode off. */
  function Cancel(s: State): (r: State)
    ensures !r.editing && r.labels == s.snapshot && r.snapshot == s.snapshot
  {
    s.(labels := s.snapshot, editing := false)
  }

  /** `{ ...l, [category]: newValue }`: the category's list replaced in place,
      or added last when the object lacks it (spreading null gives `{}`). */
  function SetCategory(es: Categorized, category: string, newValue: seq<string>): (r: Categorized)
    ensures forall i :: 0 <= i < |es| && es[i].0 != category ==> es[i] in r
    ensures (category, newValue) in r
    ensures forall i :: 0 <= i < |r| && r[i].0 != category ==> r[i] in es
    ensures KeyIndex(es, category) == -1 ==> r == es + [(category, newValue)]
    ensures KeyIndex(es, category) != -1 ==>
      && |r| == |es|
      && r[KeyIndex(es, category)] == (category, newValue)
      && forall i :: 0 <= i < |es| && i != KeyIndex(es, category) ==> r[i] == es[i]
  {
    if |es| == 0 then [(category, newValue)]
    else if es[0].0 == category then [(category, newValue)] + es[1..]
    else [es[0]] + SetCategory(es[1..], category, newValue)
  }

  /** The position of the first entry with the key, or -1 when there is none. */
  function KeyIndex(es: Categorized, category: string): (r: int)
    ensures -1 <= r < |es|
    ensures r == -1 <==> forall i :: 0 <= i < |es| ==> es[i].0 != category
    ensures r != -1 ==> es[r].0 == category && forall i :: 0 <= i < r ==> es[i].0 != category
  {
    if |es| == 0 then -1
    else if es[0].0 == category then 0
    else
      var rest := KeyIndex(es[1..], category);
      if rest == -1 then -1 else rest + 1
  }

  /** `l[category]`: the list of the first entry with that key, if any. */
  function ListOf(es: Categorized, category: string): (r: Option<seq<string>>)
    ensures r.None? <==> forall i :: 0 <= i < |es| ==> es[i].0 != category
    ensures r.Some? ==> exists i :: 0 <= i < |es| && es[i] == (category, r.value)
  {
    if |es| == 0 then None
    else if es[0].0 == category then Some(es[0].1)
    else ListOf(es[1..], category)
  }

  /** After an edit the edited category reads as the new list, and every other
      category reads as before. */
  lemma {:induction false} SetCategoryThenList(es: Categorized, category: string, newValue: seq<string>, other: string)
    ensures ListOf(SetCategory(es, category, newValue), category) == Some(newValue)
    ensures other != category ==>
      ListOf(SetCategory(es, category, newValue), other) == ListOf(es, other)
  {
    if |es| > 0 && es[0].0 != category {
      SetCategoryThenList(es[1..], category, newValue, other);
      var r := SetCategory(es, category, newValue);
      assert r[1..] == SetCategory(es[1..], category, newValue);
    } else if |es| > 0 {
      var r := SetCategory(es, category, newValue);
      assert r[1..] == es[1..];
    } else {
      assert SetCategory(es, category, newValue)[1..] == [];
    }
  }

  /** An edit in one category while editing. */
  function EditCategory(s: State, category: string, newValue: seq<string>): (r: State)
    ensures r.editing == s.editing && r.snapshot == s.snapshot
    ensures r.labels.Some? && (category, newValue) in r.labels.value
  {
    s.(labels := Some(SetCategory(if s.labels.Some? then s.labels.value else [], category, newValue)))
  }

  /** A run of category edits. */
  function EditAll(s: State, edits: seq<(string, seq<string>)>): (r: State)
    ensures r.editing == s.editing && r.snapshot == s.snapshot
    decreases |edits|
  {
    if |edits| == 0 then s else EditAll(EditCategory(s, edits[0].0, edits[0].1), edits[1..])
  }

  /** Cancelling after any edits restores the labels as they were when the
      edit started, and leaves edit mode. */
  lemma EditThenCancel(s: State, edits: seq<(string, seq<string>)>)
    ensures Cancel(EditAll(StartEdit(s), edits)).labels == s.labels
    ensures !Cancel(EditAll(StartEdit(s), edits)).editing
  {
  }

  /** The save request: none without file information; otherwise a POST of
      the labels to the file's label endpoint. */
  function SaveRequest(fileinfo: Option<FileInfo>): (r: Option<string>)
    ensures r.Some? <==> fileinfo.Some?
    ensures r.Some? ==> r.value == "/api/v4/file/label/" + fileinfo.value.sha256 + "/"
  {
    if fileinfo.None? then None else Some("/api/v4/file/label/" + fileinfo.value.sha256 + "/")
  }

  /** A successful save shows the sorted labels of the response and leaves
      edit mode; the snapshot is kept. */
  function SaveSucceeded(s: State, response: Option<seq<(string, CatValue)>>, le: (string, string) -> bool): (r: Result<State>)
    ensures r.Ok? <==> SortingLabels(response, le).Ok?
    ensures r.Ok? ==> r.value == State(Some(SortingLabels(response, le).value), false, s.snapshot)
  {
    var sorted := SortingLabels(response, le);
    if sorted.Thrown? then Thrown else Ok(State(Some(sorted.value), false, s.snapshot))
  }
}
