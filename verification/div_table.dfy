/** The sortable header cell of the generic table: whether it shows as the
    active sort, the arrow direction it shows, and the `sort` parameter a click
    writes into the page's search. */
module DivTable {
  import opened Common
  import opened UrlParams

  datatype Direction = Asc | Desc

  /** `curSort && curSort.indexOf(sortField) !== -1`: an absent or empty sort
      is never active. */
  predicate Active(curSort: Option<string>, field: string)
  {
    curSort.Some? && curSort.value != "" && Contains(curSort.value, field)
  }

  /** The direction the header shows. */
  function Dir(curSort: Option<string>, field: string): (r: Direction)
    ensures r == Asc <==> Active(curSort, field) && Contains(curSort.value, "asc")
  {
    if Active(curSort, field) && Contains(curSort.value, "asc") then Asc else Desc
  }

  /** The sort value a click writes. */
  function NextSort(curSort: Option<string>, field: string): (r: string)
    ensures r == field + " asc" || r == field + " desc"
  {
    if curSort.Some? && curSort.value != "" && Contains(curSort.value, field) && !Contains(curSort.value, "asc")
    then field + " asc"
    else field + " desc"
  }

  /** `triggerSort`: the page's search with `sort` set, every other pair kept. */
  function TriggerSort(search: Params, field: string): (r: Params)
    ensures GetAll(r, "sort") == [NextSort(Get(search, "sort"), field)]
    ensures forall other :: other != "sort" ==> GetAll(r, other) == GetAll(search, other)
  {
    Set(search, "sort", NextSort(Get(search, "sort"), field))
  }

  /** A click writes ascending exactly when the header is active and shows descending. */
  lemma NextSortIsAscIff(curSort: Option<string>, field: string)
    ensures NextSort(curSort, field) == field + " asc" <==> Active(curSort, field) && Dir(curSort, field) == Desc
  {
    assert (field + " asc")[|field|..] != (field + " desc")[|field|..];
  }

  // ---------------------------------------------------------------------------
  // Alternation
  // ---------------------------------------------------------------------------

  /** A field occurs at the start of a sort written for it. */
  lemma FieldInSort(field: string, suffix: string)
    ensures Contains(field + suffix, field)
  {
    assert OccursAt(field + suffix, field, 0);
  }

  /** `" asc"` contains `"asc"`. */
  lemma AscInAscSort(field: string)
    ensures Contains(field + " asc", "asc")
  {
    var s := field + " asc";
    assert s[|field| + 1..|field| + 4] == "asc";
    assert OccursAt(s, "asc", |field| + 1);
  }

  /** Writing `" desc"` after a field brings no `"asc"` the field lacks. */
  lemma NoAscInDescSort(field: string)
    requires !Contains(field, "asc")
    ensures !Contains(field + " desc", "asc")
  {
    var s := field + " desc";
    forall i | 0 <= i && i + 3 <= |s|
      ensures !OccursAt(s, "asc", i)
    {
      var w := s[i..i + 3];
      if i + 3 <= |field| {
        assert w == field[i..i + 3];
        assert !OccursAt(field, "asc", i);
      } else if i >= |field| {
        assert w[0] == " desc"[i - |field|] != 'a';
      } else if i + 1 == |field| {
        assert w[1] == ' ';
      } else {
        assert w[2] == ' ';
      }
    }
  }

  /** For a field whose name holds no `"asc"`, clicks alternate: a descending
      sort on the field becomes ascending, an ascending one descending, and any
      other sort becomes descending on the field. */
  lemma ClicksAlternate(field: string)
    requires !Contains(field, "asc")
    ensures NextSort(Some(field + " desc"), field) == field + " asc"
    ensures NextSort(Some(field + " asc"), field) == field + " desc"
  {
    FieldInSort(field, " desc");
    FieldInSort(field, " asc");
    NoAscInDescSort(field);
    AscInAscSort(field);
  }
}
