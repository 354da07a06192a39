/** The list semantics of `URLSearchParams` (section 6.2 of the WHATWG URL
    Standard): an ordered list of name/value pairs in which a name may repeat.
    Turning the list into text (the application/x-www-form-urlencoded serializer
    of section 5 of the same standard) is not modelled: every builder in the
    console returns the list, and its text is the serialization of that list. */
module UrlParams {
  import opened Common

  type Params = seq<(string, string)>

  /** `has(name)`. */
  predicate Has(p: Params, name: string)
  {
    |p| > 0 && (p[0].0 == name || Has(p[1..], name))
  }

  /** `getAll(name)`: the values of the pairs named `name`, in list order. */
  function GetAll(p: Params, name: string): (r: seq<string>)
    ensures |r| <= |p|
    ensures |r| == 0 <==> !Has(p, name)
  {
    if |p| == 0 then []
    else (if p[0].0 == name then [p[0].1] else []) + GetAll(p[1..], name)
  }

  /** `get(name)`: the value of the first pair named `name`, or null. */
  function Get(p: Params, name: string): (r: Option<string>)
    ensures r.None? <==> !Has(p, name)
    ensures r.Some? ==> r.value == GetAll(p, name)[0]
  {
    if |p| == 0 then None
    else if p[0].0 == name then Some(p[0].1)
    else Get(p[1..], name)
  }

  /** `append(name, value)`. */
  function Append(p: Params, name: string, value: string): (r: Params)
    ensures GetAll(r, name) == GetAll(p, name) + [value]
    ensures forall other :: other != name ==> GetAll(r, other) == GetAll(p, other)
  {
    forall n ensures GetAll(p + [(name, value)], n) == GetAll(p, n) + GetAll([(name, value)], n) {
      GetAllConcat(p, [(name, value)], n);
    }
    p + [(name, value)]
  }

  /** `delete(name)`: removes every pair named `name`, keeping the order of the rest. */
  function Delete(p: Params, name: string): (r: Params)
    ensures !Has(r, name)
    ensures forall other :: other != name ==> GetAll(r, other) == GetAll(p, other)
    ensures |r| <= |p|
  {
    if |p| == 0 then []
    else if p[0].0 == name then Delete(p[1..], name)
    else [p[0]] + Delete(p[1..], name)
  }

  /** `set(name, value)`: the first pair named `name` takes the new value and
      the later ones are removed; when there is none the pair is appended. */
  function Set(p: Params, name: string, value: string): (r: Params)
    ensures GetAll(r, name) == [value]
    ensures forall other :: other != name ==> GetAll(r, other) == GetAll(p, other)
    ensures Delete(r, name) == Delete(p, name)
  {
    if Has(p, name) then Replace(p, name, value)
    else
      DeleteConcat(p, [(name, value)], name);
      Append(p, name, value)
  }

  /** `set` on a list that contains the name. */
  function Replace(p: Params, name: string, value: string): (r: Params)
    requires Has(p, name)
    ensures GetAll(r, name) == [value]
    ensures forall other :: other != name ==> GetAll(r, other) == GetAll(p, other)
    ensures Delete(r, name) == Delete(p, name)
  {
    if p[0].0 == name then
      var r := [(name, value)] + Delete(p[1..], name);
      assert r[1..] == Delete(p[1..], name);
      DeleteIdempotent(p[1..], name);
      r
    else [p[0]] + Replace(p[1..], name, value)
  }

  /** `delete(n)` seen from one key. */
  lemma DeleteAt(p: Params, n: string, name: string)
    ensures GetAll(Delete(p, n), name) == if name == n then [] else GetAll(p, name)
  {
  }

  /** `set(n, v)` seen from one key. */
  lemma SetAt(p: Params, n: string, v: string, name: string)
    ensures GetAll(Set(p, n, v), name) == if name == n then [v] else GetAll(p, name)
  {
  }

  lemma DeleteIdempotent(p: Params, name: string)
    ensures Delete(Delete(p, name), name) == Delete(p, name)
  {
    if |p| > 0 {
      DeleteIdempotent(p[1..], name);
      if p[0].0 != name {
        assert ([p[0]] + Delete(p[1..], name))[1..] == Delete(p[1..], name);
      }
    }
  }

  lemma GetAllConcat(a: Params, b: Params, name: string)
    ensures GetAll(a + b, name) == GetAll(a, name) + GetAll(b, name)
  {
    if |a| > 0 {
      assert (a + b)[1..] == a[1..] + b;
      GetAllConcat(a[1..], b, name);
    } else {
      assert a + b == b;
    }
  }

  lemma DeleteConcat(a: Params, b: Params, name: string)
    ensures Delete(a + b, name) == Delete(a, name) + Delete(b, name)
  {
    if |a| > 0 {
      assert (a + b)[1..] == a[1..] + b;
      DeleteConcat(a[1..], b, name);
    } else {
      assert a + b == b;
    }
  }

  /** The pairs whose names `keep` accepts, in list order. */
  function Filter(p: Params, keep: string -> bool): (r: Params)
    ensures |r| <= |p|
    ensures forall i :: 0 <= i < |r| ==> keep(r[i].0)
    ensures forall name :: keep(name) ==> GetAll(r, name) == GetAll(p, name)
    ensures forall name :: !keep(name) ==> !Has(r, name)
  {
    if |p| == 0 then []
    else if keep(p[0].0) then [p[0]] + Filter(p[1..], keep)
    else Filter(p[1..], keep)
  }

  /** Deleting a name is keeping every other name. */
  lemma {:induction false} DeleteIsFilter(p: Params, name: string)
    ensures Delete(p, name) == Filter(p, n => n != name)
  {
    if |p| > 0 {
      DeleteIsFilter(p[1..], name);
    }
  }
}
