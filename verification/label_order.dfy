/** Sorting label lists with `sort((a, b) => a.localeCompare(b))`. The locale
    order is not modelled: it is a parameter `le` ("a sorts no later than b"),
    assumed total and transitive. `Array.prototype.sort` is stable, and so is
    the insertion sort used here. */
module LabelOrder {

  /** What the sort relies on: any two labels compare, and comparisons chain. */
  ghost predicate TotalPreorder(le: (string, string) -> bool)
  {
    && (forall a, b :: le(a, b) || le(b, a))
    && (forall a, b, c :: le(a, b) && le(b, c) ==> le(a, c))
  }

  predicate Sorted(s: seq<string>, le: (string, string) -> bool)
  {
    forall i, j :: 0 <= i < j < |s| ==> le(s[i], s[j])
  }

  /** Insert `x` before the first label it sorts no later than. */
  function Insert(x: string, s: seq<string>, le: (string, string) -> bool): (r: seq<string>)
    ensures |r| == |s| + 1
    ensures multiset(r) == multiset(s) + multiset{x}
  {
    if |s| == 0 || le(x, s[0]) then [x] + s
    else
      assert s == [s[0]] + s[1..];
      [s[0]] + Insert(x, s[1..], le)
  }

  /** Every element of the insertion is `x` or an element of `s`. */
  lemma InsertElements(x: string, s: seq<string>, le: (string, string) -> bool, k: int)
    requires 0 <= k < |s| + 1
    ensures Insert(x, s, le)[k] == x || Insert(x, s, le)[k] in s
  {
    var r := Insert(x, s, le);
    assert r[k] in multiset(r);
  }

  /** Inserting into a sorted list keeps it sorted. */
  lemma {:induction false} InsertSorted(x: string, s: seq<string>, le: (string, string) -> bool)
    requires TotalPreorder(le)
    requires Sorted(s, le)
    ensures Sorted(Insert(x, s, le), le)
  {
    if |s| == 0 || le(x, s[0]) {
    } else {
      var t := Insert(x, s[1..], le);
      InsertSorted(x, s[1..], le);
      assert le(s[0], x);
      forall k | 0 <= k < |t|
        ensures le(s[0], t[k])
      {
        InsertElements(x, s[1..], le, k);
      }
    }
  }

  /** The stable sort of a label list. */
  function Sort(s: seq<string>, le: (string, string) -> bool): (r: seq<string>)
    ensures |r| == |s|
    ensures multiset(r) == multiset(s)
  {
    if |s| == 0 then []
    else
      assert s == [s[0]] + s[1..];
      Insert(s[0], Sort(s[1..], le), le)
  }

  /** The sort orders the list (and, by its contract, keeps its labels with
      their multiplicities). */
  lemma {:induction false} SortSorted(s: seq<string>, le: (string, string) -> bool)
    requires TotalPreorder(le)
    ensures Sorted(Sort(s, le), le)
  {
    if |s| > 0 {
      SortSorted(s[1..], le);
      InsertSorted(s[0], Sort(s[1..], le), le);
    }
  }

  /** A sorted list sorts to itself, so sorting twice is sorting once. */
  lemma {:induction false} SortOfSorted(s: seq<string>, le: (string, string) -> bool)
    requires Sorted(s, le)
    ensures Sort(s, le) == s
  {
    if |s| > 0 {
      SortOfSorted(s[1..], le);
      assert [s[0]] + s[1..] == s;
    }
  }

  lemma SortIdempotent(s: seq<string>, le: (string, string) -> bool)
    requires TotalPreorder(le)
    ensures Sort(Sort(s, le), le) == Sort(s, le)
  {
    SortSorted(s, le);
    SortOfSorted(Sort(s, le), le);
  }
}
