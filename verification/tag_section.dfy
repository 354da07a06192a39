/** The "generated tags" section of a file's detail page: which signature
    and tag-type rows show, given the safe-results switch and the `force` flag.
    A tag map is an object from tag type to entries, kept as its members in
    key order; a missing signature list or tag map is `None`. */
module TagSection {
  import opened Common

  /** `[value, lvl, safe]`: a signature or tag with its verdict level and its
      safe (safelisted) flag. */
  datatype Entry = Entry(value: string, lvl: string, safe: bool)

  type TagMap = seq<(string, seq<Entry>)>

  /** An entry that is neither of level `safe` nor flagged safe. */
  predicate NotSafe(e: Entry)
  {
    e.lvl != "safe" && !e.safe
  }

  /** `entries.some(i => i[1] !== 'safe' && !i[2])`. */
  function SomeNotSafe(es: seq<Entry>): (r: bool)
    ensures r <==> exists i :: 0 <= i < |es| && NotSafe(es[i])
  {
    if |es| == 0 then false
    else NotSafe(es[0]) || SomeNotSafe(es[1..])
  }

  /** The unsafe map the effect on `tags` computes: each tag type paired with
      whether some of its entries is not safe. */
  function UnsafeMap(tags: TagMap): (r: seq<(string, bool)>)
    ensures |r| == |tags|
    ensures forall i :: 0 <= i < |tags| ==> r[i] == (tags[i].0, SomeNotSafe(tags[i].1))
  {
    if |tags| == 0 then []
    else [(tags[0].0, SomeNotSafe(tags[0].1))] + UnsafeMap(tags[1..])
  }

  /** The effect runs only when tags are present; otherwise the map keeps its
      previous value (initially empty). */
  function RefreshMap(tags: Option<TagMap>, previous: seq<(string, bool)>): (r: seq<(string, bool)>)
    ensures tags.None? ==> r == previous
    ensures tags.Some? ==>
      && |r| == |tags.value|
      && forall i :: 0 <= i < |tags.value| ==> r[i] == (tags.value[i].0, SomeNotSafe(tags.value[i].1))
  {
    if tags.Some? then UnsafeMap(tags.value) else previous
  }

  /** `tagUnsafeMap[type]`, where a missing key reads as false. */
  function Flag(m: seq<(string, bool)>, key: string): (r: bool)
    ensures r ==> exists i :: 0 <= i < |m| && m[i] == (key, true)
  {
    if |m| == 0 then false
    else if m[0].0 == key then m[0].1
    else Flag(m[1..], key)
  }

  /** `Object.values(tagUnsafeMap).some(Boolean)`. */
  function SomeFlag(m: seq<(string, bool)>): (r: bool)
    ensures r <==> exists i :: 0 <= i < |m| && m[i].1
  {
    if |m| == 0 then false else m[0].1 || SomeFlag(m[1..])
  }

  predicate SomeSigNotSafe(sigs: Option<seq<Entry>>)
  {
    sigs.Some? && SomeNotSafe(sigs.value)
  }

  predicate ForceShowSig(sigs: Option<seq<Entry>>, showSafe: bool, force: bool)
  {
    sigs.Some? && |sigs.value| != 0 && (showSafe || force)
  }

  predicate ForceShowTag(m: seq<(string, bool)>, showSafe: bool, force: bool)
  {
    |m| != 0 && (showSafe || force)
  }

  /** Whether the section renders at all. */
  predicate ShowSection(sigs: Option<seq<Entry>>, tags: Option<TagMap>, m: seq<(string, bool)>,
                        showSafe: bool, force: bool)
  {
    || (sigs.None? && tags.None?)
    || SomeFlag(m) || ForceShowTag(m, showSafe, force)
    || SomeSigNotSafe(sigs) || ForceShowSig(sigs, showSafe, force)
  }

  /** Whether the signature block renders inside the section. */
  predicate ShowSignatures(sigs: Option<seq<Entry>>, showSafe: bool, force: bool)
  {
    sigs.Some? && (SomeSigNotSafe(sigs) || ForceShowSig(sigs, showSafe, force))
  }

  /** Whether the row of one tag type renders. */
  predicate ShowTagRow(m: seq<(string, bool)>, key: string, showSafe: bool, force: bool)
  {
    Flag(m, key) || showSafe || force
  }

  /** With the map computed from distinct tag types, a type is flagged exactly
      when one of its entries is not safe. */
  lemma {:induction false} FlagOfUnsafeMap(tags: TagMap, k: int)
    requires 0 <= k < |tags|
    requires forall i, j :: 0 <= i < j < |tags| ==> tags[i].0 != tags[j].0
    ensures Flag(UnsafeMap(tags), tags[k].0) <==> exists i :: 0 <= i < |tags[k].1| && NotSafe(tags[k].1[i])
  {
    if k > 0 {
      assert tags[0].0 != tags[k].0;
      FlagOfUnsafeMap(tags[1..], k - 1);
      assert UnsafeMap(tags)[1..] == UnsafeMap(tags[1..]);
    }
  }

  /** Once the map reflects the tags, the section renders exactly when nothing
      is loaded, some signature or tag is not safe, or safe results are wanted
      and there is something to show. */
  lemma {:induction false} ShowSectionIff(sigs: Option<seq<Entry>>, tags: Option<TagMap>,
                                          showSafe: bool, force: bool)
    requires tags.Some?
    ensures var m := RefreshMap(tags, []);
      var ts := tags.value;
      ShowSection(sigs, tags, m, showSafe, force) <==>
        || (exists i, j :: 0 <= i < |ts| && 0 <= j < |ts[i].1| && NotSafe(ts[i].1[j]))
        || (|ts| != 0 && (showSafe || force))
        || (sigs.Some? && exists i :: 0 <= i < |sigs.value| && NotSafe(sigs.value[i]))
        || (sigs.Some? && |sigs.value| != 0 && (showSafe || force))
  {
    var ts := tags.value;
    var m := UnsafeMap(ts);
    if SomeFlag(m) {
      var i :| 0 <= i < |m| && m[i].1;
      var j :| 0 <= j < |ts[i].1| && NotSafe(ts[i].1[j]);
    }
    if exists i, j :: 0 <= i < |ts| && 0 <= j < |ts[i].1| && NotSafe(ts[i].1[j]) {
      var i, j :| 0 <= i < |ts| && 0 <= j < |ts[i].1| && NotSafe(ts[i].1[j]);
      assert m[i].1;
    }
  }

  /** Showing safe results, or forcing, shows every loaded row. */
  lemma ShowAllWhenForced(m: seq<(string, bool)>, key: string, sigs: Option<seq<Entry>>, showSafe: bool, force: bool)
    requires showSafe || force
    ensures ShowTagRow(m, key, showSafe, force)
    ensures sigs.Some? && |sigs.value| != 0 ==> ShowSignatures(sigs, showSafe, force)
  {
  }
}
