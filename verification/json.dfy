/** A parsed JSON value, as `JSON.parse` returns it, and the optional-chaining
    property reads (`json?.a?.b`) the console performs on such values. Numbers are
    modelled as integers; objects keep their members in insertion order. */
module Json {
  import opened Common

  datatype Json =
    | JNull
    | JBool(b: bool)
    | JNum(n: int)
    | JStr(s: string)
    | JArr(items: seq<Json>)
    | JObj(members: seq<(string, Json)>)

  /** The value of member `key` of `members` (the first one when a key repeats),
      or `None` for `undefined`. */
  function Member(members: seq<(string, Json)>, key: string): Option<Json>
  {
    if |members| == 0 then None
    else if members[0].0 == key then Some(members[0].1)
    else Member(members[1..], key)
  }

  /** A member is found exactly when some member has the key, and what is
      found is the value of the first such member. */
  lemma {:induction false} MemberSpec(members: seq<(string, Json)>, key: string)
    ensures Member(members, key).None? <==> forall i :: 0 <= i < |members| ==> members[i].0 != key
    ensures Member(members, key).Some? ==>
      exists i :: (0 <= i < |members| && members[i] == (key, Member(members, key).value)
        && forall k :: 0 <= k < i ==> members[k].0 != key)
  {
    if |members| > 0 && members[0].0 != key {
      MemberSpec(members[1..], key);
      if Member(members, key).Some? {
        var i :| 0 <= i < |members| - 1 && members[1..][i] == (key, Member(members, key).value)
          && forall k :: 0 <= k < i ==> members[1..][k].0 != key;
        assert members[i + 1] == (key, Member(members, key).value);
      }
    }
  }

  /** The member at position `i` is the one found when no earlier member has its key. */
  lemma {:induction false} MemberAt(members: seq<(string, Json)>, i: int)
    requires 0 <= i < |members|
    requires forall k :: 0 <= k < i ==> members[k].0 != members[i].0
    ensures Member(members, members[i].0) == Some(members[i].1)
  {
    if i > 0 {
      MemberAt(members[1..], i - 1);
    }
  }

  /** `j?.[path[0]]?.[path[1]]...`: only objects have the named members; any
      other value (null, a primitive, an array) yields `undefined`. */
  function Lookup(j: Json, path: seq<string>): (r: Option<Json>)
    decreases |path|
    ensures |path| == 0 ==> r == Some(j)
    ensures |path| > 0 && !j.JObj? ==> r.None?
  {
    if |path| == 0 then Some(j)
    else match j
      case JObj(ms) =>
        (match Member(ms, path[0])
         case None => None
         case Some(child) => Lookup(child, path[1..]))
      case _ => None
  }

  /** One step of a path through an object member. */
  lemma LookupStep(j: Json, path: seq<string>)
    requires |path| > 0 && j.JObj? && Member(j.members, path[0]).Some?
    ensures Lookup(j, path) == Lookup(Member(j.members, path[0]).value, path[1..])
  {
  }

  /** The keys of an object, in insertion order (`Object.keys`). */
  function Keys(members: seq<(string, Json)>): (r: seq<string>)
    ensures |r| == |members|
    ensures forall i :: 0 <= i < |members| ==> r[i] == members[i].0
  {
    if |members| == 0 then [] else [members[0].0] + Keys(members[1..])
  }
}
