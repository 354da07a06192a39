/** The bodies of a result section: how key/value and table cells format a
    value, which headers a table shows, which process-tree nodes start
    expanded, the links of a URL body, and which renderer a body format
    selects. Section bodies are JSON values. */
module ResultBody {
  import opened Common
  import opened Json

  // ---------------------------------------------------------------------------
  // Cell formatting
  // ---------------------------------------------------------------------------

  /** How an array item reads inside `Array.prototype.join`: null is empty,
      nested arrays join with commas, objects read `[object Object]`. */
  function ItemText(j: Json): string
  {
    match j
    case JNull => ""
    case JBool(b) => if b then "true" else "false"
    case JNum(n) => IntToString(n)
    case JStr(s) => s
    case JArr(items) => Join(seq(|items|, i requires 0 <= i < |items| => ItemText(items[i])), ",")
    case JObj(_) => "[object Object]"
  }

  /** The items of an array as `join` reads them. */
  function ItemTexts(items: seq<Json>): (r: seq<string>)
    ensures |r| == |items|
    ensures forall i :: 0 <= i < |items| ==> r[i] == ItemText(items[i])
  {
    seq(|items|, i requires 0 <= i < |items| => ItemText(items[i]))
  }

  /** What a cell shows: text computed from the value, the value itself
      (strings and numbers), a nested key/value table, or nothing. */
  datatype Display = Shown(text: string) | Passed(value: Json) | Nested(members: seq<(string, Json)>) | Blank

  /** A key/value body's value cell. `typeof null` is `'object'`, so null is
      stringified like an object; `stringify` is `JSON.stringify`. */
  function KeyValueCell(v: Json, stringify: Json -> string): (r: Display)
    ensures v.JArr? ==> r == Shown(Join(ItemTexts(v.items), " | "))
    ensures v.JBool? ==> r == Shown(if v.b then "true" else "false")
    ensures v.JObj? || v.JNull? ==> r == Shown(stringify(v))
    ensures v.JStr? || v.JNum? ==> r == Passed(v)
  {
    match v
    case JArr(items) => Shown(Join(ItemTexts(items), " | "))
    case JBool(b) => Shown(if b then "true" else "false")
    case JObj(_) => Shown(stringify(v))
    case JNull => Shown(stringify(v))
    case _ => Passed(v)
  }

  /** A table cell for `row[key]` (`None` is `undefined`): objects become a
      nested key/value table, null and undefined show nothing. */
  function TableCell(v: Option<Json>): (r: Display)
    ensures v.None? || v == Some(JNull) ==> r == Blank
    ensures v.Some? && v.value.JObj? ==> r == Nested(v.value.members)
  {
    match v
    case None => Blank
    case Some(JArr(items)) => Shown(Join(ItemTexts(items), " | "))
    case Some(JBool(b)) => Shown(if b then "true" else "false")
    case Some(JObj(ms)) => Nested(ms)
    case Some(JNull) => Blank
    case Some(x) => Passed(x)
  }

  /** Tables and key/value bodies format arrays, booleans, strings and
      numbers alike; they differ only on objects and null. */
  lemma CellsAgree(v: Json, stringify: Json -> string)
    requires !v.JObj? && !v.JNull?
    ensures TableCell(Some(v)) == KeyValueCell(v, stringify)
  {
  }

  /** An array of one item shows that item; of two strings, both separated
      by `" | "`; booleans read as words. */
  lemma CellTexts(a: string, b: string, stringify: Json -> string)
    ensures KeyValueCell(JArr([JStr(a)]), stringify) == Shown(a)
    ensures KeyValueCell(JArr([JStr(a), JStr(b)]), stringify) == Shown(a + " | " + b)
    ensures KeyValueCell(JArr([]), stringify) == Shown("")
    ensures KeyValueCell(JBool(true), stringify) == Shown("true")
    ensures KeyValueCell(JBool(false), stringify) == Shown("false")
  {
    assert ItemTexts([JStr(a)]) == [a];
    assert ItemTexts([JStr(a), JStr(b)]) == [a, b];
    assert Join([b], " | ") == b;
  }

  // ---------------------------------------------------------------------------
  // Table headers
  // ---------------------------------------------------------------------------

  /** A table row: its members in enumeration order. */
  type Row = seq<(string, Json)>

  /** A value that earns its key a column: neither null nor the empty string. */
  predicate Shows(v: Json)
  {
    v != JNull && v != JStr("")
  }

  /** The keys of a row whose values show, in order. */
  function RowKeys(row: Row): (r: seq<string>)
    ensures |r| <= |row|
  {
    if |row| == 0 then []
    else RowKeys(row[..|row| - 1]) + (if Shows(row[|row| - 1].1) then [row[|row| - 1].0] else [])
  }

  /** The showing keys of all rows, row after row. */
  function AllKeys(rows: seq<Row>): seq<string>
  {
    if |rows| == 0 then [] else AllKeys(rows[..|rows| - 1]) + RowKeys(rows[|rows| - 1])
  }

  /** The first occurrence of each element, in order of first occurrence. */
  function Dedup(s: seq<string>): (r: seq<string>)
    ensures |r| <= |s|
  {
    if |s| == 0 then []
    else
      var d := Dedup(s[..|s| - 1]);
      if s[|s| - 1] in d then d else d + [s[|s| - 1]]
  }

  /** Appending one element to the input of `Dedup`. */
  lemma DedupSnoc(s: seq<string>, x: string)
    ensures Dedup(s + [x]) == if x in Dedup(s) then Dedup(s) else Dedup(s) + [x]
  {
    assert (s + [x])[..|s|] == s;
  }

  /** `TblBody`'s header scan: every key of every row, in order, whose value
      shows and which is not yet a header. A missing body has no headers. */
  method TableHeaders(body: Option<seq<Row>>) returns (headers: seq<string>)
    ensures body.None? ==> headers == []
    ensures body.Some? ==> headers == Dedup(AllKeys(body.value))
  {
    headers := [];
    if body.None? {
      return;
    }
    var rows := body.value;
    var i := 0;
    while i < |rows|
      invariant 0 <= i <= |rows|
      invariant headers == Dedup(AllKeys(rows[..i]))
    {
      var line := rows[i];
      ghost var seen := AllKeys(rows[..i]);
      assert seen + RowKeys(line[..0]) == seen;
      var j := 0;
      while j < |line|
        invariant 0 <= j <= |line|
        invariant headers == Dedup(seen + RowKeys(line[..j]))
      {
        ScanStep(seen, line, j);
        if Shows(line[j].1) && line[j].0 !in headers {
          headers := headers + [line[j].0];
        }
        j := j + 1;
      }
      assert line[..j] == line;
      assert rows[..i + 1][..i] == rows[..i];
      i := i + 1;
    }
    assert rows[..i] == rows;
  }

  /** One member of the header scan. */
  lemma ScanStep(seen: seq<string>, line: Row, j: int)
    requires 0 <= j < |line|
    ensures Dedup(seen + RowKeys(line[..j + 1])) ==
      var d := Dedup(seen + RowKeys(line[..j]));
      if Shows(line[j].1) && line[j].0 !in d then d + [line[j].0] else d
  {
    assert line[..j + 1][..j] == line[..j];
    var prefix := seen + RowKeys(line[..j]);
    if Shows(line[j].1) {
      assert seen + RowKeys(line[..j + 1]) == prefix + [line[j].0];
      DedupSnoc(prefix, line[j].0);
    } else {
      assert RowKeys(line[..j + 1]) == RowKeys(line[..j]);
    }
  }

  /** `Dedup` keeps exactly the elements of its input. */
  lemma {:induction false} DedupMembers(s: seq<string>, x: string)
    ensures x in Dedup(s) <==> x in s
  {
    if |s| > 0 {
      DedupMembers(s[..|s| - 1], x);
      assert s == s[..|s| - 1] + [s[|s| - 1]];
    }
  }

  /** `Dedup` never repeats an element. */
  lemma {:induction false} DedupDistinct(s: seq<string>)
    ensures forall i, j :: 0 <= i < j < |Dedup(s)| ==> Dedup(s)[i] != Dedup(s)[j]
  {
    if |s| > 0 {
      DedupDistinct(s[..|s| - 1]);
    }
  }

  /** The position of the first occurrence of `x` in `s`. */
  function FirstIndex(s: seq<string>, x: string): (r: nat)
    requires x in s
    ensures r < |s| && s[r] == x
    ensures forall k :: 0 <= k < r ==> s[k] != x
  {
    if s[0] == x then 0 else FirstIndex(s[1..], x) + 1
  }

  lemma FirstIndexSnoc(s: seq<string>, x: string, y: string)
    requires y in s
    ensures FirstIndex(s + [x], y) == FirstIndex(s, y)
  {
    var k := FirstIndex(s, y);
    var t := s + [x];
    assert t[k] == y;
    assert forall m :: 0 <= m < k ==> t[m] != y;
    FirstIndexUnique(t, y, k);
  }

  lemma FirstIndexUnique(s: seq<string>, y: string, k: nat)
    requires k < |s| && s[k] == y
    requires forall m :: 0 <= m < k ==> s[m] != y
    ensures FirstIndex(s, y) == k
  {
  }

  /** `Dedup` lists elements in the order of their first occurrence. */
  lemma {:induction false} DedupOrder(s: seq<string>, i: int, j: int)
    requires 0 <= i < j < |Dedup(s)|
    ensures Dedup(s)[i] in s && Dedup(s)[j] in s
    ensures FirstIndex(s, Dedup(s)[i]) < FirstIndex(s, Dedup(s)[j])
  {
    var t := s[..|s| - 1];
    var x := s[|s| - 1];
    assert s == t + [x];
    var d := Dedup(t);
    DedupMembers(s, Dedup(s)[i]);
    DedupMembers(s, Dedup(s)[j]);
    if x in d {
      DedupOrder(t, i, j);
      FirstIndexSnoc(t, x, d[i]);
      FirstIndexSnoc(t, x, d[j]);
    } else {
      DedupMembers(t, d[i]);
      FirstIndexSnoc(t, x, d[i]);
      if j < |d| {
        DedupMembers(t, d[j]);
        DedupOrder(t, i, j);
        FirstIndexSnoc(t, x, d[j]);
      } else {
        DedupMembers(t, x);
        FirstIndexUnique(s, x, |t|);
      }
    }
  }

  /** A key is among the row keys exactly when its value in that row shows. */
  lemma {:induction false} RowKeysMembers(row: Row, x: string)
    ensures x in RowKeys(row) <==> exists k :: 0 <= k < |row| && row[k].0 == x && Shows(row[k].1)
  {
    if |row| > 0 {
      var t := row[..|row| - 1];
      RowKeysMembers(t, x);
      if x in RowKeys(row) && x !in RowKeys(t) {
        assert row[|row| - 1].0 == x && Shows(row[|row| - 1].1);
      }
      if exists k :: 0 <= k < |row| && row[k].0 == x && Shows(row[k].1) {
        var k :| 0 <= k < |row| && row[k].0 == x && Shows(row[k].1);
        if k < |row| - 1 {
          assert t[k] == row[k];
        }
      }
    }
  }

  /** A key is among all keys exactly when some row gives it a showing value. */
  lemma {:induction false} AllKeysMembers(rows: seq<Row>, x: string)
    ensures x in AllKeys(rows) <==> exists i :: 0 <= i < |rows| && x in RowKeys(rows[i])
  {
    if |rows| > 0 {
      var t := rows[..|rows| - 1];
      AllKeysMembers(t, x);
      if exists i :: 0 <= i < |rows| && x in RowKeys(rows[i]) {
        var i :| 0 <= i < |rows| && x in RowKeys(rows[i]);
        if i < |rows| - 1 {
          assert t[i] == rows[i];
        }
      }
    }
  }

  /** The headers are exactly the keys some row maps to a value other than
      null or the empty string, each once, in order of first appearance. */
  lemma HeadersSpec(rows: seq<Row>, x: string)
    ensures x in Dedup(AllKeys(rows)) <==>
      exists i :: 0 <= i < |rows| && exists k :: 0 <= k < |rows[i]| && rows[i][k].0 == x && Shows(rows[i][k].1)
    ensures forall a, b :: 0 <= a < b < |Dedup(AllKeys(rows))| ==> Dedup(AllKeys(rows))[a] != Dedup(AllKeys(rows))[b]
  {
    DedupMembers(AllKeys(rows), x);
    AllKeysMembers(rows, x);
    forall i | 0 <= i < |rows|
      ensures x in RowKeys(rows[i]) <==> exists k :: 0 <= k < |rows[i]| && rows[i][k].0 == x && Shows(rows[i][k].1)
    {
      RowKeysMembers(rows[i], x);
    }
    DedupDistinct(AllKeys(rows));
  }

  // ---------------------------------------------------------------------------
  // Process tree
  // ---------------------------------------------------------------------------

  /** A process of the tree; a missing child list is empty. */
  datatype Process = Process(pid: Option<int>, children: seq<Process>)

  /** The node id of a process, when it has a pid. */
  function PidText(p: Process): (r: seq<string>)
    ensures |r| <= 1
    ensures r == [] <==> p.pid.None?
  {
    if p.pid.Some? then [IntToString(p.pid.value)] else []
  }

  /** The ids of a list of processes, in order. */
  function Pids(ps: seq<Process>): (r: seq<string>)
    ensures |r| <= |ps|
  {
    if |ps| == 0 then [] else PidText(ps[0]) + Pids(ps[1..])
  }

  /** The nodes the tree starts with expanded: each top-level process, then
      its direct children, process after process. */
  function Expanded(body: seq<Process>): (r: seq<string>)
  {
    if |body| == 0 then [] else PidText(body[0]) + Pids(body[0].children) + Expanded(body[1..])
  }

  /** `ProcessTreeBody`: a body that is not a list throws in `forEach`, and
      the section is skipped. */
  function ProcessTreeExpanded(body: Option<seq<Process>>): (r: Result<seq<string>>)
    ensures r.Thrown? <==> body.None?
    ensures r.Ok? ==> r.value == Expanded(body.value)
  {
    if body.None? then Thrown else Ok(Expanded(body.value))
  }

  /** A process with its children cut below the second level. */
  function Prune(p: Process): (r: Process)
    ensures r.pid == p.pid && |r.children| == |p.children|
    ensures forall j :: 0 <= j < |p.children| ==> r.children[j] == Process(p.children[j].pid, [])
  {
    Process(p.pid, seq(|p.children|, j requires 0 <= j < |p.children| => Process(p.children[j].pid, [])))
  }

  function PruneAll(body: seq<Process>): (r: seq<Process>)
    ensures |r| == |body|
    ensures forall i :: 0 <= i < |body| ==> r[i] == Prune(body[i])
  {
    seq(|body|, i requires 0 <= i < |body| => Prune(body[i]))
  }

  lemma {:induction false} PidsOfSameIds(a: seq<Process>, b: seq<Process>)
    requires |a| == |b|
    requires forall j :: 0 <= j < |a| ==> a[j].pid == b[j].pid
    ensures Pids(a) == Pids(b)
  {
    if |a| > 0 {
      PidsOfSameIds(a[1..], b[1..]);
    }
  }

  /** Expansion looks only two levels deep: cutting every grandchild leaves
      it unchanged. */
  lemma {:induction false} ExpandedTwoLevels(body: seq<Process>)
    ensures Expanded(PruneAll(body)) == Expanded(body)
  {
    if |body| > 0 {
      var pruned := PruneAll(body);
      assert pruned[1..] == PruneAll(body[1..]);
      ExpandedTwoLevels(body[1..]);
      PidsOfSameIds(pruned[0].children, body[0].children);
    }
  }

  /** Expansion goes process by process: the nodes of a list are those of its
      first part followed by those of the rest. */
  lemma {:induction false} ExpandedConcat(a: seq<Process>, b: seq<Process>)
    ensures Expanded(a + b) == Expanded(a) + Expanded(b)
  {
    if |a| == 0 {
      assert a + b == b;
    } else {
      assert (a + b)[1..] == a[1..] + b;
      ExpandedConcat(a[1..], b);
    }
  }

  /** A process list's ids are exactly the pids present among them. */
  lemma {:induction false} PidsMembers(ps: seq<Process>, j: int)
    requires 0 <= j < |ps| && ps[j].pid.Some?
    ensures IntToString(ps[j].pid.value) in Pids(ps)
  {
    if j > 0 {
      PidsMembers(ps[1..], j - 1);
    }
  }

  /** Every top-level process and every direct child with a pid starts
      expanded. */
  lemma {:induction false} ExpandedMembers(body: seq<Process>, i: int)
    requires 0 <= i < |body|
    ensures body[i].pid.Some? ==> IntToString(body[i].pid.value) in Expanded(body)
    ensures forall j :: 0 <= j < |body[i].children| && body[i].children[j].pid.Some? ==>
      IntToString(body[i].children[j].pid.value) in Expanded(body)
  {
    if i > 0 {
      ExpandedMembers(body[1..], i - 1);
    } else {
      forall j | 0 <= j < |body[0].children| && body[0].children[j].pid.Some?
        ensures IntToString(body[0].children[j].pid.value) in Expanded(body)
      {
        PidsMembers(body[0].children, j);
      }
    }
  }

  // ---------------------------------------------------------------------------
  // URL bodies
  // ---------------------------------------------------------------------------

  /** A link item: its address and its optional name (either may be
      missing). */
  datatype Link = Link(url: Option<string>, name: Option<string>)

  /** A URL body: one link, or a list of links. */
  datatype UrlData = Single(link: Link) | Links(links: seq<Link>)

  /** The links listed: a lone link is wrapped in a list, a list is copied. */
  function UrlItems(body: UrlData): (r: seq<Link>)
    ensures body.Single? ==> r == [body.link]
    ensures body.Links? ==> r == body.links
  {
    match body
    case Single(l) => [l]
    case Links(ls) => ls
  }

  /** A link reads as its name when the name is non-empty, else its address. */
  function LinkText(l: Link): (r: Option<string>)
    ensures l.name.Some? && l.name.value != "" ==> r == l.name
    ensures l.name.None? || l.name.value == "" ==> r == l.url
  {
    if l.name.Some? && l.name.value != "" then l.name else l.url
  }

  /** The texts of the listed links, in order. */
  function LinkTexts(body: UrlData): (r: seq<Option<string>>)
    ensures |r| == |UrlItems(body)|
    ensures forall i :: 0 <= i < |r| ==> r[i] == LinkText(UrlItems(body)[i])
  {
    var items := UrlItems(body);
    seq(|items|, i requires 0 <= i < |items| => LinkText(items[i]))
  }

  /** A lone link and a list holding just that link show the same. */
  lemma SingleIsList(l: Link)
    ensures LinkTexts(Single(l)) == LinkTexts(Links([l]))
    ensures |LinkTexts(Single(l))| == 1
  {
  }

  // ---------------------------------------------------------------------------
  // Body formats
  // ---------------------------------------------------------------------------

  datatype Renderer =
    | TextView | MemoryDumpView | GraphView | UrlView | JsonView
    | KeyValueView | ProcessTreeView | TableView | ImageView | InvalidView

  /** The known body formats and the renderer each selects. */
  const FORMATS: map<string, Renderer> := map[
    "TEXT" := TextView,
    "MEMORY_DUMP" := MemoryDumpView,
    "GRAPH_DATA" := GraphView,
    "URL" := UrlView,
    "JSON" := JsonView,
    "KEY_VALUE" := KeyValueView,
    "PROCESS_TREE" := ProcessTreeView,
    "TABLE" := TableView,
    "IMAGE" := ImageView]

  /** The renderer of a body format; an unknown format gets the invalid
      section notice. */
  function RendererFor(format: string): (r: Renderer)
    ensures r == InvalidView <==> format !in FORMATS
    ensures format in FORMATS ==> r == FORMATS[format]
  {
    if format in FORMATS then FORMATS[format] else InvalidView
  }

  /** Nine formats are known, and each picks a renderer of its own. */
  lemma KnownFormats()
    ensures RendererFor("TABLE") == TableView && RendererFor("PROCESS_TREE") == ProcessTreeView
    ensures RendererFor("URL") == UrlView && RendererFor("KEY_VALUE") == KeyValueView
    ensures RendererFor("table") == InvalidView
  {
  }
}
