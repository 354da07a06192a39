/** The settings slice of the hex viewer: a draft (`store.setting`) edited by the
    settings dialog, the applied values the viewer renders with, and the reducer
    handlers that load the draft from browser storage, apply it (save), refresh
    it from the applied values (open), reset it and edit it field by field.

    The option tables the handlers search (body types, encodings, copy types,
    offset bases, column counts) are parameters, as are the viewer's computed
    column and row counts. */
module HexSettings {
  import opened Common
  import opened Json

  // ---------------------------------------------------------------------------
  // Data
  // ---------------------------------------------------------------------------

  /** One entry of an option table: the number the dialog selects and the
      named kind the viewer applies. */
  datatype Choice = Choice(value: int, kind: string)

  datatype Tables = Tables(
    bodyTypes: seq<Choice>,
    npEncodings: seq<Choice>,
    hiEncodings: seq<Choice>,
    copyTypes: seq<Choice>,
    offsetBases: seq<int>,
    columns: seq<int>)

  /** The viewer's computed column and row counts at the time of the action. */
  datatype Env = Env(tables: Tables, columnSize: int, rowSize: int)

  /** A draft layout dimension. */
  datatype Dim = Dim(auto: bool, max: int)

  /** An applied layout dimension, with the size the viewer uses. */
  datatype Applied = Applied(auto: bool, max: int, size: int)

  /** Draft characters and encodings; encodings are option numbers. */
  datatype DraftHex = DraftHex(nullChar: string, npEncoding: int, npChar: string, hiEncoding: int, hiChar: string)

  datatype DraftCopy = DraftCopy(kind: int, prefix: string)

  /** `store.setting`. `strayColumn`/`strayRow` are the top-level `column` and
      `row` members that the as-written open handler creates. */
  datatype Setting = Setting(
    storageKey: string,
    open: bool,
    bodyType: int,
    hex: DraftHex,
    offsetBase: int,
    column: Dim,
    row: Dim,
    searchTextType: int,
    copy: DraftCopy,
    showHistoryLastValue: bool,
    strayColumn: Option<Dim>,
    strayRow: Option<Dim>)

  /** Applied characters and encodings; encodings are kinds. */
  datatype AppliedHex = AppliedHex(nullChar: string, npEncoding: string, npChar: string, hiEncoding: string, hiChar: string)

  /** The parts of the viewer store the settings handlers read or write. */
  datatype Store = Store(
    setting: Setting,
    initialized: bool,
    bodyType: string,
    hex: AppliedHex,
    offsetBase: int,
    column: Applied,
    row: Applied,
    copyKind: string,
    copyPrefix: string)

  /** What `localStorage.getItem` gave, after `JSON.parse`: no item, text that
      does not parse (the empty string included), or a parsed value. */
  datatype Stored = Absent | Unparsable | Parsed(json: Json)

  /** The initial draft. */
  const InitialSetting: Setting := Setting(
    "hexViewer.settings", false, 0,
    DraftHex(".", 0, ".", 0, "."),
    16, Dim(true, 128), Dim(true, 2000), 0,
    DraftCopy(0, "\\"), false, None, None)

  // ---------------------------------------------------------------------------
  // Option tables
  // ---------------------------------------------------------------------------

  /** `table.find(e => e.value === v).type`, or `None` when no entry matches
      (reading `.type` of the missing entry throws). */
  function KindOfValue(t: seq<Choice>, v: int): (r: Option<string>)
    ensures r.None? <==> forall i :: 0 <= i < |t| ==> t[i].value != v
    ensures r.Some? ==> exists i :: 0 <= i < |t| && t[i] == Choice(v, r.value)
  {
    if |t| == 0 then None
    else if t[0].value == v then Some(t[0].kind)
    else KindOfValue(t[1..], v)
  }

  /** `table.find(e => e.type === k).value`. */
  function ValueOfKind(t: seq<Choice>, k: string): (r: Option<int>)
    ensures r.None? <==> forall i :: 0 <= i < |t| ==> t[i].kind != k
    ensures r.Some? ==> exists i :: 0 <= i < |t| && t[i] == Choice(r.value, k)
  {
    if |t| == 0 then None
    else if t[0].kind == k then Some(t[0].value)
    else ValueOfKind(t[1..], k)
  }

  /** `kinds.includes(j) ? kinds.findIndex(c => c === j) : 0`: the position of
      the first entry whose kind is the string `j`, or 0. */
  function KindIndex(t: seq<Choice>, j: Json): (r: int)
    ensures 0 <= r
    ensures r < |t| || r == 0
    ensures j.JStr? && (exists i :: 0 <= i < |t| && t[i].kind == j.s) ==>
      t[r].kind == j.s && forall i :: 0 <= i < r ==> t[i].kind != j.s
    ensures !(j.JStr? && exists i :: 0 <= i < |t| && t[i].kind == j.s) ==> r == 0
  {
    if |t| == 0 || !j.JStr? then 0
    else if t[0].kind == j.s then 0
    else
      var rest := KindIndex(t[1..], j);
      if exists i :: 0 <= i < |t| - 1 && t[1..][i].kind == j.s then rest + 1 else 0
  }

  /** `allowed.includes(j) ? j : fallback` for a number list. */
  function NumberIn(j: Json, allowed: seq<int>, fallback: int): (r: int)
    ensures j.JNum? && j.n in allowed ==> r == j.n
    ensures !(j.JNum? && j.n in allowed) ==> r == fallback
  {
    if j.JNum? && j.n in allowed then j.n else fallback
  }

  /** A table whose option numbers are the positions and whose kinds are distinct. */
  predicate WellFormedTable(t: seq<Choice>)
  {
    && (forall i :: 0 <= i < |t| ==> t[i].value == i)
    && (forall i, j :: 0 <= i < j < |t| ==> t[i].kind != t[j].kind)
  }

  predicate WellFormed(t: Tables)
  {
    && WellFormedTable(t.bodyTypes) && WellFormedTable(t.npEncodings)
    && WellFormedTable(t.hiEncodings) && WellFormedTable(t.copyTypes)
  }

  /** On a well-formed table, the position of a number's kind is the number. */
  lemma KindIndexOfKindOfValue(t: seq<Choice>, v: int)
    requires WellFormedTable(t)
    requires KindOfValue(t, v).Some?
    ensures KindIndex(t, JStr(KindOfValue(t, v).value)) == v
  {
    var k := KindOfValue(t, v).value;
    var i :| 0 <= i < |t| && t[i] == Choice(v, k);
    var r := KindIndex(t, JStr(k));
    assert t[r].kind == k;
  }

  /** On a well-formed table, looking a kind's number up again gives the kind. */
  lemma KindOfValueOfKind(t: seq<Choice>, k: string)
    requires WellFormedTable(t)
    requires ValueOfKind(t, k).Some?
    ensures KindOfValue(t, ValueOfKind(t, k).value) == Some(k)
  {
    var v := ValueOfKind(t, k).value;
    var i :| 0 <= i < |t| && t[i] == Choice(v, k);
    var k' := KindOfValue(t, v).value;
    var j :| 0 <= j < |t| && t[j] == Choice(v, k');
  }

  // ---------------------------------------------------------------------------
  // Load
  // ---------------------------------------------------------------------------

  /** `json?.a?.b?.c === undefined ? fallback : json.a.b.c`. */
  function Read(j: Json, path: seq<string>, fallback: Json): (r: Json)
    ensures Lookup(j, path).None? ==> r == fallback
    ensures Lookup(j, path).Some? ==> r == Lookup(j, path).value
  {
    match Lookup(j, path)
    case None => fallback
    case Some(v) => v
  }

  /** `v.slice(-1)`: the last character of a string; any value without a
      `slice` method throws. An array has one and would give back a
      one-element array, which a character field cannot hold: it is treated
      as throwing here too. */
  function SliceLast(v: Json): (r: Result<string>)
    ensures r.Ok? <==> v.JStr?
    ensures r.Ok? ==> |r.value| <= 1 && r.value == LastChar(v.s)
  {
    if v.JStr? then Ok(LastChar(v.s)) else Thrown
  }

  /** `settingLoad`: rebuild the draft from the stored document, field by field;
      a missing field falls back to the applied value, a value outside its
      table falls back to the first option (encodings, copy type), to 16 (offset
      base) or to the draft (column flag and width), and the draft row becomes
      the applied row. Only the draft changes. */
  function Load(s: Store, stored: Stored, t: Tables): (r: Result<Store>)
    ensures stored.Absent? ==> r == Ok(s)
    ensures stored.Unparsable? ==> r.Thrown?
    ensures stored.Parsed? && stored.json.JArr? ==> r == Ok(s)
    ensures r.Ok? ==> r.value == s.(setting := r.value.setting)
    ensures r.Ok? && stored.Parsed? && !stored.json.JArr? ==>
      var d := r.value.setting;
      && d.open == s.setting.open && d.bodyType == s.setting.bodyType
      && d.searchTextType == s.setting.searchTextType
      && d.row == Dim(s.row.auto, s.row.max)
      && |d.hex.nullChar| <= 1 && |d.hex.npChar| <= 1 && |d.hex.hiChar| <= 1 && |d.copy.prefix| <= 1
      && (d.offsetBase == 16 || d.offsetBase in t.offsetBases)
    ensures r.Ok? && stored.Parsed? && !stored.json.JArr? ==>
      var d := r.value.setting;
      var base := Read(stored.json, ["offsetBase"], JNum(s.offsetBase));
      && (base.JNum? && base.n in t.offsetBases ==> d.offsetBase == base.n)
      && (!(base.JNum? && base.n in t.offsetBases) ==> d.offsetBase == 16)
      && d.column == LoadColumn(s, stored.json, t)
  {
    match stored
    case Absent => Ok(s)
    case Unparsable => Thrown
    case Parsed(j) =>
      if j.JArr? then Ok(s)
      else
        var hex := LoadHex(s, j, t);
        var copy := LoadCopy(s, j, t);
        if hex.Thrown? || copy.Thrown? then Thrown
        else
          Ok(s.(setting := s.setting.(
            hex := hex.value,
            offsetBase := NumberIn(Read(j, ["offsetBase"], JNum(s.offsetBase)), t.offsetBases, 16),
            column := LoadColumn(s, j, t),
            row := Dim(s.row.auto, s.row.max),
            copy := copy.value)))
  }

  /** The last character of the string stored at `path`, or of the applied
      text when nothing is stored there; a stored value that is not a string
      throws. */
  function ReadChar(j: Json, path: seq<string>, fallback: string): (r: Result<string>)
    ensures Lookup(j, path).None? ==> r == Ok(LastChar(fallback))
    ensures Lookup(j, path).Some? ==> (r.Ok? <==> Lookup(j, path).value.JStr?)
    ensures r.Ok? ==> |r.value| <= 1
  {
    SliceLast(Read(j, path, JStr(fallback)))
  }

  /** The hex part of the draft read from the stored document. */
  function LoadHex(s: Store, j: Json, t: Tables): (r: Result<DraftHex>)
    ensures r.Ok? ==> |r.value.nullChar| <= 1 && |r.value.npChar| <= 1 && |r.value.hiChar| <= 1
    ensures r.Ok? ==> r.value.npEncoding < |t.npEncodings| || r.value.npEncoding == 0
    ensures r.Ok? ==> r.value.hiEncoding < |t.hiEncodings| || r.value.hiEncoding == 0
  {
    var nullChar := ReadChar(j, ["hex", "null", "char"], s.hex.nullChar);
    var npChar := ReadChar(j, ["hex", "nonPrintable", "char"], s.hex.npChar);
    var hiChar := ReadChar(j, ["hex", "higher", "char"], s.hex.hiChar);
    if nullChar.Thrown? || npChar.Thrown? || hiChar.Thrown? then Thrown
    else
      Ok(DraftHex(
        nullChar.value,
        KindIndex(t.npEncodings, Read(j, ["hex", "nonPrintable", "encoding"], JStr(s.hex.npEncoding))),
        npChar.value,
        KindIndex(t.hiEncodings, Read(j, ["hex", "higher", "encoding"], JStr(s.hex.hiEncoding))),
        hiChar.value))
  }

  /** The copy part of the draft read from the stored document. */
  function LoadCopy(s: Store, j: Json, t: Tables): (r: Result<DraftCopy>)
    ensures r.Ok? ==> |r.value.prefix| <= 1
    ensures r.Ok? ==> r.value.kind < |t.copyTypes| || r.value.kind == 0
  {
    var prefix := ReadChar(j, ["copy", "nonPrintable", "prefix"], s.copyPrefix);
    if prefix.Thrown? then Thrown
    else Ok(DraftCopy(KindIndex(t.copyTypes, Read(j, ["copy", "nonPrintable", "type"], JStr(s.copyKind))), prefix.value))
  }

  /** The draft column read from the stored document: a stored flag only when
      it is a boolean and a stored width only when it is offered, the draft's
      own values otherwise. */
  function LoadColumn(s: Store, j: Json, t: Tables): (r: Dim)
    ensures r.max == s.setting.column.max || r.max in t.columns
    ensures !Read(j, ["column", "auto"], JBool(s.column.auto)).JBool? ==> r.auto == s.setting.column.auto
    ensures var a := Read(j, ["column", "auto"], JBool(s.column.auto));
      a.JBool? ==> r.auto == a.b
    ensures var m := Read(j, ["column", "max"], JNum(s.column.max));
      && (m.JNum? && m.n in t.columns ==> r.max == m.n)
      && (!(m.JNum? && m.n in t.columns) ==> r.max == s.setting.column.max)
  {
    var autoColumn := Read(j, ["column", "auto"], JBool(s.column.auto));
    var maxColumn := Read(j, ["column", "max"], JNum(s.column.max));
    Dim(
      if autoColumn.JBool? then autoColumn.b else s.setting.column.auto,
      NumberIn(maxColumn, t.columns, s.setting.column.max))
  }

  // ---------------------------------------------------------------------------
  // Save
  // ---------------------------------------------------------------------------

  /** The store after a save and the document written to browser storage. */
  datatype Saved = Saved(store: Store, persisted: Json)

  /** The document `handleSaveLocalStorage` writes for an applied store. */
  function Persist(s: Store): Json
  {
    JObj([
      ("hex", PersistHex(s.hex)),
      ("offsetBase", JNum(s.offsetBase)),
      ("column", PersistDim(s.column)),
      ("row", PersistDim(s.row)),
      ("copy", JObj([("nonPrintable", PersistCopy(s.copyKind, s.copyPrefix))]))])
  }

  function PersistHex(h: AppliedHex): Json
  {
    JObj([
      ("null", JObj([("char", JStr(h.nullChar))])),
      ("nonPrintable", JObj([("encoding", JStr(h.npEncoding)), ("char", JStr(h.npChar))])),
      ("higher", JObj([("encoding", JStr(h.hiEncoding)), ("char", JStr(h.hiChar))]))])
  }

  function PersistDim(a: Applied): Json
  {
    JObj([("auto", JBool(a.auto)), ("max", JNum(a.max))])
  }

  function PersistCopy(kind: string, prefix: string): Json
  {
    JObj([("type", JStr(kind)), ("prefix", JStr(prefix))])
  }

  lemma PersistTop(s: Store)
    ensures var ms := Persist(s).members;
      && Member(ms, "hex") == Some(PersistHex(s.hex))
      && Member(ms, "offsetBase") == Some(JNum(s.offsetBase))
      && Member(ms, "column") == Some(PersistDim(s.column))
      && Member(ms, "row") == Some(PersistDim(s.row))
      && Member(ms, "copy") == Some(JObj([("nonPrintable", PersistCopy(s.copyKind, s.copyPrefix))]))
  {
    var ms := Persist(s).members;
    MemberAt(ms, 0);
    MemberAt(ms, 1);
    MemberAt(ms, 2);
    MemberAt(ms, 3);
    MemberAt(ms, 4);
  }

  lemma PersistHexFields(h: AppliedHex)
    ensures var j := PersistHex(h);
      && Lookup(j, ["null", "char"]) == Some(JStr(h.nullChar))
      && Lookup(j, ["nonPrintable", "encoding"]) == Some(JStr(h.npEncoding))
      && Lookup(j, ["nonPrintable", "char"]) == Some(JStr(h.npChar))
      && Lookup(j, ["higher", "encoding"]) == Some(JStr(h.hiEncoding))
      && Lookup(j, ["higher", "char"]) == Some(JStr(h.hiChar))
  {
    var ms := PersistHex(h).members;
    MemberAt(ms, 0);
    MemberAt(ms, 1);
    MemberAt(ms, 2);
    MemberAt(ms[0].1.members, 0);
    MemberAt(ms[1].1.members, 0);
    MemberAt(ms[1].1.members, 1);
    MemberAt(ms[2].1.members, 0);
    MemberAt(ms[2].1.members, 1);
  }

  lemma PersistDimFields(a: Applied)
    ensures Lookup(PersistDim(a), ["auto"]) == Some(JBool(a.auto))
    ensures Lookup(PersistDim(a), ["max"]) == Some(JNum(a.max))
  {
    MemberAt(PersistDim(a).members, 0);
    MemberAt(PersistDim(a).members, 1);
  }

  lemma PersistCopyFields(kind: string, prefix: string)
    ensures Lookup(PersistCopy(kind, prefix), ["type"]) == Some(JStr(kind))
    ensures Lookup(PersistCopy(kind, prefix), ["prefix"]) == Some(JStr(prefix))
  {
    MemberAt(PersistCopy(kind, prefix).members, 0);
    MemberAt(PersistCopy(kind, prefix).members, 1);
  }

  /** The applied hex settings are written at the paths the load handler reads them from. */
  lemma PersistHexPaths(s: Store)
    ensures var j := Persist(s);
      && Lookup(j, ["hex", "null", "char"]) == Some(JStr(s.hex.nullChar))
      && Lookup(j, ["hex", "nonPrintable", "encoding"]) == Some(JStr(s.hex.npEncoding))
      && Lookup(j, ["hex", "nonPrintable", "char"]) == Some(JStr(s.hex.npChar))
      && Lookup(j, ["hex", "higher", "encoding"]) == Some(JStr(s.hex.hiEncoding))
      && Lookup(j, ["hex", "higher", "char"]) == Some(JStr(s.hex.hiChar))
  {
    var j := Persist(s);
    PersistTop(s);
    PersistHexFields(s.hex);
    LookupStep(j, ["hex", "null", "char"]);
    LookupStep(j, ["hex", "nonPrintable", "encoding"]);
    LookupStep(j, ["hex", "nonPrintable", "char"]);
    LookupStep(j, ["hex", "higher", "encoding"]);
    LookupStep(j, ["hex", "higher", "char"]);
  }

  /** The applied offset base and layout are written at the paths the load handler reads them from. */
  lemma PersistLayoutPaths(s: Store)
    ensures var j := Persist(s);
      && Lookup(j, ["offsetBase"]) == Some(JNum(s.offsetBase))
      && Lookup(j, ["column", "auto"]) == Some(JBool(s.column.auto))
      && Lookup(j, ["column", "max"]) == Some(JNum(s.column.max))
      && Lookup(j, ["row", "auto"]) == Some(JBool(s.row.auto))
      && Lookup(j, ["row", "max"]) == Some(JNum(s.row.max))
  {
    var j := Persist(s);
    PersistTop(s);
    PersistDimFields(s.column);
    PersistDimFields(s.row);
    LookupStep(j, ["column", "auto"]);
    LookupStep(j, ["column", "max"]);
    LookupStep(j, ["row", "auto"]);
    LookupStep(j, ["row", "max"]);
  }

  /** The applied copy settings are written at the paths the load handler reads them from. */
  lemma PersistCopyPaths(s: Store)
    ensures var j := Persist(s);
      && Lookup(j, ["copy", "nonPrintable", "type"]) == Some(JStr(s.copyKind))
      && Lookup(j, ["copy", "nonPrintable", "prefix"]) == Some(JStr(s.copyPrefix))
  {
    var j := Persist(s);
    PersistTop(s);
    PersistCopyFields(s.copyKind, s.copyPrefix);
    var copy := JObj([("nonPrintable", PersistCopy(s.copyKind, s.copyPrefix))]);
    MemberAt(copy.members, 0);
    LookupStep(j, ["copy", "nonPrintable", "type"]);
    LookupStep(j, ["copy", "nonPrintable", "prefix"]);
    LookupStep(copy, ["nonPrintable", "type"]);
    LookupStep(copy, ["nonPrintable", "prefix"]);
  }

  function Min(a: int, b: int): int { if a <= b then a else b }

  /** `settingSave`: apply the draft. Each option number is turned into its kind
      (a number missing from its table throws); a dimension in auto mode takes
      the computed size, otherwise the computed size capped by the draft's
      maximum; the viewer re-initialises only when the body type changes; the
      dialog closes and the applied values are written to storage. */
  function Save(s: Store, env: Env): (r: Result<Saved>)
    ensures r.Ok? <==>
      && KindOfValue(env.tables.bodyTypes, s.setting.bodyType).Some?
      && KindOfValue(env.tables.copyTypes, s.setting.copy.kind).Some?
      && KindOfValue(env.tables.npEncodings, s.setting.hex.npEncoding).Some?
      && KindOfValue(env.tables.hiEncodings, s.setting.hex.hiEncoding).Some?
    ensures r.Ok? ==>
      var n := r.value.store;
      && r.value.persisted == Persist(n)
      && n.setting == s.setting.(open := false)
      && n.initialized == (n.bodyType == s.bodyType)
      && n.hex.nullChar == s.setting.hex.nullChar && n.hex.npChar == s.setting.hex.npChar
      && n.hex.hiChar == s.setting.hex.hiChar && n.copyPrefix == s.setting.copy.prefix
      && n.offsetBase == s.setting.offsetBase
      && n.column.auto == s.setting.column.auto && n.column.max == s.setting.column.max
      && n.row.auto == s.setting.row.auto && n.row.max == s.setting.row.max
      && (n.column.auto ==> n.column.size == env.columnSize)
      && (!n.column.auto ==> n.column.size <= n.column.max && n.column.size <= env.columnSize)
      && (n.row.auto ==> n.row.size == env.rowSize)
      && (!n.row.auto ==> n.row.size <= n.row.max && n.row.size <= env.rowSize)
    ensures r.Ok? ==>
      var n := r.value.store;
      && Some(n.bodyType) == KindOfValue(env.tables.bodyTypes, s.setting.bodyType)
      && Some(n.hex.npEncoding) == KindOfValue(env.tables.npEncodings, s.setting.hex.npEncoding)
      && Some(n.hex.hiEncoding) == KindOfValue(env.tables.hiEncodings, s.setting.hex.hiEncoding)
      && Some(n.copyKind) == KindOfValue(env.tables.copyTypes, s.setting.copy.kind)
      && (!n.column.auto ==> n.column.size == Min(env.columnSize, n.column.max))
      && (!n.row.auto ==> n.row.size == Min(env.rowSize, n.row.max))
  {
    var t := env.tables;
    var d := s.setting;
    var bodyType := KindOfValue(t.bodyTypes, d.bodyType);
    var copyType := KindOfValue(t.copyTypes, d.copy.kind);
    var lower := KindOfValue(t.npEncodings, d.hex.npEncoding);
    var higher := KindOfValue(t.hiEncodings, d.hex.hiEncoding);
    if bodyType.None? || copyType.None? || lower.None? || higher.None? then Thrown
    else
      var columnSize := if d.column.auto then env.columnSize else Min(env.columnSize, d.column.max);
      var rowSize := if d.row.auto then env.rowSize else Min(env.rowSize, d.row.max);
      var n := Store(
        d.(open := false),
        s.bodyType == bodyType.value,
        bodyType.value,
        AppliedHex(d.hex.nullChar, lower.value, d.hex.npChar, higher.value, d.hex.hiChar),
        d.offsetBase,
        Applied(d.column.auto, d.column.max, columnSize),
        Applied(d.row.auto, d.row.max, rowSize),
        copyType.value,
        d.copy.prefix);
      Ok(Saved(n, Persist(n)))
  }

  /** Every character field of the draft holds at most one character. */
  predicate ShortDraft(d: Setting)
  {
    |d.hex.nullChar| <= 1 && |d.hex.npChar| <= 1 && |d.hex.hiChar| <= 1 && |d.copy.prefix| <= 1
  }

  /** Every character field, draft and applied, holds at most one character. */
  predicate ShortChars(s: Store)
  {
    && ShortDraft(s.setting)
    && |s.hex.nullChar| <= 1 && |s.hex.npChar| <= 1 && |s.hex.hiChar| <= 1 && |s.copyPrefix| <= 1
  }

  /** Loading the document written for an applied store reads the applied hex
      characters back as they are and the encodings as their positions in the tables. */
  lemma LoadHexPersisted(n: Store, t: Tables)
    requires |n.hex.nullChar| <= 1 && |n.hex.npChar| <= 1 && |n.hex.hiChar| <= 1
    ensures LoadHex(n, Persist(n), t) ==
      Ok(DraftHex(n.hex.nullChar, KindIndex(t.npEncodings, JStr(n.hex.npEncoding)), n.hex.npChar,
                  KindIndex(t.hiEncodings, JStr(n.hex.hiEncoding)), n.hex.hiChar))
  {
    PersistHexPaths(n);
    LastCharOfShort(n.hex.nullChar);
    LastCharOfShort(n.hex.npChar);
    LastCharOfShort(n.hex.hiChar);
  }

  /** Loading the written document reads the copy prefix back and the copy kind as its position. */
  lemma LoadCopyPersisted(n: Store, t: Tables)
    requires |n.copyPrefix| <= 1
    ensures LoadCopy(n, Persist(n), t) == Ok(DraftCopy(KindIndex(t.copyTypes, JStr(n.copyKind)), n.copyPrefix))
  {
    PersistCopyPaths(n);
    LastCharOfShort(n.copyPrefix);
  }

  /** Loading the written document reads the column flag back, and the width when it is offered. */
  lemma LoadColumnPersisted(n: Store, t: Tables)
    ensures LoadColumn(n, Persist(n), t) == Dim(n.column.auto, NumberIn(JNum(n.column.max), t.columns, n.setting.column.max))
  {
    PersistLayoutPaths(n);
  }

  /** Loading the document written for an applied store reads every applied
      value back into the draft: the characters as they are, the kinds as
      their positions in the tables, the offset base and column width when
      they are offered, and the column flag as written. */
  lemma LoadPersisted(n: Store, t: Tables)
    requires |n.hex.nullChar| <= 1 && |n.hex.npChar| <= 1 && |n.hex.hiChar| <= 1 && |n.copyPrefix| <= 1
    ensures Load(n, Parsed(Persist(n)), t) ==
      Ok(n.(setting := n.setting.(
        hex := DraftHex(n.hex.nullChar, KindIndex(t.npEncodings, JStr(n.hex.npEncoding)), n.hex.npChar,
                        KindIndex(t.hiEncodings, JStr(n.hex.hiEncoding)), n.hex.hiChar),
        offsetBase := NumberIn(JNum(n.offsetBase), t.offsetBases, 16),
        column := Dim(n.column.auto, NumberIn(JNum(n.column.max), t.columns, n.setting.column.max)),
        row := Dim(n.row.auto, n.row.max),
        copy := DraftCopy(KindIndex(t.copyTypes, JStr(n.copyKind)), n.copyPrefix))))
  {
    LoadHexPersisted(n, t);
    LoadCopyPersisted(n, t);
    LoadColumnPersisted(n, t);
    PersistLayoutPaths(n);
  }

  /** Saving and loading back what was written restores the draft, closed; the
      offset base survives when it is one of the offered bases and becomes 16
      otherwise. The applied values are untouched by the load. */
  lemma SaveThenLoad(s: Store, env: Env)
    requires WellFormed(env.tables)
    requires ShortDraft(s.setting)
    requires Save(s, env).Ok?
    ensures var saved := Save(s, env).value;
      Load(saved.store, Parsed(saved.persisted), env.tables) ==
        Ok(saved.store.(setting := s.setting.(
          open := false,
          offsetBase := if s.setting.offsetBase in env.tables.offsetBases then s.setting.offsetBase else 16)))
  {
    var t := env.tables;
    var d := s.setting;
    var n := Save(s, env).value.store;
    KindIndexOfKindOfValue(t.npEncodings, d.hex.npEncoding);
    KindIndexOfKindOfValue(t.hiEncodings, d.hex.hiEncoding);
    KindIndexOfKindOfValue(t.copyTypes, d.copy.kind);
    LoadPersisted(n, t);
  }

  // ---------------------------------------------------------------------------
  // Open, close, reset
  // ---------------------------------------------------------------------------

  /** The draft dimension shown when the dialog opens: the applied flag, and the
      current size as the maximum while in auto mode. */
  function DimForDialog(a: Applied): (r: Dim)
    ensures r.auto == a.auto
    ensures r.max == if a.auto then a.size else a.max
  {
    Dim(a.auto, if a.auto then a.size else a.max)
  }

  /** The draft fields every version of `settingOpen` sets: the dialog opens
      and the offset base, characters, encodings and copy settings are copied
      from the applied values (a kind missing from its table throws). */
  function OpenDraft(s: Store, t: Tables): (r: Result<Setting>)
    ensures r.Ok? <==>
      && ValueOfKind(t.npEncodings, s.hex.npEncoding).Some?
      && ValueOfKind(t.hiEncodings, s.hex.hiEncoding).Some?
      && ValueOfKind(t.copyTypes, s.copyKind).Some?
    ensures r.Ok? ==>
      && r.value.open && r.value.offsetBase == s.offsetBase
      && r.value.hex.nullChar == s.hex.nullChar && r.value.hex.npChar == s.hex.npChar
      && r.value.hex.hiChar == s.hex.hiChar && r.value.copy.prefix == s.copyPrefix
      && r.value.bodyType == s.setting.bodyType && r.value.column == s.setting.column
      && r.value.row == s.setting.row
  {
    var lower := ValueOfKind(t.npEncodings, s.hex.npEncoding);
    var higher := ValueOfKind(t.hiEncodings, s.hex.hiEncoding);
    var copyType := ValueOfKind(t.copyTypes, s.copyKind);
    if lower.None? || higher.None? || copyType.None? then Thrown
    else Ok(s.setting.(
      open := true,
      offsetBase := s.offsetBase,
      hex := DraftHex(s.hex.nullChar, lower.value, s.hex.npChar, higher.value, s.hex.hiChar),
      copy := DraftCopy(copyType.value, s.copyPrefix)))
  }

  /** `settingOpen` as written: the refreshed column and row are stored as new
      top-level members of the draft, next to the `layout` the dialog and the
      save handler read, so the draft layout is not refreshed. */
  function OpenAsWritten(s: Store, t: Tables): (r: Result<Store>)
    ensures r.Ok? <==> OpenDraft(s, t).Ok?
    ensures r.Ok? ==> r.value == s.(setting := r.value.setting)
    ensures r.Ok? ==> r.value.setting == OpenDraft(s, t).value.(
      strayColumn := Some(DimForDialog(s.column)), strayRow := Some(DimForDialog(s.row)))
    ensures r.Ok? ==> r.value.setting.column == s.setting.column && r.value.setting.row == s.setting.row
    ensures r.Ok? ==> r.value.setting.strayColumn == Some(DimForDialog(s.column))
  {
    match OpenDraft(s, t)
    case Thrown => Thrown
    case Ok(d) => Ok(s.(setting := d.(strayColumn := Some(DimForDialog(s.column)), strayRow := Some(DimForDialog(s.row)))))
  }

  /** `settingOpen` as intended: the refreshed column and row go into the draft
      layout. */
  function Open(s: Store, t: Tables): (r: Result<Store>)
    ensures r.Ok? <==> OpenDraft(s, t).Ok?
    ensures r.Ok? ==> r.value == s.(setting := r.value.setting)
    ensures r.Ok? ==> r.value.setting.open
    ensures r.Ok? ==> r.value.setting.column == DimForDialog(s.column) && r.value.setting.row == DimForDialog(s.row)
  {
    match OpenDraft(s, t)
    case Thrown => Thrown
    case Ok(d) => Ok(s.(setting := d.(column := DimForDialog(s.column), row := DimForDialog(s.row))))
  }

  /** Opening the dialog and saving at once keeps the applied layout flags, the
      widths of dimensions not in auto mode, the characters, encodings, offset
      base and copy settings, given well-formed tables. */
  lemma OpenThenSave(s: Store, env: Env)
    requires WellFormed(env.tables)
    requires Open(s, env.tables).Ok?
    requires Save(Open(s, env.tables).value, env).Ok?
    ensures var n := Save(Open(s, env.tables).value, env).value.store;
      && n.column.auto == s.column.auto && n.row.auto == s.row.auto
      && (!s.column.auto ==> n.column.max == s.column.max)
      && (!s.row.auto ==> n.row.max == s.row.max)
      && n.hex == s.hex && n.offsetBase == s.offsetBase
      && n.copyKind == s.copyKind && n.copyPrefix == s.copyPrefix
  {
    var t := env.tables;
    KindOfValueOfKind(t.npEncodings, s.hex.npEncoding);
    KindOfValueOfKind(t.hiEncodings, s.hex.hiEncoding);
    KindOfValueOfKind(t.copyTypes, s.copyKind);
  }

  /** A store whose draft column flag went stale (auto switched off in the
      dialog, which was then closed without saving). */
  const StaleStore: Store := Store(
    InitialSetting.(column := Dim(false, 64)),
    true, "hex",
    AppliedHex(".", "cp437", ".", "cp437", "."),
    16, Applied(true, 128, 32), Applied(true, 2000, 40),
    "escape", "\\")

  const OneEntryTables: Tables := Tables(
    [Choice(0, "hex")], [Choice(0, "cp437")], [Choice(0, "cp437")], [Choice(0, "escape")], [16], [64, 128])

  /** With the as-written open handler, opening the dialog and saving at once
      switches the applied column out of auto mode. */
  lemma OpenAsWrittenThenSaveLosesAuto()
    ensures var reopened := OpenAsWritten(StaleStore, OneEntryTables);
      && reopened.Ok?
      && var saved := Save(reopened.value, Env(OneEntryTables, 32, 40));
      && saved.Ok?
      && StaleStore.column.auto
      && !saved.value.store.column.auto
  {
    var t := OneEntryTables;
    assert ValueOfKind(t.npEncodings, "cp437") == Some(0);
    assert ValueOfKind(t.copyTypes, "escape") == Some(0);
    assert KindOfValue(t.bodyTypes, 0) == Some("hex");
    assert KindOfValue(t.npEncodings, 0) == Some("cp437");
    assert KindOfValue(t.copyTypes, 0) == Some("escape");
  }

  /** `settingClose`. */
  function Close(s: Store): (r: Store)
    ensures !r.setting.open
    ensures r.setting.(open := s.setting.open) == s.setting
    ensures r == s.(setting := r.setting)
  {
    s.(setting := s.setting.(open := false))
  }

  /** `settingReset`: body type, characters, encodings and offset base back to
      their initial values, both dimensions in auto mode (the column maximum is
      the computed width), the search text type back to 0; the copy settings
      and the open flag are kept. */
  function Reset(s: Store, env: Env): (r: Store)
    ensures r == s.(setting := r.setting)
    ensures r.setting.hex == InitialSetting.hex && r.setting.bodyType == InitialSetting.bodyType
    ensures r.setting.offsetBase == InitialSetting.offsetBase
    ensures r.setting.searchTextType == InitialSetting.searchTextType
    ensures r.setting.column == Dim(true, env.columnSize) && r.setting.row == InitialSetting.row
    ensures r.setting.copy == s.setting.copy && r.setting.open == s.setting.open
    ensures r.setting.(bodyType := s.setting.bodyType, hex := s.setting.hex, offsetBase := s.setting.offsetBase,
                       column := s.setting.column, row := s.setting.row,
                       searchTextType := s.setting.searchTextType) == s.setting
  {
    s.(setting := s.setting.(
      bodyType := 0,
      hex := DraftHex(".", 0, ".", 0, "."),
      offsetBase := 16,
      column := Dim(true, env.columnSize),
      row := Dim(true, 2000),
      searchTextType := 0))
  }

  /** Resetting and saving applies the initial characters and offset base with
      both dimensions in auto mode at their computed sizes. */
  lemma ResetThenSave(s: Store, env: Env)
    requires Save(Reset(s, env), env).Ok?
    ensures var n := Save(Reset(s, env), env).value.store;
      && n.hex.nullChar == "." && n.hex.npChar == "." && n.hex.hiChar == "."
      && n.offsetBase == 16
      && n.column == Applied(true, env.columnSize, env.columnSize)
      && n.row == Applied(true, 2000, env.rowSize)
      && n.copyPrefix == s.setting.copy.prefix
  {
  }

  // ---------------------------------------------------------------------------
  // Field edits
  // ---------------------------------------------------------------------------

  function SetDraft(s: Store, d: Setting): (r: Store)
    ensures r.setting == d && r == s.(setting := d)
  {
    s.(setting := d)
  }

  /** `settingCopyNonPrintableTypeChange`. */
  function CopyTypeChange(s: Store, value: int): (r: Store)
    ensures r.setting.copy.kind == value
    ensures r.setting.(copy := s.setting.copy) == s.setting && r == s.(setting := r.setting)
  {
    SetDraft(s, s.setting.(copy := s.setting.copy.(kind := value)))
  }

  /** `settingCopyNonPrintablePrefixChange`: only the last typed character is kept. */
  function CopyPrefixChange(s: Store, text: string): (r: Store)
    ensures |r.setting.copy.prefix| <= 1
    ensures |text| > 0 ==> r.setting.copy.prefix == [text[|text| - 1]]
    ensures |text| == 0 ==> r.setting.copy.prefix == ""
    ensures r.setting.copy.kind == s.setting.copy.kind
    ensures r.setting.(copy := s.setting.copy) == s.setting && r == s.(setting := r.setting)
  {
    SetDraft(s, s.setting.(copy := s.setting.copy.(prefix := LastChar(text))))
  }

  /** `settingOffsetBaseChange`. */
  function OffsetBaseChange(s: Store, value: int): (r: Store)
    ensures r.setting.offsetBase == value
    ensures r.setting.(offsetBase := s.setting.offsetBase) == s.setting && r == s.(setting := r.setting)
  {
    SetDraft(s, s.setting.(offsetBase := value))
  }

  /** `settingAutoColumnChange`: flips the column's auto mode; switching auto
      on shows the computed width as the maximum, switching it off keeps the
      maximum. */
  function AutoColumnChange(s: Store, env: Env): (r: Store)
    ensures r.setting.column.auto == !s.setting.column.auto
    ensures r.setting.column.max == if s.setting.column.auto then s.setting.column.max else env.columnSize
    ensures r.setting.(column := s.setting.column) == s.setting
  {
    var c := s.setting.column;
    SetDraft(s, s.setting.(column := Dim(!c.auto, if c.auto then c.max else env.columnSize)))
  }

  /** Flipping auto mode twice restores the flag, but the maximum is then the
      computed width whichever mode the column started in. */
  lemma AutoColumnChangeTwice(s: Store, env: Env)
    ensures var r := AutoColumnChange(AutoColumnChange(s, env), env);
      && r.setting.column.auto == s.setting.column.auto
      && r.setting.column.max == env.columnSize
  {
  }

  /** `settingColumnChange`. */
  function ColumnChange(s: Store, value: int): (r: Store)
    ensures r.setting.column.max == value
    ensures r.setting.(column := s.setting.column) == s.setting && r == s.(setting := r.setting)
  {
    SetDraft(s, s.setting.(column := s.setting.column.(max := value)))
  }

  /** `settingBodyTypeChange`. */
  function BodyTypeChange(s: Store, value: int): (r: Store)
    ensures r.setting.bodyType == value
    ensures r.setting.(bodyType := s.setting.bodyType) == s.setting && r == s.(setting := r.setting)
  {
    SetDraft(s, s.setting.(bodyType := value))
  }

  /** `settingEncodingChange`: `key` names which encoding takes the value;
      any other key changes nothing. */
  function EncodingChange(s: Store, key: string, value: int): (r: Store)
    ensures r.setting.hex.npEncoding == if key == "nonPrintable" then value else s.setting.hex.npEncoding
    ensures r.setting.hex.hiEncoding == if key == "higher" then value else s.setting.hex.hiEncoding
    ensures key != "nonPrintable" && key != "higher" ==> r == s
    ensures r.setting.hex.(npEncoding := s.setting.hex.npEncoding, hiEncoding := s.setting.hex.hiEncoding) == s.setting.hex
    ensures r.setting.(hex := s.setting.hex) == s.setting && r == s.(setting := r.setting)
  {
    var h := s.setting.hex;
    SetDraft(s, s.setting.(hex := h.(
      npEncoding := if key == "nonPrintable" then value else h.npEncoding,
      hiEncoding := if key == "higher" then value else h.hiEncoding)))
  }

  /** `settingHexCharChange`: `key` names which character takes the last
      typed character; any other key changes nothing. */
  function HexCharChange(s: Store, key: string, text: string): (r: Store)
    ensures r.setting.hex.nullChar == if key == "null" then LastChar(text) else s.setting.hex.nullChar
    ensures r.setting.hex.npChar == if key == "nonPrintable" then LastChar(text) else s.setting.hex.npChar
    ensures r.setting.hex.hiChar == if key == "higher" then LastChar(text) else s.setting.hex.hiChar
    ensures key != "null" && key != "nonPrintable" && key != "higher" ==> r == s
    ensures r.setting.hex.(nullChar := s.setting.hex.nullChar, npChar := s.setting.hex.npChar,
                           hiChar := s.setting.hex.hiChar) == s.setting.hex
    ensures r.setting.(hex := s.setting.hex) == s.setting && r == s.(setting := r.setting)
  {
    var h := s.setting.hex;
    SetDraft(s, s.setting.(hex := h.(
      nullChar := if key == "null" then LastChar(text) else h.nullChar,
      npChar := if key == "nonPrintable" then LastChar(text) else h.npChar,
      hiChar := if key == "higher" then LastChar(text) else h.hiChar)))
  }

  /** `bodyResize`: in auto mode the draft column maximum follows the
      computed width; otherwise nothing changes. */
  function BodyResize(s: Store, env: Env): (r: Store)
    ensures s.setting.column.auto ==> r.setting.column == Dim(true, env.columnSize)
    ensures !s.setting.column.auto ==> r == s
    ensures r.setting.(column := s.setting.column) == s.setting
  {
    var c := s.setting.column;
    SetDraft(s, s.setting.(column := c.(max := if c.auto then env.columnSize else c.max)))
  }

  // ---------------------------------------------------------------------------
  // Dispatch
  // ---------------------------------------------------------------------------

  datatype Action =
    | LoadAction(stored: Stored)
    | SaveAction
    | OpenAction
    | CloseAction
    | ResetAction
    | BodyTypeAction(value: int)
    | CopyTypeAction(value: int)
    | CopyPrefixAction(text: string)
    | OffsetBaseAction(value: int)
    | AutoColumnAction
    | ColumnAction(value: int)
    | EncodingAction(key: string, value: int)
    | HexCharAction(key: string, text: string)
    | BodyResizeAction
    | OtherAction

  /** The new store, and the document written to storage if any. */
  datatype Outcome = Outcome(store: Store, written: Option<Json>)

  /** The settings reducer as written: the open action runs `settingOpen` as
      the source has it, leaving the draft layout as it was. */
  function Reduce(s: Store, a: Action, env: Env): (r: Result<Outcome>)
    ensures a.OtherAction? ==> r == Ok(Outcome(s, None))
    ensures r.Ok? && r.value.written.Some? ==> a.SaveAction? && r.value.written == Some(Persist(r.value.store))
    ensures r.Thrown? ==> a.LoadAction? || a.SaveAction? || a.OpenAction?
    ensures r.Ok? && !a.SaveAction? ==> r.value.store == s.(setting := r.value.store.setting)
  {
    match a
    case LoadAction(stored) =>
      (match Load(s, stored, env.tables)
       case Thrown => Thrown
       case Ok(n) => Ok(Outcome(n, None)))
    case SaveAction =>
      (match Save(s, env)
       case Thrown => Thrown
       case Ok(saved) => Ok(Outcome(saved.store, Some(saved.persisted))))
    case OpenAction =>
      (match OpenAsWritten(s, env.tables)
       case Thrown => Thrown
       case Ok(n) => Ok(Outcome(n, None)))
    case CloseAction => Ok(Outcome(Close(s), None))
    case ResetAction => Ok(Outcome(Reset(s, env), None))
    case BodyTypeAction(v) => Ok(Outcome(BodyTypeChange(s, v), None))
    case CopyTypeAction(v) => Ok(Outcome(CopyTypeChange(s, v), None))
    case CopyPrefixAction(text) => Ok(Outcome(CopyPrefixChange(s, text), None))
    case OffsetBaseAction(v) => Ok(Outcome(OffsetBaseChange(s, v), None))
    case AutoColumnAction => Ok(Outcome(AutoColumnChange(s, env), None))
    case ColumnAction(v) => Ok(Outcome(ColumnChange(s, v), None))
    case EncodingAction(key, v) => Ok(Outcome(EncodingChange(s, key, v), None))
    case HexCharAction(key, text) => Ok(Outcome(HexCharChange(s, key, text), None))
    case BodyResizeAction => Ok(Outcome(BodyResize(s, env), None))
    case OtherAction => Ok(Outcome(s, None))
  }

  /** Opening through the reducer as written leaves the draft layout the
      dialog and the save handler read untouched. */
  lemma ReduceOpenKeepsStaleLayout(s: Store, env: Env)
    ensures Reduce(s, OpenAction, env).Ok? ==>
      && Reduce(s, OpenAction, env).value.store.setting.column == s.setting.column
      && Reduce(s, OpenAction, env).value.store.setting.row == s.setting.row
      && Reduce(s, OpenAction, env).value.store.setting.open
  {
  }

  /** The reducer with the corrected open handler: every other action is
      handled as by `Reduce`. */
  function ReduceCorrected(s: Store, a: Action, env: Env): (r: Result<Outcome>)
    ensures !a.OpenAction? ==> r == Reduce(s, a, env)
    ensures a.OpenAction? ==> (r.Ok? <==> Reduce(s, a, env).Ok?)
    ensures a.OpenAction? && r.Ok? ==>
      && r.value.written.None?
      && r.value.store == s.(setting := r.value.store.setting)
      && r.value.store.setting.column == DimForDialog(s.column)
      && r.value.store.setting.row == DimForDialog(s.row)
  {
    if a.OpenAction? then
      (match Open(s, env.tables)
       case Thrown => Thrown
       case Ok(n) => Ok(Outcome(n, None)))
    else Reduce(s, a, env)
  }

  /** The corrected reducer keeps the one-character invariant too. */
  lemma ReduceCorrectedPreservesShortChars(s: Store, a: Action, env: Env)
    requires ShortChars(s)
    ensures ReduceCorrected(s, a, env).Ok? ==> ShortChars(ReduceCorrected(s, a, env).value.store)
  {
    if !a.OpenAction? {
      ReducePreservesShortChars(s, a, env);
    }
  }

  /** Every action keeps every character field at most one character long. */
  lemma ReducePreservesShortChars(s: Store, a: Action, env: Env)
    requires ShortChars(s)
    ensures Reduce(s, a, env).Ok? ==> ShortChars(Reduce(s, a, env).value.store)
  {
    if a.LoadAction? || a.SaveAction? || a.OpenAction? {
      FallibleKeepsShortChars(s, a, env);
    } else {
      EditKeepsShortChars(s, a, env);
    }
  }

  lemma FallibleKeepsShortChars(s: Store, a: Action, env: Env)
    requires ShortChars(s)
    requires a.LoadAction? || a.SaveAction? || a.OpenAction?
    ensures Reduce(s, a, env).Ok? ==> ShortChars(Reduce(s, a, env).value.store)
  {
    match a
    case LoadAction(stored) =>
    case SaveAction =>
    case OpenAction =>
  }

  lemma EditKeepsShortChars(s: Store, a: Action, env: Env)
    requires ShortChars(s)
    requires !(a.LoadAction? || a.SaveAction? || a.OpenAction?)
    ensures Reduce(s, a, env).Ok? ==> ShortChars(Reduce(s, a, env).value.store)
  {
    match a
    case CloseAction =>
    case ResetAction =>
    case BodyTypeAction(v) =>
    case CopyTypeAction(v) =>
    case CopyPrefixAction(text) =>
      assert ShortChars(CopyPrefixChange(s, text));
    case OffsetBaseAction(v) =>
    case AutoColumnAction =>
    case ColumnAction(v) =>
    case EncodingAction(key, v) =>
    case HexCharAction(key, text) =>
      assert |LastChar(text)| <= 1;
      assert ShortChars(HexCharChange(s, key, text));
    case BodyResizeAction =>
    case OtherAction =>
  }

  /** The initial draft satisfies the invariant. */
  lemma InitialShort()
    ensures ShortDraft(InitialSetting)
  {
  }
}
