/** The state of one result section: the highlight keys it contributes
    (`allTags`), the right-click context menu, and the open/collapsed state
    with its tags, ATT&CK and heuristic panels. */
module ResultSection {
  import opened Common
  import opened ResultBody

  datatype Tag = Tag(tagType: string, value: string)

  /** A section's heuristic: its ATT&CK ids, its id and its signature names,
      each of which may be missing. */
  datatype Heuristic = Heuristic(attack: Option<seq<string>>, heurId: Option<string>, signatures: Option<seq<string>>)

  /** The parts of a section this state depends on; `tags` is `None` when
      the section's tags are not an array. */
  datatype Section = Section(
    tags: Option<seq<Tag>>,
    heuristic: Option<Heuristic>,
    autoCollapse: bool,
    bodyFormat: string)

  function TagKeys(tags: Option<seq<Tag>>, key: (string, string) -> string): (r: seq<string>)
    ensures tags.None? ==> r == []
    ensures tags.Some? ==> (|r| == |tags.value| &&
      forall i :: 0 <= i < |r| ==> r[i] == key(tags.value[i].tagType, tags.value[i].value))
  {
    if tags.None? then []
    else seq(|tags.value|, i requires 0 <= i < |tags.value| => key(tags.value[i].tagType, tags.value[i].value))
  }

  /** The keys of one kind of heuristic part (a missing list adds none). */
  function PartKeys(kind: string, ids: Option<seq<string>>, key: (string, string) -> string): (r: seq<string>)
    ensures ids.None? ==> r == []
    ensures ids.Some? ==> |r| == |ids.value| && forall i :: 0 <= i < |r| ==> r[i] == key(kind, ids.value[i])
  {
    if ids.None? then []
    else seq(|ids.value|, i requires 0 <= i < |ids.value| => key(kind, ids.value[i]))
  }

  function HeuristicKeys(h: Option<Heuristic>, key: (string, string) -> string): seq<string>
  {
    if h.None? then []
    else
      PartKeys("attack_pattern", h.value.attack, key)
      + ((if h.value.heurId.Some? then [key("heuristic", h.value.heurId.value)] else [])
         + PartKeys("heuristic.signature", h.value.signatures, key))
  }

  /** `allTags`: nothing for a printable section; otherwise the highlight key
      of each tag, then of each ATT&CK id, then of the heuristic, then of each
      signature. `key` is the highlighter's `getKey`. */
  function AllTags(s: Section, printable: bool, key: (string, string) -> string): (r: seq<string>)
    ensures printable ==> r == []
  {
    if printable then [] else TagKeys(s.tags, key) + HeuristicKeys(s.heuristic, key)
  }

  function Count<T>(xs: Option<seq<T>>): nat
  {
    if xs.None? then 0 else |xs.value|
  }

  /** The heuristic's keys: those of the ATT&CK ids, then the key of the id
      when present, then those of the signatures. */
  lemma HeuristicLayout(h: Heuristic, key: (string, string) -> string)
    ensures var r := HeuristicKeys(Some(h), key);
      var a := Count(h.attack);
      var n := if h.heurId.Some? then 1 else 0;
      && |r| == a + n + Count(h.signatures)
      && r[..a] == PartKeys("attack_pattern", h.attack, key)
      && (h.heurId.Some? ==> r[a] == key("heuristic", h.heurId.value))
      && r[a + n..] == PartKeys("heuristic.signature", h.signatures, key)
  {
    var ak := PartKeys("attack_pattern", h.attack, key);
    var nk := if h.heurId.Some? then [key("heuristic", h.heurId.value)] else [];
    var sk := PartKeys("heuristic.signature", h.signatures, key);
    assert |ak| == Count(h.attack) && |nk| == (if h.heurId.Some? then 1 else 0);
    ConcatParts(ak, nk, sk);
  }

  lemma ConcatParts(a: seq<string>, b: seq<string>, c: seq<string>)
    ensures |a + (b + c)| == |a| + |b| + |c|
    ensures (a + (b + c))[..|a|] == a
    ensures |b| == 1 ==> (a + (b + c))[|a|] == b[0]
    ensures (a + (b + c))[|a| + |b|..] == c
  {
  }

  /** The layout of `allTags`: the key of each tag first, then the keys of
      the heuristic. */
  lemma AllTagsLayout(s: Section, key: (string, string) -> string)
    ensures var r := AllTags(s, false, key);
      var t := Count(s.tags);
      var rest := HeuristicKeys(s.heuristic, key);
      && |r| == t + |rest|
      && (forall i :: 0 <= i < t ==> r[i] == key(s.tags.value[i].tagType, s.tags.value[i].value))
      && (forall i :: 0 <= i < |rest| ==> r[t + i] == rest[i])
  {
  }

  /** Without a heuristic only the tags contribute. */
  lemma AllTagsWithoutHeuristic(s: Section, key: (string, string) -> string)
    requires s.heuristic.None?
    ensures AllTags(s, false, key) == TagKeys(s.tags, key)
  {
  }

  // ---------------------------------------------------------------------------
  // The context menu
  // ---------------------------------------------------------------------------

  /** The context menu: closed, or open at a position. */
  type Menu = Option<(int, int)>

  /** `handleMenuClick`: a right-click opens the menu just above and left of
      the cursor, or closes an open menu; a printable section ignores it. */
  function MenuClick(state: Menu, printable: bool, x: int, y: int): (r: Menu)
    ensures printable ==> r == state
    ensures !printable ==> (r.None? <==> state.Some?)
    ensures !printable && state.None? ==> r == Some((x - 2, y - 4))
  {
    if printable then state
    else if state.None? then Some((x - 2, y - 4))
    else None
  }

  /** Two right-clicks on a closed menu leave it closed again. */
  lemma MenuClickTwice(printable: bool, x1: int, y1: int, x2: int, y2: int)
    ensures MenuClick(MenuClick(None, printable, x1, y1), printable, x2, y2).None?
  {
  }

  // ---------------------------------------------------------------------------
  // Open state and panels
  // ---------------------------------------------------------------------------

  datatype Panel = TagsPanel | AttackPanel | HeuristicPanel

  datatype View = View(open: bool, showTags: bool, showAttack: bool, showHeur: bool, menu: Menu)

  /** A section starts open unless it auto-collapses, with every panel hidden
      and the menu closed. */
  function InitialView(s: Section): (r: View)
    ensures r.open <==> !s.autoCollapse
    ensures !r.showTags && !r.showAttack && !r.showHeur && r.menu.None?
  {
    View(!s.autoCollapse, false, false, false, None)
  }

  function Showing(v: View, p: Panel): bool
  {
    match p
    case TagsPanel => v.showTags
    case AttackPanel => v.showAttack
    case HeuristicPanel => v.showHeur
  }

  /** `handleShowTags`, `handleShowAttack`, `handleShowHeur`: the panel
      flips; showing it opens the section; the menu closes. */
  function TogglePanel(v: View, p: Panel): (r: View)
    ensures Showing(r, p) == !Showing(v, p)
    ensures forall q :: q != p ==> Showing(r, q) == Showing(v, q)
    ensures r.menu.None?
    ensures !Showing(v, p) ==> r.open
    ensures Showing(v, p) ==> r.open == v.open
  {
    var isOpen := if !Showing(v, p) then true else v.open;
    match p
    case TagsPanel => v.(open := isOpen, showTags := !v.showTags, menu := None)
    case AttackPanel => v.(open := isOpen, showAttack := !v.showAttack, menu := None)
    case HeuristicPanel => v.(open := isOpen, showHeur := !v.showHeur, menu := None)
  }

  /** `handleClick` on the title: the section opens or collapses. */
  function ToggleOpen(v: View): (r: View)
    ensures r.open == !v.open && r.(open := v.open) == v
  {
    v.(open := !v.open)
  }

  /** The body is visible when the section is open or printable. */
  predicate BodyVisible(v: View, printable: bool)
  {
    v.open || printable
  }

  /** Showing a panel and hiding it again restores the panels, closes the
      menu, and leaves the section's body visible. */
  lemma PanelRoundTrip(v: View, p: Panel, printable: bool)
    requires !Showing(v, p)
    ensures var w := TogglePanel(TogglePanel(v, p), p);
      w == v.(open := true, menu := None) && BodyVisible(w, printable)
  {
  }
}
