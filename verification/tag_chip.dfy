/** One tag chip: its verdict and colour, whether it renders, its label, the
    entries of its context menu and the requests and routes those entries
    produce (signature page, related search, federated lookup, safelisting).
    `encodeURIComponent`, the field-value escaper and `scoreToVerdict` are
    unseen; the first two are passed in as functions, the last as the verdict
    it gives for the tag's score. */
module TagChip {
  import opened Common

  /** A JavaScript string in a boolean position: absent or empty is false. */
  predicate Truthy(s: Option<string>)
  {
    s.Some? && s.value != ""
  }

  // ---------------------------------------------------------------------------
  // Verdict and colour
  // ---------------------------------------------------------------------------

  /** `maliciousness`: a safelisted tag is safe; otherwise its level when it has
      one, else the verdict of its score. */
  function Verdict(lvl: Option<string>, scoreVerdict: string, safelisted: bool): (r: string)
    ensures safelisted ==> r == "safe"
    ensures !safelisted && Truthy(lvl) ==> r == lvl.value
    ensures !safelisted && !Truthy(lvl) ==> r == scoreVerdict
  {
    if safelisted then "safe"
    else if Truthy(lvl) then lvl.value
    else scoreVerdict
  }

  datatype Color = Warning | Error | Success | Default | Primary

  /** The colour table indexed by verdict; an unknown verdict indexes nothing. */
  function VerdictColor(verdict: string): (r: Option<Color>)
  {
    match verdict
    case "suspicious" => Some(Warning)
    case "highly_suspicious" => Some(Warning)
    case "malicious" => Some(Error)
    case "safe" => Some(Success)
    case "info" => Some(Default)
    case _ => None
  }

  /** The five verdicts and their colours; only suspicion warns, and a chip
      whose colour is success is exactly a safe one. */
  lemma VerdictColors(verdict: string)
    ensures VerdictColor("suspicious") == Some(Warning) && VerdictColor("highly_suspicious") == Some(Warning)
    ensures VerdictColor("malicious") == Some(Error)
    ensures VerdictColor("safe") == Some(Success)
    ensures VerdictColor("info") == Some(Default)
    ensures VerdictColor(verdict) == Some(Success) <==> verdict == "safe"
    ensures VerdictColor(verdict) == Some(Warning) <==> verdict == "suspicious" || verdict == "highly_suspicious"
  {
  }

  /** The chip's colour: primary while its highlight key is highlighted. */
  function ChipColor(verdict: string, highlightKey: Option<string>, highlighted: bool): (r: Option<Color>)
    ensures Truthy(highlightKey) && highlighted ==> r == Some(Primary)
    ensures !(Truthy(highlightKey) && highlighted) ==> r == VerdictColor(verdict)
  {
    if Truthy(highlightKey) && highlighted then Some(Primary) else VerdictColor(verdict)
  }

  /** The chip renders nothing when it is safe and neither safe results are
      shown nor the chip is forced. */
  predicate Hidden(verdict: string, showSafeResults: bool, force: bool)
  {
    verdict == "safe" && !showSafeResults && !force
  }

  /** A safelisted tag hides exactly when safe results are hidden and it is not
      forced; a tag that is not safelisted hides exactly when its own verdict is
      safe and the same holds. */
  lemma HiddenIff(lvl: Option<string>, scoreVerdict: string, safelisted: bool, showSafeResults: bool, force: bool)
    ensures var v := Verdict(lvl, scoreVerdict, safelisted);
      Hidden(v, showSafeResults, force) <==>
        !showSafeResults && !force
        && (safelisted || (Truthy(lvl) && lvl.value == "safe") || (!Truthy(lvl) && scoreVerdict == "safe"))
  {
  }

  // ---------------------------------------------------------------------------
  // Label
  // ---------------------------------------------------------------------------

  /** `"[SHORT_TYPE] value"`, or the bare value without a short type. */
  function ChipLabel(shortType: Option<string>, value: string): (r: string)
    ensures !Truthy(shortType) ==> r == value
    ensures Truthy(shortType) ==> |r| == |shortType.value| + 3 + |value|
  {
    if Truthy(shortType) then "[" + Upper(shortType.value) + "] " + value else value
  }

  /** The label always ends with the value; with a short type it opens with the
      short type upper-cased in brackets. */
  lemma ChipLabelParts(shortType: Option<string>, value: string)
    ensures var r := ChipLabel(shortType, value);
      |value| <= |r| && r[|r| - |value|..] == value
    ensures Truthy(shortType) ==>
      var r := ChipLabel(shortType, value);
      var n := |shortType.value|;
      && r[0] == '[' && r[n + 1] == ']' && r[n + 2] == ' '
      && (forall i :: 0 <= i < n ==> r[i + 1] == UpperChar(shortType.value[i]))
  {
    if Truthy(shortType) {
      var r := ChipLabel(shortType, value);
      var n := |shortType.value|;
      var u := Upper(shortType.value);
      assert r == ("[" + u + "] ") + value;
      assert forall i :: 0 <= i < n ==> r[i + 1] == u[i];
    }
  }

  // ---------------------------------------------------------------------------
  // Routes and requests
  // ---------------------------------------------------------------------------

  const SIGNATURE_PREFIX: string := "file.rule."

  /** The signature page of a `file.rule.*` tag, for users who may view
      signatures: the rule type after the prefix, then the value split at its
      first `.` into source and name. A value without a `.` gives an empty
      source and the whole value as name. */
  const SIGNATURE_PAGE: string := "/manage/signature/"

  function SignaturePath(tagType: string, value: string, canViewSignatures: bool): (r: Option<string>)
    ensures r.Some? <==> StartsWith(tagType, SIGNATURE_PREFIX) && canViewSignatures
    ensures r.Some? ==>
      var dot := IndexOf(value, ".");
      r.value == SIGNATURE_PAGE + SubstringFrom(tagType, |SIGNATURE_PREFIX|) + "/"
                 + SubstringTo(value, dot) + "/" + SubstringFrom(value, dot + 1)
  {
    if StartsWith(tagType, SIGNATURE_PREFIX) && canViewSignatures then
      var dot := IndexOf(value, ".");
      Some(SIGNATURE_PAGE + SubstringFrom(tagType, 10) + "/"
           + SubstringTo(value, dot) + "/" + SubstringFrom(value, dot + 1))
    else None
  }

  /** The parts of the signature path give back the tag: the prefix and the
      rule type make up the type, and source, `.` and name make up a value that
      has a `.`, with no `.` in the source. */
  lemma SignaturePathParts(tagType: string, value: string)
    requires StartsWith(tagType, SIGNATURE_PREFIX)
    ensures SIGNATURE_PREFIX + SubstringFrom(tagType, 10) == tagType
    ensures var dot := IndexOf(value, ".");
      dot != -1 ==>
        && SubstringTo(value, dot) + "." + SubstringFrom(value, dot + 1) == value
        && !Contains(SubstringTo(value, dot), ".")
    ensures IndexOf(value, ".") == -1 ==>
      SubstringTo(value, IndexOf(value, ".")) == "" && SubstringFrom(value, IndexOf(value, ".") + 1) == value
  {
    assert |SIGNATURE_PREFIX| == 10;
    assert tagType[..10] + tagType[10..] == tagType;
    var dot := IndexOf(value, ".");
    if dot != -1 {
      assert value[dot..dot + 1] == ".";
      assert value[..dot] + [value[dot]] + value[dot + 1..] == value;
      var src := value[..dot];
      forall i | 0 <= i
        ensures !OccursAt(src, ".", i)
      {
        if OccursAt(src, ".", i) {
          assert src[i..i + 1] == value[i..i + 1];
          assert OccursAt(value, ".", i);
        }
      }
    }
  }
  /** For a tag `file.rule.<rule type>` whose value is `<source>.<name>`, with
      no `.` in the source, the signature page is that rule type, source and
      name. */
  lemma SignaturePathOf(ruleType: string, source: string, name: string)
    requires '.' !in source
    ensures SignaturePath(SIGNATURE_PREFIX + ruleType, source + "." + name, true)
         == Some(SIGNATURE_PAGE + ruleType + "/" + source + "/" + name)
  {
    var value := source + "." + name;
    RuleTypeAfterPrefix(ruleType);
    FirstDotAfterSource(source, name);
    assert SubstringTo(value, |source|) == source by {
      if |source| > 0 {
        assert value[..|source|] == source;
      }
    }
    assert SubstringFrom(value, |source| + 1) == name by {
      if |name| > 0 {
        assert value[|source| + 1..] == name;
      }
    }
  }

  /** The rule type of a `file.rule.` tag is what follows the prefix. */
  lemma RuleTypeAfterPrefix(ruleType: string)
    ensures StartsWith(SIGNATURE_PREFIX + ruleType, SIGNATURE_PREFIX)
    ensures SubstringFrom(SIGNATURE_PREFIX + ruleType, 10) == ruleType
  {
    var tagType := SIGNATURE_PREFIX + ruleType;
    assert tagType[..|SIGNATURE_PREFIX|] == SIGNATURE_PREFIX;
  }

  /** The first dot of `source.name` is the one after a dot-free source. */
  lemma FirstDotAfterSource(source: string, name: string)
    requires '.' !in source
    ensures IndexOf(source + "." + name, ".") == |source|
  {
    var value := source + "." + name;
    assert OccursAt(value, ".", |source|) by {
      assert value[|source|..|source| + 1] == ".";
    }
    forall i | 0 <= i < |source|
      ensures !OccursAt(value, ".", i)
    {
      assert value[i..i + 1] == [source[i]];
    }
  }

  /** A value without a `.` is the name, under an empty source. */
  lemma SignaturePathWithoutDot(ruleType: string, value: string)
    requires '.' !in value
    ensures SignaturePath(SIGNATURE_PREFIX + ruleType, value, true)
         == Some(SIGNATURE_PAGE + ruleType + "//" + value)
  {
    RuleTypeAfterPrefix(ruleType);
    forall i | 0 <= i < |value|
      ensures !OccursAt(value, ".", i)
    {
      assert value[i..i + 1] == [value[i]];
      assert value[i] in value;
    }
    assert IndexOf(value, ".") == -1;
    assert SIGNATURE_PAGE + ruleType + "/" + "" + "/" + value == SIGNATURE_PAGE + ruleType + "//" + value;
  }


  const RELATED_PREFIX: string := "/search/result?query=result.sections.tags."

  /** The related-result search: the result search page queried on the tag's
      field, then a colon, then the escaped value. */
  function RelatedSearchPath(tagType: string, value: string, escape: string -> string): (r: string)
    ensures StartsWith(r, RELATED_PREFIX)
    ensures |r| == |RELATED_PREFIX| + |tagType| + 1 + |escape(value)|
    ensures r[|RELATED_PREFIX|..|RELATED_PREFIX| + |tagType|] == tagType
    ensures r[|RELATED_PREFIX| + |tagType|] == ':'
    ensures r[|RELATED_PREFIX| + |tagType| + 1..] == escape(value)
  {
    RELATED_PREFIX + tagType + ":" + escape(value)
  }

  /** The query-string pairs of a federated lookup: the classification, then
      the source, each only when given. */
  function LookupPairs(classification: Option<string>, source: Option<string>,
                       encode: string -> string): (r: seq<string>)
    ensures |r| == (if Truthy(classification) then 1 else 0) + (if Truthy(source) then 1 else 0)
  {
    (if Truthy(classification) then ["classification=" + encode(classification.value)] else [])
    + (if Truthy(source) then ["sources=" + encode(source.value)] else [])
  }

  /** The query string of `searchTagExternal`, built as the source appends. */
  function LookupQuery(classification: Option<string>, source: Option<string>,
                       encode: string -> string): string
  {
    var qs := if Truthy(classification) then "classification=" + encode(classification.value) else "";
    if Truthy(source) then
      (if qs != "" then qs + "&" else qs) + "sources=" + encode(source.value)
    else qs
  }

  /** The query string is the given pairs joined by `&`, classification first. */
  lemma LookupQueryIsJoin(classification: Option<string>, source: Option<string>, encode: string -> string)
    ensures LookupQuery(classification, source, encode) == Join(LookupPairs(classification, source, encode), "&")
  {
    var ps := LookupPairs(classification, source, encode);
    if Truthy(classification) && Truthy(source) {
      var c := "classification=" + encode(classification.value);
      assert c != "" by { assert |c| > 0; }
      assert ps == [c, "sources=" + encode(source.value)];
      assert ps[1..] == ["sources=" + encode(source.value)];
    }
  }

  /** `searchTagExternal`: the federated lookup URL, with a `?` only when
      there is a query string. */
  function LookupUrl(tagType: string, value: string, classification: Option<string>,
                     source: Option<string>, encode: string -> string): (r: string)
    ensures var base := "/api/v4/federated_lookup/search/" + tagType + "/" + encode(value) + "/";
      && (!Truthy(classification) && !Truthy(source) ==> r == base)
      && (Truthy(classification) || Truthy(source) ==>
            r == base + "?" + Join(LookupPairs(classification, source, encode), "&"))
  {
    LookupQueryIsJoin(classification, source, encode);
    var base := "/api/v4/federated_lookup/search/" + tagType + "/" + encode(value) + "/";
    var qs := LookupQuery(classification, source, encode);
    assert Truthy(classification) ==> |qs| > 0;
    assert Truthy(source) ==> |qs| > 0;
    if qs != "" then base + "?" + qs else base
  }

  /** A safelist source entry and the body sent to add a tag to the safelist. */
  datatype SafelistSource = SafelistSource(name: string, reason: seq<Option<string>>, kind: string)
  datatype SafelistBody = SafelistBody(tagType: string, tagValue: string, sources: seq<SafelistSource>, kind: string)

  /** `addToSafelist`: the tag, one user source named after the current user
      carrying the entered reason (absent when nothing was entered), type tag. */
  function SafelistRequest(tagType: string, value: string, username: string, reason: Option<string>): (r: SafelistBody)
    ensures r.tagType == tagType && r.tagValue == value && r.kind == "tag"
    ensures |r.sources| == 1
    ensures r.sources[0] == SafelistSource(username, [reason], "user")
  {
    SafelistBody(tagType, value, [SafelistSource(username, [reason], "user")], "tag")
  }

  // ---------------------------------------------------------------------------
  // Context menu
  // ---------------------------------------------------------------------------

  /** The menu position; the menu is open exactly when one is set. */
  type MenuState = Option<(int, int)>

  /** A right click opens the menu just up and left of the cursor. */
  function OpenMenu(clientX: int, clientY: int): (r: MenuState)
    ensures r.Some? && r.value.0 == clientX - 2 && r.value.1 == clientY - 4
  {
    Some((clientX - 2, clientY - 4))
  }

  /** The user's roles and the external-source configuration the menu reads:
      the number of external sources (`None` when the list is absent) and the
      sources configured per tag type. */
  datatype Viewer = Viewer(roles: seq<string>, externalSources: Option<nat>, externalSourceTags: Option<seq<(string, seq<string>)>>)

  /** The sources configured for a tag type, if the type is configured. */
  function SourcesFor(tags: seq<(string, seq<string>)>, tagType: string): (r: Option<seq<string>>)
    ensures r.Some? <==> exists i :: 0 <= i < |tags| && tags[i].0 == tagType
    ensures r.Some? ==> exists i :: 0 <= i < |tags| && tags[i] == (tagType, r.value)
  {
    if |tags| == 0 then None
    else if tags[0].0 == tagType then Some(tags[0].1)
    else SourcesFor(tags[1..], tagType)
  }

  /** The optional entries of the menu (copy and highlight are always there):
      the signature page, the related search, safelisting, and the external
      lookups (one for all sources, then one per configured source). */
  datatype Menu = Menu(gotoSignature: bool, related: bool, safelist: bool, external: Option<seq<string>>)

  /** Whether the viewer has at least one external source configured. */
  predicate HasExternalSources(u: Viewer)
  {
    u.externalSources.Some? && u.externalSources.value > 0
  }

  function MenuFor(tagType: string, u: Viewer): (r: Menu)
    ensures r.gotoSignature <==> SignaturePath(tagType, "", "signature_view" in u.roles).Some?
    ensures r.related <==> "submission_view" in u.roles
    ensures r.safelist <==> "safelist_manage" in u.roles
    ensures r.external.Some? <==>
      && "submission_view" in u.roles
      && HasExternalSources(u)
      && u.externalSourceTags.Some?
      && exists i :: 0 <= i < |u.externalSourceTags.value| && u.externalSourceTags.value[i].0 == tagType
    ensures r.external.Some? ==>
      exists i :: 0 <= i < |u.externalSourceTags.value| && u.externalSourceTags.value[i] == (tagType, r.external.value)
    ensures r.external.Some? ==> r.related
  {
    Menu(
      StartsWith(tagType, SIGNATURE_PREFIX) && "signature_view" in u.roles,
      "submission_view" in u.roles,
      "safelist_manage" in u.roles,
      if "submission_view" in u.roles && HasExternalSources(u) && u.externalSourceTags.Some?
      then SourcesFor(u.externalSourceTags.value, tagType)
      else None)
  }

  /** What the external-lookup position of the menu renders: nothing, the
      text of a falsy number, or the lookup entries for the given sources. */
  datatype Child = NoChild | ZeroText | ExternalEntries(sources: seq<string>)

  /** The external-lookup position as written: a chain of `&&` operands
      renders its first falsy operand, so an empty source list (length 0)
      shows up as the text "0" in the menu. */
  function ExternalChildAsWritten(tagType: string, u: Viewer): (r: Child)
    ensures r.ExternalEntries? ==> MenuFor(tagType, u).external == Some(r.sources)
  {
    if "submission_view" !in u.roles then NoChild
    else if u.externalSources.None? then NoChild
    else if u.externalSources.value == 0 then ZeroText
    else if u.externalSourceTags.None? then NoChild
    else match SourcesFor(u.externalSourceTags.value, tagType)
      case None => NoChild
      case Some(ss) => ExternalEntries(ss)
  }

  /** A viewer who may search submissions but has an empty external-source
      list sees a stray "0" in the menu, whatever the tag. */
  lemma ExternalZeroShown(tagType: string, u: Viewer)
    ensures ExternalChildAsWritten(tagType, u) == ZeroText <==>
      "submission_view" in u.roles && u.externalSources == Some(0)
    ensures ExternalChildAsWritten(tagType, Viewer(["submission_view"], Some(0), None)) == ZeroText
  {
    assert "submission_view" in ["submission_view"];
  }

  /** The external-lookup position as evidently intended: the entries when the
      menu offers them, otherwise nothing. */
  function ExternalChild(tagType: string, u: Viewer): (r: Child)
    ensures r != ZeroText
    ensures r.ExternalEntries? <==> MenuFor(tagType, u).external.Some?
  {
    match MenuFor(tagType, u).external
    case None => NoChild
    case Some(ss) => ExternalEntries(ss)
  }

  /** The corrected rendering agrees with the one as written everywhere except
      where that one shows the stray "0". */
  lemma ExternalChildFixed(tagType: string, u: Viewer)
    ensures ExternalChildAsWritten(tagType, u) != ZeroText ==>
      ExternalChild(tagType, u) == ExternalChildAsWritten(tagType, u)
    ensures ExternalChildAsWritten(tagType, u) == ZeroText ==> ExternalChild(tagType, u) == NoChild
  {
  }
}
