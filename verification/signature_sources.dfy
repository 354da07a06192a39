/** The signature-source management page: the form's initial source built by
    spreading the defaults and the edited source, when the save button is
    enabled, the save and delete requests, what happens after a save, and who
    may see the page. A source is a JavaScript object, modelled as a map from
    field names to values so that the object spread is map union. */
module SignatureSources {
  import opened Common

  /** A field value: text, a flag, the list of extra headers, or null. */
  datatype Value = Str(s: string) | Bool(b: bool) | Headers(items: seq<(string, string)>) | Null

  type Source = map<string, Value>

  /** JavaScript truthiness of a field value. */
  predicate Truthy(v: Value)
  {
    match v
    case Str(s) => s != ""
    case Bool(b) => b
    case Headers(_) => true
    case Null => false
  }

  /** `source[key]`, `undefined` (here `Null`) when the field is missing. */
  function Field(source: Source, key: string): (r: Value)
    ensures key !in source ==> r == Null
    ensures key in source ==> r == source[key]
  {
    if key in source then source[key] else Null
  }

  const DEFAULT_SOURCE: Source := map[
    "ca_cert" := Str(""),
    "default_classification" := Str(""),
    "headers" := Headers([]),
    "name" := Str(""),
    "password" := Str(""),
    "pattern" := Str(""),
    "private_key" := Str(""),
    "proxy" := Str(""),
    "ssl_ignore_errors" := Bool(false),
    "uri" := Str(""),
    "username" := Str(""),
    "git_branch" := Str("")]

  /** `{ ...DEFAULT_SOURCE, default_classification: UNRESTRICTED, ...base }`,
      or the same without `base` when there is none (adding a source). */
  function InitialSource(base: Option<Source>, unrestricted: string): (r: Source)
    ensures forall k :: k in r <==> k in DEFAULT_SOURCE || (base.Some? && k in base.value)
    ensures base.Some? ==> forall k :: k in base.value ==> r[k] == base.value[k]
    ensures base.None? || "default_classification" !in base.value ==>
      r["default_classification"] == Str(unrestricted)
    ensures forall k :: k in DEFAULT_SOURCE && k != "default_classification" && (base.None? || k !in base.value) ==>
      r[k] == DEFAULT_SOURCE[k]
  {
    var defaults := DEFAULT_SOURCE["default_classification" := Str(unrestricted)];
    if base.Some? then defaults + base.value else defaults
  }

  /** A new source starts with an empty name and address, no headers, SSL
      checked, and the unrestricted classification. */
  lemma NewSource(unrestricted: string)
    ensures Field(InitialSource(None, unrestricted), "name") == Str("")
    ensures Field(InitialSource(None, unrestricted), "uri") == Str("")
    ensures Field(InitialSource(None, unrestricted), "headers") == Headers([])
    ensures Field(InitialSource(None, unrestricted), "ssl_ignore_errors") == Bool(false)
    ensures Field(InitialSource(None, unrestricted), "default_classification") == Str(unrestricted)
  {
    assert "name" in DEFAULT_SOURCE && "uri" in DEFAULT_SOURCE && "headers" in DEFAULT_SOURCE;
    assert "ssl_ignore_errors" in DEFAULT_SOURCE;
  }

  /** The save button is enabled when the source has a name and an address,
      the form was modified, and no save is in flight. */
  predicate SaveEnabled(source: Source, modified: bool, saving: bool)
  {
    Truthy(Field(source, "name")) && Truthy(Field(source, "uri")) && modified && !saving
  }

  /** A source being added cannot be saved before its name and address are
      typed; an edited source with a name and address can be once modified. */
  lemma SaveStates(base: Source, unrestricted: string, modified: bool, saving: bool)
    ensures !SaveEnabled(InitialSource(None, unrestricted), modified, saving)
    ensures Field(base, "name").Str? && Field(base, "name").s != "" && Field(base, "uri").Str? && Field(base, "uri").s != "" ==>
      (SaveEnabled(InitialSource(Some(base), unrestricted), modified, saving) <==> modified && !saving)
  {
    NewSource(unrestricted);
  }

  /** An API request: verb and URL. */
  datatype Request = Request(verb: string, url: string)

  /** The address of one source of a service; `encode` is
      `encodeURIComponent`, applied to the name field. */
  function SourceUrl(service: string, source: Source, encode: Value -> string): (r: string)
    ensures StartsWith(r, "/api/v4/signature/sources/" + service + "/")
    ensures var n := |"/api/v4/signature/sources/" + service + "/"|;
      && |r| == n + |encode(Field(source, "name"))| + 1
      && r[n..|r| - 1] == encode(Field(source, "name"))
      && r[|r| - 1] == '/'
  {
    var prefix := "/api/v4/signature/sources/" + service + "/";
    var r := prefix + encode(Field(source, "name")) + "/";
    assert r[..|prefix|] == prefix;
    r
  }

  /** `saveChanges`: an edit POSTs to the source's own address, an addition
      PUTs to the service's address. The body is the whole source. */
  function SaveRequest(service: string, base: Option<Source>, source: Source, encode: Value -> string): (r: Request)
    ensures r.verb == "POST" <==> base.Some?
    ensures r.verb == "PUT" <==> base.None?
    ensures base.Some? ==> r.url == SourceUrl(service, source, encode)
    ensures base.None? ==> r.url == "/api/v4/signature/sources/" + service + "/"
  {
    if base.Some? then Request("POST", SourceUrl(service, source, encode))
    else Request("PUT", "/api/v4/signature/sources/" + service + "/")
  }

  /** The form after a successful save: no longer modified, and the drawer
      closed after an addition, or after an edit on a screen narrower than
      extra-large. */
  datatype AfterSave = AfterSave(modified: bool, closeDrawer: bool)

  function SaveSucceeded(base: Option<Source>, isXL: bool): (r: AfterSave)
    ensures !r.modified
    ensures r.closeDrawer <==> base.None? || !isXL
  {
    AfterSave(false, base.None? || !isXL)
  }

  /** An edit saved on an extra-large screen stays open, and cannot be saved
      again until modified. */
  lemma EditStaysOpenOnXL(base: Source, source: Source, saving: bool)
    ensures !SaveSucceeded(Some(base), true).closeDrawer
    ensures !SaveEnabled(source, SaveSucceeded(Some(base), true).modified, saving)
  {
  }

  /** What confirming a delete does, in order. */
  datatype Effect = CloseDrawer | Call(request: Request)

  /** `executeDeleteSource`: the drawer closes first, then the DELETE is sent
      to the source's address. */
  function DeleteEffects(service: string, source: Source, encode: Value -> string): (r: seq<Effect>)
    ensures |r| == 2 && r[0] == CloseDrawer
    ensures r[1].Call? && r[1].request.verb == "DELETE"
  {
    [CloseDrawer, Call(Request("DELETE", SourceUrl(service, source, encode)))]
  }

  /** A delete targets the address an edit of the same source saves to. */
  lemma DeleteTargetsEditedSource(service: string, base: Source, source: Source, encode: Value -> string)
    ensures DeleteEffects(service, source, encode)[1].request.url == SaveRequest(service, Some(base), source, encode).url
  {
  }

  /** `array.indexOf(x)` on a list of strings. */
  function IndexIn(xs: seq<string>, x: string): (r: int)
    ensures r == -1 <==> x !in xs
    ensures r != -1 ==> 0 <= r < |xs| && xs[r] == x && forall i :: 0 <= i < r ==> xs[i] != x
  {
    if |xs| == 0 then -1
    else if xs[0] == x then 0
    else
      var k := IndexIn(xs[1..], x);
      if k == -1 then -1 else k + 1
  }

  /** Administrators and signature managers may manage sources. */
  predicate CanManage(isAdmin: bool, roles: seq<string>)
  {
    isAdmin || IndexIn(roles, "signature_manager") != -1
  }

  /** What the page shows: the sources, or a redirect to the forbidden page. */
  datatype Page = SourceList | Forbidden

  function PageFor(isAdmin: bool, roles: seq<string>): (r: Page)
    ensures r == SourceList <==> isAdmin || "signature_manager" in roles
  {
    if CanManage(isAdmin, roles) then SourceList else Forbidden
  }

  /** `reload`: the sources are fetched only for a user who may manage them. */
  function ReloadRequest(isAdmin: bool, roles: seq<string>): (r: Option<Request>)
    ensures r.Some? <==> isAdmin || "signature_manager" in roles
    ensures r.Some? ==> r.value == Request("GET", "/api/v4/signature/sources/")
  {
    if CanManage(isAdmin, roles) then Some(Request("GET", "/api/v4/signature/sources/")) else None
  }

  /** Sources are fetched exactly when the page shows them. */
  lemma LoadedIffShown(isAdmin: bool, roles: seq<string>)
    ensures ReloadRequest(isAdmin, roles).Some? <==> PageFor(isAdmin, roles) == SourceList
  {
  }
}
