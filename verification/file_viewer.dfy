/** The file viewer page: which of its four tabs shows for the route's tab
    parameter, when the route is rewritten, the navigation a tab click causes,
    the data request a tab makes, and how the text pane is prepared (optional
    JSON pretty-printing and the editor language for the file type). */
module FileViewer {
  import opened Common

  datatype Tab = Ascii | Strings | Hex | Image

  /** `TAB_OPTIONS`, in order. */
  const TAB_OPTIONS: seq<Tab> := [Ascii, Strings, Hex, Image]

  const DEFAULT_TAB: Tab := Ascii

  function TabName(t: Tab): (r: string)
  {
    match t
    case Ascii => "ascii"
    case Strings => "strings"
    case Hex => "hex"
    case Image => "image"
  }

  /** `TAB_OPTIONS.includes(s)`: the tab a route segment names, if any. */
  function ParseTab(s: string): (r: Option<Tab>)
    ensures r.Some? ==> TabName(r.value) == s
  {
    match s
    case "ascii" => Some(Ascii)
    case "strings" => Some(Strings)
    case "hex" => Some(Hex)
    case "image" => Some(Image)
    case _ => None
  }

  /** Every tab is named by exactly its own segment. */
  lemma ParseTabName(t: Tab)
    ensures ParseTab(TabName(t)) == Some(t)
  {
  }

  /** The tab shown for the route's tab segment (`None` when the route has
      none): the default when the segment is missing or not a tab, or names
      the image tab while images are not allowed for the file. */
  function ResolveTab(paramTab: Option<string>, imageAllowed: bool): (r: Tab)
  {
    if paramTab.None? || ParseTab(paramTab.value).None?
       || (!imageAllowed && paramTab.value == "image")
    then DEFAULT_TAB
    else ParseTab(paramTab.value).value
  }

  /** The resolved tab is one of the options; it is the route's tab exactly
      when that names a tab that may show, and the default otherwise. */
  lemma ResolveTabSpec(paramTab: Option<string>, imageAllowed: bool)
    ensures ResolveTab(paramTab, imageAllowed) in TAB_OPTIONS
    ensures var ok := paramTab.Some? && ParseTab(paramTab.value).Some?
                      && (imageAllowed || ParseTab(paramTab.value) != Some(Image));
      && (ok ==> TabName(ResolveTab(paramTab, imageAllowed)) == paramTab.value)
      && (!ok ==> ResolveTab(paramTab, imageAllowed) == Ascii)
  {
  }

  /** The viewer route for a tab, keeping the location's search and hash. */
  function ViewerPath(id: string, tab: string, search: string, hash: string): string
  {
    "/file/viewer/" + id + "/" + tab + "/" + search + hash
  }

  /** `handleChangeTab`: the path navigated to, if any. */
  function ChangeTab(current: Tab, newTab: string, id: string, search: string, hash: string): (r: Option<string>)
    ensures r.Some? <==> ParseTab(newTab).Some? && ParseTab(newTab) != Some(current)
    ensures r.Some? ==> r.value == ViewerPath(id, newTab, search, hash)
  {
    if TabName(current) != newTab && ParseTab(newTab).Some?
    then Some(ViewerPath(id, newTab, search, hash))
    else None
  }

  /** The rewrite effect: the path navigated to when the route's segment is
      not the resolved tab. */
  function Redirect(paramTab: Option<string>, tab: Tab, id: string, search: string, hash: string): (r: Option<string>)
    ensures r.Some? <==> paramTab != Some(TabName(tab))
    ensures r.Some? ==> r.value == ViewerPath(id, TabName(tab), search, hash)
  {
    if paramTab != Some(TabName(tab)) then Some(ViewerPath(id, TabName(tab), search, hash)) else None
  }

  /** The route is left alone exactly when its segment names a tab that may
      show; after the rewrite, the new segment resolves to the same tab and is
      left alone. */
  lemma RedirectSettles(paramTab: Option<string>, imageAllowed: bool, id: string, search: string, hash: string)
    ensures var tab := ResolveTab(paramTab, imageAllowed);
      Redirect(paramTab, tab, id, search, hash).None? <==>
        paramTab.Some? && ParseTab(paramTab.value).Some?
        && (imageAllowed || paramTab.value != "image")
    ensures var tab := ResolveTab(paramTab, imageAllowed);
      var next := Some(TabName(tab));
      ResolveTab(next, imageAllowed) == tab && Redirect(next, tab, id, search, hash).None?
  {
    var tab := ResolveTab(paramTab, imageAllowed);
    ParseTabName(tab);
    if paramTab.Some? && ParseTab(paramTab.value).Some? {
      ParseTabName(ParseTab(paramTab.value).value);
    }
  }

  // ---------------------------------------------------------------------------
  // Data requests
  // ---------------------------------------------------------------------------

  /** What the page has already fetched for each tab. */
  datatype Loaded = Loaded(ascii: bool, strings: bool, hex: bool, image: bool)

  function IsLoaded(l: Loaded, t: Tab): bool
  {
    match t
    case Ascii => l.ascii
    case Strings => l.strings
    case Hex => l.hex
    case Image => l.image
  }

  function Endpoint(t: Tab, sha256: string): string
  {
    match t
    case Ascii => "/api/v4/file/ascii/" + sha256 + "/"
    case Strings => "/api/v4/file/strings/" + sha256 + "/"
    case Hex => "/api/v4/file/hex/" + sha256 + "/?bytes_only=true"
    case Image => "/api/v4/file/image/" + sha256 + "/"
  }

  /** The request the tab effect makes: one for the shown tab, only once the
      file information has named the file and only when that tab's data is not
      loaded yet. An empty `sha256` stands for none. */
  function TabRequest(sha256: string, tab: Tab, loaded: Loaded): (r: Option<string>)
    ensures r.Some? <==> sha256 != "" && !IsLoaded(loaded, tab)
    ensures r.Some? ==> r.value == Endpoint(tab, sha256)
  {
    if sha256 == "" then None
    else if tab == Ascii && !loaded.ascii then Some(Endpoint(Ascii, sha256))
    else if tab == Hex && !loaded.hex then Some(Endpoint(Hex, sha256))
    else if tab == Strings && !loaded.strings then Some(Endpoint(Strings, sha256))
    else if tab == Image && !loaded.image then Some(Endpoint(Image, sha256))
    else None
  }

  // ---------------------------------------------------------------------------
  // The text pane
  // ---------------------------------------------------------------------------

  /** What a viewer pane shows: its data, the error, or a progress bar. */
  datatype Pane = Content(data: string) | ErrorAlert(error: string) | Loading

  function PaneFor(data: Option<string>, error: Option<string>): (r: Pane)
    ensures data.Some? ==> r == Content(data.value)
    ensures data.None? && error.Some? && error.value != "" ==> r == ErrorAlert(error.value)
    ensures r.Loading? <==> data.None? && (error.None? || error.value == "")
  {
    if data.Some? then Content(data.value)
    else if error.Some? && error.value != "" then ErrorAlert(error.value)
    else Loading
  }

  /** `beautifyJSON`: `pretty` is the four-space re-serialisation of the
      parsed input, `None` when parsing throws. */
  function Beautify(beautify: bool, input: string, pretty: Option<string>): (r: string)
    ensures !beautify || pretty.None? ==> r == input
    ensures beautify && pretty.Some? ==> r == pretty.value
  {
    if !beautify then input
    else if pretty.Some? then pretty.value
    else input
  }

  /** `languageSelector`: file type to editor language. */
  const LANGUAGES: map<string, string> := map[
    "text/json" := "json", "text/jsons" := "json",
    "code/vbe" := "vb", "code/vbs" := "vb", "code/wsf" := "xml",
    "code/batch" := "bat", "code/ps1" := "powershell",
    "text/ini" := "ini", "text/autorun" := "ini",
    "code/java" := "java", "code/python" := "python", "code/php" := "php",
    "code/shell" := "shell", "code/xml" := "xml", "code/yaml" := "yaml",
    "code/javascript" := "javascript", "code/jscript" := "javascript",
    "code/typescript" := "typescript", "code/xfa" := "xml",
    "code/html" := "html", "code/hta" := "html", "code/html/component" := "html",
    "code/csharp" := "csharp", "code/jsp" := "java",
    "code/c" := "cpp", "code/h" := "cpp", "code/clickonce" := "xml",
    "code/css" := "css", "code/markdown" := "markdown", "code/sql" := "sql",
    "code/go" := "go", "code/ruby" := "ruby", "code/perl" := "perl",
    "code/rust" := "rust", "code/lisp" := "lisp"
  ]
  /** `languageSelector[type]`; an unlisted type gives no language. */
  function LanguageOf(fileType: string): (r: Option<string>)
    ensures r.Some? <==> fileType in LANGUAGES
    ensures r.Some? ==> r.value == LANGUAGES[fileType]
  {
    if fileType in LANGUAGES then Some(LANGUAGES[fileType]) else None
  }

  /** C sources and headers open as C++. */
  lemma CLanguages()
    ensures LanguageOf("code/c") == Some("cpp")
    ensures LanguageOf("code/h") == Some("cpp")
  {
  }

  /** JSON opens as JSON. */
  lemma JsonLanguage()
    ensures LanguageOf("text/json") == Some("json")
  {
  }

  /** A type the selector does not list gets no language. */
  lemma UnlistedLanguage()
    ensures LanguageOf("unknown") == None
  {
  }
}
