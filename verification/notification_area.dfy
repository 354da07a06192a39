/** The notification area of the top bar: the system message and its edit
    dialog, the feed notifications with their "new" flags, the remembered
    time the area was last opened, and the badge on the bell. Times are
    milliseconds since the epoch; the stored last-open time is the JSON text
    of such a number, and `JSON.parse` is passed in. */
module NotificationArea {
  import opened Common
  import opened Json

  /** A system message; its severity may be missing. */
  datatype SystemMessage = SystemMessage(user: string, title: string, severity: Option<string>, message: string)

  /** A feed item: its publication time and whether it is flagged new. */
  datatype Notification = Notification(published: int, isNew: bool)

  const SEVERITIES: seq<string> := ["error", "warning", "info", "success"]

  // ---------------------------------------------------------------------------
  // The edit dialog
  // ---------------------------------------------------------------------------

  /** `onOpenCreateSystemMessageDialog`: a fresh draft by the current user. */
  function CreateDraft(username: string): (r: SystemMessage)
    ensures r.user == username && r.title == "" && r.message == "" && r.severity == Some("info")
  {
    SystemMessage(username, "", Some("info"), "")
  }

  /** `onOpenEditSystemMessageDialog`: the shown message, signed by the current
      user; without a message the handler reads a property of null and throws. */
  function EditDraft(username: string, current: Option<SystemMessage>): (r: Result<SystemMessage>)
    ensures r.Ok? <==> current.Some?
    ensures r.Ok? ==> r.value == current.value.(user := username)
  {
    if current.None? then Thrown
    else Ok(SystemMessage(username, current.value.title, current.value.severity, current.value.message))
  }

  /** `handleSeverityChange`: only the four severities are accepted, and an
      accepted one replaces the severity alone. */
  function SeverityChange(draft: SystemMessage, value: string): (r: SystemMessage)
    ensures value in SEVERITIES ==> r == draft.(severity := Some(value))
    ensures value !in SEVERITIES ==> r == draft
    ensures r.user == draft.user && r.title == draft.title && r.message == draft.message
  {
    if value in SEVERITIES then draft.(severity := Some(value)) else draft
  }

  /** The dialog's save button is disabled while the message is empty. */
  predicate SaveDisabled(draft: SystemMessage)
  {
    draft.message == ""
  }

  /** A fresh draft cannot be saved until a message is typed, and accepting
      severities from the selector never changes that. */
  lemma FreshDraftNotSavable(username: string, values: seq<string>)
    ensures SaveDisabled(ApplySeverities(CreateDraft(username), values))
    ensures var d := ApplySeverities(CreateDraft(username), values); d.severity.Some? && d.severity.value in SEVERITIES
  {
    SeveritiesKeepMessage(CreateDraft(username), values);
  }

  /** Several severity edits in a row. */
  function ApplySeverities(draft: SystemMessage, values: seq<string>): SystemMessage
    decreases |values|
  {
    if |values| == 0 then draft else ApplySeverities(SeverityChange(draft, values[0]), values[1..])
  }

  /** Severity edits keep the message, and keep the severity one of the four
      once it is. */
  lemma {:induction false} SeveritiesKeepMessage(draft: SystemMessage, values: seq<string>)
    requires draft.severity.Some? && draft.severity.value in SEVERITIES
    ensures ApplySeverities(draft, values).message == draft.message
    ensures ApplySeverities(draft, values).severity.Some?
    ensures ApplySeverities(draft, values).severity.value in SEVERITIES
    decreases |values|
  {
    if |values| > 0 {
      SeveritiesKeepMessage(SeverityChange(draft, values[0]), values[1..]);
    }
  }

  // ---------------------------------------------------------------------------
  // Colours
  // ---------------------------------------------------------------------------

  /** `charAt(0).toUpperCase() + slice(1)`. */
  function Capitalize(s: string): (r: string)
    ensures |r| == |s|
    ensures |s| > 0 ==> r[0] == UpperChar(s[0]) && r[1..] == s[1..]
  {
    if |s| == 0 then "" else [UpperChar(s[0])] + s[1..]
  }

  datatype ColorKind = Fg | Bg
  datatype Tone = ErrorTone | WarningTone | InfoTone | SuccessTone

  /** A colour class of the style sheet: `color`/`bgColor`, then the tone, then
      the variant 1, 2 or 3. */
  datatype ColorClass = ColorClass(kind: ColorKind, tone: Tone, variant: int)

  /** The tone a capitalised severity names in a class key, if any. */
  function ToneOf(capitalized: string): (r: Option<Tone>)
  {
    match capitalized
    case "Error" => Some(ErrorTone)
    case "Warning" => Some(WarningTone)
    case "Info" => Some(InfoTone)
    case "Success" => Some(SuccessTone)
    case _ => None
  }

  /** `getColor`: the class keyed by kind, capitalised severity and variant;
      nothing for a missing message or severity, or a key the sheet lacks. */
  function GetColor(sm: Option<SystemMessage>, kind: ColorKind, variant: int): (r: Option<ColorClass>)
    ensures r.Some? ==> sm.Some? && sm.value.severity.Some? && 1 <= variant <= 3
    ensures r.Some? ==> r.value.kind == kind && r.value.variant == variant
  {
    if sm.None? || sm.value.severity.None? then None
    else
      var tone := ToneOf(Capitalize(sm.value.severity.value));
      if tone.Some? && 1 <= variant <= 3 then Some(ColorClass(kind, tone.value, variant)) else None
  }

  /** Each of the four severities picks its own tone, whatever the variant. */
  lemma SeverityTones(sm: SystemMessage, kind: ColorKind, variant: int)
    requires 1 <= variant <= 3
    ensures sm.severity == Some("error") ==> GetColor(Some(sm), kind, variant) == Some(ColorClass(kind, ErrorTone, variant))
    ensures sm.severity == Some("warning") ==> GetColor(Some(sm), kind, variant) == Some(ColorClass(kind, WarningTone, variant))
    ensures sm.severity == Some("info") ==> GetColor(Some(sm), kind, variant) == Some(ColorClass(kind, InfoTone, variant))
    ensures sm.severity == Some("success") ==> GetColor(Some(sm), kind, variant) == Some(ColorClass(kind, SuccessTone, variant))
  {
    assert Capitalize("error") == "Error";
    assert Capitalize("warning") == "Warning";
    assert Capitalize("info") == "Info";
    assert Capitalize("success") == "Success";
  }

  /** The four severity names the sheet keys its classes by. */
  const SEVERITY_KEYS: seq<string> := ["Error", "Warning", "Info", "Success"]

  /** A message is coloured exactly when it has a severity whose capitalised
      form is one of the sheet's four keys and the variant is one the sheet
      defines; each key picks its own tone. */
  lemma GetColorIff(sm: Option<SystemMessage>, kind: ColorKind, variant: int)
    ensures GetColor(sm, kind, variant).Some? <==>
      && sm.Some? && sm.value.severity.Some?
      && Capitalize(sm.value.severity.value) in SEVERITY_KEYS
      && 1 <= variant <= 3
    ensures GetColor(sm, kind, variant).Some? ==>
      var key := Capitalize(sm.value.severity.value);
      var tone := GetColor(sm, kind, variant).value.tone;
      && (key == "Error" <==> tone == ErrorTone)
      && (key == "Warning" <==> tone == WarningTone)
      && (key == "Info" <==> tone == InfoTone)
      && (key == "Success" <==> tone == SuccessTone)
  {
  }

  /** A severity the sheet does not know gives no class. */
  lemma UnknownSeverityUncoloured(sm: SystemMessage, kind: ColorKind, variant: int)
    requires sm.severity == Some("") || sm.severity == Some("critical")
    ensures GetColor(Some(sm), kind, variant).None?
  {
    assert Capitalize("critical") == "Critical";
  }

  // ---------------------------------------------------------------------------
  // Last-open time and the new flags
  // ---------------------------------------------------------------------------

  /** `handleLastTimeOpen`: the stored time when the storage holds the JSON of
      a number; otherwise the previous time. Parsing text that is not JSON
      throws. */
  function LoadLastOpen(stored: Option<string>, parse: string -> Result<Json>, previous: int): (r: Result<int>)
    ensures stored.None? || stored == Some("") ==> r == Ok(previous)
    ensures stored.Some? && stored.value != "" && parse(stored.value).Thrown? ==> r.Thrown?
    ensures stored.Some? && stored.value != "" && parse(stored.value).Ok? && !parse(stored.value).value.JNum? ==> r == Ok(previous)
  {
    if stored.None? || stored.value == "" then Ok(previous)
    else match parse(stored.value)
      case Thrown => Thrown
      case Ok(JNum(n)) => Ok(n)
      case Ok(_) => Ok(previous)
  }

  /** The flags after closing: new exactly when published after the last open. */
  function MarkNew(ns: seq<Notification>, lastOpen: int): (r: seq<Notification>)
    ensures |r| == |ns|
    ensures forall i :: 0 <= i < |ns| ==> r[i] == ns[i].(isNew := ns[i].published > lastOpen)
  {
    if |ns| == 0 then [] else [ns[0].(isNew := ns[0].published > lastOpen)] + MarkNew(ns[1..], lastOpen)
  }

  /** `notifications.filter(n => n._isNew).length`. */
  function CountNew(ns: seq<Notification>): (r: nat)
    ensures r <= |ns|
    ensures r == 0 <==> forall i :: 0 <= i < |ns| ==> !ns[i].isNew
  {
    if |ns| == 0 then 0 else (if ns[0].isNew then 1 else 0) + CountNew(ns[1..])
  }

  /** The area's state: the shown system message, whether it was read, the
      drawer, the last-open time, the feed, and the persisted last-open time. */
  datatype State = State(systemMessage: Option<SystemMessage>, read: bool, drawer: bool,
                         lastOpen: int, notifications: seq<Notification>, persisted: Option<int>)

  /** The state on mount: an existing message starts unread. */
  function Initial(systemMessage: Option<SystemMessage>, lastOpen: int, feed: seq<Notification>): (r: State)
    ensures r.read <==> systemMessage.None?
    ensures !r.drawer
  {
    State(systemMessage, systemMessage.None?, false, lastOpen, feed, None)
  }

  /** `onOpenNotificationArea`: the drawer opens and the last-open time becomes now. */
  function Open(s: State, now: int): (r: State)
    ensures r == s.(drawer := true, lastOpen := now)
  {
    s.(drawer := true, lastOpen := now)
  }

  /** `onCloseNotificationArea`: the drawer closes, the message counts as read,
      the last-open time is persisted and every notification's flag is
      recomputed against it. */
  function Close(s: State): (r: State)
    ensures !r.drawer && r.read && r.persisted == Some(s.lastOpen)
    ensures r.systemMessage == s.systemMessage && r.lastOpen == s.lastOpen
    ensures |r.notifications| == |s.notifications|
    ensures forall i :: 0 <= i < |s.notifications| ==>
      r.notifications[i].published == s.notifications[i].published
      && (r.notifications[i].isNew <==> s.notifications[i].published > s.lastOpen)
  {
    s.(drawer := false, read := true, persisted := Some(s.lastOpen),
       notifications := MarkNew(s.notifications, s.lastOpen))
  }

  /** The bell's badge is hidden when the message is read and nothing is new. */
  predicate BadgeHidden(s: State)
  {
    s.read && CountNew(s.notifications) == 0
  }

  /** Opening the area at `now` and closing it hides the badge exactly when
      nothing was published after `now`. */
  lemma OpenCloseBadge(s: State, now: int)
    ensures BadgeHidden(Close(Open(s, now))) <==>
      forall i :: 0 <= i < |s.notifications| ==> s.notifications[i].published <= now
  {
    var t := Close(Open(s, now));
    if !BadgeHidden(t) {
      var i :| 0 <= i < |t.notifications| && t.notifications[i].isNew;
      assert s.notifications[i].published > now;
    }
  }

  /** The persisted time reads back on the next load, given that the JSON of a
      number parses to that number. */
  lemma CloseThenLoad(s: State, parse: string -> Result<Json>, previous: int)
    requires parse(IntToString(s.lastOpen)) == Ok(JNum(s.lastOpen))
    ensures LoadLastOpen(Some(IntToString(Close(s).persisted.value)), parse, previous) == Ok(s.lastOpen)
  {
    assert IntToString(s.lastOpen) != "" by {
      assert |IntToString(s.lastOpen)| > 0;
    }
  }

  /** What the badge shows: a severity symbol while a message exists,
      otherwise the number of new notifications. */
  datatype Badge = Symbol(text: string) | Count(n: nat)

  function BadgeContent(s: State): (r: Badge)
    ensures s.systemMessage.None? ==> r == Count(CountNew(s.notifications))
    ensures s.systemMessage.Some? ==> r.Symbol?
  {
    match s.systemMessage
    case None => Count(CountNew(s.notifications))
    case Some(sm) => Symbol(SeveritySymbol(sm.severity))
  }

  function SeveritySymbol(severity: Option<string>): (r: string)
    ensures |r| <= 1
  {
    match severity
    case Some("error") => "!"
    case Some("warning") => "!"
    case Some("info") => "i"
    case Some("success") => "✔"
    case _ => ""
  }

  /** Errors and warnings alarm, info informs, success ticks, and any other
      severity shows an empty badge. */
  lemma SeveritySymbols(sev: string)
    ensures SeveritySymbol(Some(sev)) == "!" <==> sev == "error" || sev == "warning"
    ensures SeveritySymbol(Some(sev)) == "i" <==> sev == "info"
    ensures SeveritySymbol(Some(sev)) == "✔" <==> sev == "success"
    ensures SeveritySymbol(Some(sev)) == "" <==> sev !in SEVERITIES
    ensures SeveritySymbol(None) == ""
  {
  }

  // ---------------------------------------------------------------------------
  // Saving and deleting the message
  // ---------------------------------------------------------------------------

  /** A successful save shows the draft as the system message. */
  function SaveSucceeded(s: State, draft: SystemMessage): (r: State)
    ensures r.systemMessage == Some(draft)
    ensures r.(systemMessage := s.systemMessage) == s
  {
    s.(systemMessage := Some(draft))
  }

  /** A successful delete removes the system message. */
  function DeleteSucceeded(s: State): (r: State)
    ensures r.systemMessage.None?
    ensures r.(systemMessage := s.systemMessage) == s
  {
    s.(systemMessage := None)
  }

  // ---------------------------------------------------------------------------
  // The listed notifications
  // ---------------------------------------------------------------------------

  const YEAR_MS: int := 365 * 24 * 60 * 60 * 1000

  /** The notifications listed at time `now`: those published within the last
      365 days, in feed order. */
  function Recent(ns: seq<Notification>, now: int): (r: seq<Notification>)
    ensures |r| <= |ns|
    ensures forall n :: n in r <==> n in ns && n.published > now - YEAR_MS
  {
    if |ns| == 0 then []
    else (if ns[0].published > now - YEAR_MS then [ns[0]] else []) + Recent(ns[1..], now)
  }

  /** The filter works notification by notification: a single one stays
      exactly when it is under a year old, and filtering a concatenation
      filters each part in turn, so the feed keeps its order. */
  lemma {:induction false} RecentConcat(a: seq<Notification>, b: seq<Notification>, now: int)
    ensures Recent(a + b, now) == Recent(a, now) + Recent(b, now)
    ensures forall n :: Recent([n], now) == (if n.published > now - YEAR_MS then [n] else [])
  {
    if |a| == 0 {
      assert a + b == b;
    } else {
      assert (a + b)[1..] == a[1..] + b;
      RecentConcat(a[1..], b, now);
    }
    forall n
      ensures Recent([n], now) == (if n.published > now - YEAR_MS then [n] else [])
    {
      assert [n][1..] == [];
    }
  }

  /** The list keeps feed order: it is the feed with the old items dropped,
      so a feed of recent items is listed whole. */
  lemma {:induction false} RecentOfRecent(ns: seq<Notification>, now: int)
    requires forall i :: 0 <= i < |ns| ==> ns[i].published > now - YEAR_MS
    ensures Recent(ns, now) == ns
  {
    if |ns| > 0 {
      RecentOfRecent(ns[1..], now);
      assert [ns[0]] + ns[1..] == ns;
    }
  }
}
