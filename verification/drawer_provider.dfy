/** The application-wide drawer provider with a close prompt: while a form
    in the drawer has unsaved changes (the prompt flag), a request to replace or
    close the drawer is parked as the pending drawer and announced with the
    `GlobalDrawerClose.Prevented` event; the form answers with
    `GlobalDrawerClose.Proceed`, which installs whatever is pending.

    The drawer content is any value of type `T`; `None` is `null`. The effect
    that mirrors `globalDrawer !== null` into the opened flag is run after every
    transition (`Sync`). */
module GlobalDrawer {
  import opened Common
  import opened Screen

  datatype State<T> = State(drawer: Option<T>, pending: Option<T>, prompt: bool, isOpen: bool)

  /** The window event a transition dispatches. */
  datatype Event = Prevented

  datatype Step<T> = Step(state: State<T>, event: Option<Event>)

  datatype Action<T> =
    | SetDrawer(content: Option<T>)
    | Proceed
    | CloseGlobal
    | CloseTemporary
    | SetPrompt(on: bool)

  function Initial<T>(): State<T>
  {
    State(None, None, false, false)
  }

  /** The opened flag agrees with the drawer. */
  predicate Synced<T>(s: State<T>)
  {
    s.isOpen == s.drawer.Some?
  }

  /** The effect on `globalDrawer`: `setGlobalDrawerOpened(globalDrawer !== null)`. */
  function Sync<T>(s: State<T>): (r: State<T>)
    ensures Synced(r)
    ensures r.(isOpen := s.isOpen) == s
  {
    s.(isOpen := s.drawer.Some?)
  }

  /** `setGlobalDrawer(newDrawer)`. */
  function SetGlobalDrawer<T>(s: State<T>, d: Option<T>): (r: Step<T>)
    ensures r.state.prompt == s.prompt
    ensures s.prompt ==> r.state.drawer == s.drawer && r.state.pending == d && r.event == Some(Prevented)
    ensures !s.prompt ==> r.state.drawer == d && r.state.pending.None? && r.event.None?
  {
    if s.prompt then Step(s.(pending := d), Some(Prevented))
    else Step(s.(pending := None, drawer := d), None)
  }

  /** The `GlobalDrawerClose.Proceed` listener: the pending drawer, which may be
      `null`, becomes current. */
  function ProceedDrawer<T>(s: State<T>): (r: State<T>)
    ensures r.drawer == s.pending && r.pending.None?
    ensures r.prompt == s.prompt
  {
    s.(pending := None, drawer := s.pending)
  }

  /** `closeGlobalDrawer`: `setGlobalDrawer(null)`. */
  function CloseGlobalDrawer<T>(s: State<T>): (r: Step<T>)
    ensures r == SetGlobalDrawer(s, None)
  {
    SetGlobalDrawer(s, None)
  }

  /** `closeTemporaryDrawer`: the drawer is persistent on extra-large screens. */
  function CloseTemporaryDrawer<T>(s: State<T>, b: Breakpoint): (r: Step<T>)
    ensures b == XL ==> r == Step(s, None)
    ensures b != XL ==> r == SetGlobalDrawer(s, None)
  {
    if b == XL then Step(s, None) else SetGlobalDrawer(s, None)
  }

  /** One transition on screen `b`, followed by the opened-flag effect. */
  function Apply<T>(s: State<T>, a: Action<T>, b: Breakpoint): (r: Step<T>)
    ensures Synced(r.state)
    ensures r.event.Some? ==> s.prompt && (a.SetDrawer? || a.CloseGlobal? || a.CloseTemporary?)
  {
    var step :=
      match a
      case SetDrawer(d) => SetGlobalDrawer(s, d)
      case Proceed => Step(ProceedDrawer(s), None)
      case CloseGlobal => CloseGlobalDrawer(s)
      case CloseTemporary => CloseTemporaryDrawer(s, b)
      case SetPrompt(on) => Step(s.(prompt := on), None);
    Step(Sync(step.state), step.event)
  }

  /** The drawer's style width in a state. */
  function Width<T>(s: State<T>, b: Breakpoint): Width
  {
    StyleWidth(b, s.drawer.Some?)
  }

  /** While the prompt is on, only the proceed event changes the drawer. */
  lemma PromptFreezesDrawer<T>(s: State<T>, a: Action<T>, b: Breakpoint)
    requires s.prompt && !a.Proceed?
    ensures Apply(s, a, b).state.drawer == s.drawer
  {
  }

  /** A change parked by the prompt lands once the form proceeds: the drawer is
      then what it would have been with the prompt off. */
  lemma DeferThenProceed<T>(s: State<T>, d: Option<T>, b: Breakpoint)
    requires s.prompt
    ensures var parked := Apply(s, SetDrawer(d), b).state;
      && Apply(parked, Proceed, b).state.drawer == d
      && Apply(parked, Proceed, b).state ==
           Apply(s.(prompt := false), SetDrawer(d), b).state.(prompt := true)
  {
  }

  /** Proceeding when nothing is pending empties the drawer. */
  lemma ProceedWithoutPendingCloses<T>(s: State<T>, b: Breakpoint)
    requires s.pending.None?
    ensures Apply(s, Proceed, b).state.drawer.None?
    ensures !Apply(s, Proceed, b).state.isOpen
  {
  }

  /** After any transition the drawer is open exactly when it holds something,
      and it takes room exactly then. */
  lemma OpenedTracksDrawer<T>(s: State<T>, a: Action<T>, b: Breakpoint)
    ensures var r := Apply(s, a, b).state;
      && (r.isOpen <==> r.drawer.Some?)
      && (Width(r, b).Zero? <==> !r.isOpen)
  {
  }

  /** With the prompt off, closing on an extra-large screen keeps only a persistent
      drawer open; on any other screen both closes empty the drawer. */
  lemma CloseWithoutPrompt<T>(s: State<T>, b: Breakpoint)
    requires !s.prompt
    ensures Apply(s, CloseGlobal, b).state.drawer.None?
    ensures Apply(s, CloseTemporary, b).state.drawer == if b == XL then s.drawer else None
  {
  }
}
