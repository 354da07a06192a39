/** The older drawer provider, which asks for confirmation itself: while the
    prompt flag is on, a close request opens a confirmation dialog instead of
    closing; accepting it closes the drawer, cancelling it only closes the
    dialog. Replacing the drawer never consults the prompt. */
module ConfirmDrawer {
  import opened Common
  import opened Screen

  datatype State<T> = State(drawer: Option<T>, prompt: bool, confirming: bool)

  datatype Action<T> =
    | SetDrawer(content: Option<T>)
    | CloseGlobal
    | CloseTemporary
    | Accept
    | Cancel
    | SetPrompt(on: bool)

  /** `closeGlobalDrawer`. */
  function CloseGlobalDrawer<T>(s: State<T>): (r: State<T>)
    ensures s.prompt ==> r == s.(confirming := true)
    ensures !s.prompt ==> r == s.(drawer := None)
  {
    if s.prompt then s.(confirming := true) else s.(drawer := None)
  }

  /** `closeTemporaryDrawer`: the drawer is persistent on extra-large screens. */
  function CloseTemporaryDrawer<T>(s: State<T>, b: Breakpoint): (r: State<T>)
    ensures s.prompt ==> r == s.(confirming := true)
    ensures !s.prompt ==> r == if b == XL then s else s.(drawer := None)
  {
    if s.prompt then s.(confirming := true)
    else if b != XL then s.(drawer := None)
    else s
  }

  /** One transition on screen `b`. */
  function Apply<T>(s: State<T>, a: Action<T>, b: Breakpoint): (r: State<T>)
    ensures a.SetDrawer? ==> r == s.(drawer := a.content)
    ensures a.Accept? ==> r == s.(confirming := false, drawer := None)
    ensures a.Cancel? ==> r == s.(confirming := false)
    ensures !a.SetPrompt? ==> r.prompt == s.prompt
  {
    match a
    case SetDrawer(d) => s.(drawer := d)
    case CloseGlobal => CloseGlobalDrawer(s)
    case CloseTemporary => CloseTemporaryDrawer(s, b)
    case Accept => s.(confirming := false, drawer := None)
    case Cancel => s.(confirming := false)
    case SetPrompt(on) => s.(prompt := on)
  }

  /** The drawer is open exactly when it holds something. */
  predicate IsOpen<T>(s: State<T>)
  {
    s.drawer.Some?
  }

  function Width<T>(s: State<T>, b: Breakpoint): (r: Width)
    ensures r.Zero? <==> !IsOpen(s)
  {
    StyleWidth(b, s.drawer.Some?)
  }

  /** With the prompt on, a close request keeps the drawer and asks first; with
      it off, no dialog ever opens. */
  lemma CloseAsksWhenPrompted<T>(s: State<T>, a: Action<T>, b: Breakpoint)
    requires a.CloseGlobal? || a.CloseTemporary?
    ensures s.prompt ==> Apply(s, a, b).drawer == s.drawer && Apply(s, a, b).confirming
    ensures !s.prompt ==> Apply(s, a, b).confirming == s.confirming
  {
  }

  /** Confirming a prompted close ends where an unprompted close of the global
      drawer ends, except that the prompt stays on. */
  lemma CloseThenAccept<T>(s: State<T>, b: Breakpoint)
    requires s.prompt
    ensures Apply(Apply(s, CloseGlobal, b), Accept, b) ==
      Apply(s.(prompt := false), CloseGlobal, b).(prompt := true, confirming := false)
  {
  }

  /** Cancelling a prompted close restores the state before it. */
  lemma CloseThenCancel<T>(s: State<T>, a: Action<T>, b: Breakpoint)
    requires s.prompt && !s.confirming
    requires a.CloseGlobal? || a.CloseTemporary?
    ensures Apply(Apply(s, a, b), Cancel, b) == s
  {
  }

  /** Accepting leaves the prompt on, so the next close asks again. */
  lemma AcceptKeepsPrompt<T>(s: State<T>, d: Option<T>, b: Breakpoint)
    requires s.prompt
    ensures var t := Apply(Apply(Apply(s, Accept, b), SetDrawer(d), b), CloseGlobal, b);
      t.confirming && t.drawer == d
  {
  }

  /** Opening or replacing the drawer never asks, whatever the prompt. */
  lemma SetDrawerIgnoresPrompt<T>(s: State<T>, d: Option<T>, b: Breakpoint)
    ensures Apply(s, SetDrawer(d), b).drawer == d
    ensures Apply(s, SetDrawer(d), b).confirming == s.confirming
  {
  }
}
