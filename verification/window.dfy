/** The window of allocore: input and window-event handlers, the window's two
    ordered handler lists with their dispatch, the display-mode flags and the
    standard key controls (include/allocore/io/al_Window.hpp). */
module AlWindow {
  import opened EventChain

  datatype Option<T> = None | Some(value: T)

  // ---------------------------------------------------------------- input state

  /** Key code of the Escape key, the one non-printable key used here. */
  const Escape: int := 27

  /** Keyboard state as the window records it: the last key event and the five modifiers. */
  datatype Keyboard = Keyboard(key: int, down: bool, alt: bool, caps: bool, ctrl: bool, meta: bool, shift: bool)

  /** Mouse state: position, change of position, last button changed, and
      per-button down position and state. */
  datatype Mouse = Mouse(x: int, y: int, dx: int, dy: int, button: int,
                         downX: seq<int>, downY: seq<int>, buttonDown: seq<bool>)

  /** The six input events, each carrying the state its handler method reads. */
  datatype InputEvent =
    | KeyDown(k: Keyboard) | KeyUp(k: Keyboard)
    | MouseDown(m: Mouse) | MouseDrag(m: Mouse) | MouseMove(m: Mouse) | MouseUp(m: Mouse)

  /** The five window events. */
  datatype WindowEvent = Create | Destroy | Frame | Resize(dw: int, dh: int) | Visibility(visible: bool)

  // ---------------------------------------------------------------- handlers

  /** A subscriber to input events; `window` is the back-pointer `attached()` tests. */
  class InputEventHandler {
    var window: Window?

    constructor ()
      ensures !Attached()
    {
      window := null;
    }

    predicate Attached()
      reads this
    {
      window != null
    }
  }

  /** A subscriber to window events; `window` is the back-pointer `attached()` tests. */
  class WindowEventHandler {
    var window: Window?

    constructor ()
      ensures !Attached()
    {
      window := null;
    }

    predicate Attached()
      reads this
    {
      window != null
    }
  }

  /** What an input handler that overrides nothing answers. */
  function DefaultInputAnswer(e: InputEvent): bool
  {
    match e
    case KeyDown(_) => true
    case KeyUp(_) => true
    case MouseDown(_) => true
    case MouseDrag(_) => true
    case MouseMove(_) => true
    case MouseUp(_) => true
  }

  /** What a window handler that overrides nothing answers. */
  function DefaultWindowAnswer(e: WindowEvent): bool
  {
    match e
    case Create => true
    case Destroy => true
    case Frame => true
    case Resize(_, _) => true
    case Visibility(_) => true
  }

  /** Handlers that override nothing never stop propagation: a dispatch through
      a list of them calls every entry, in list order. */
  lemma DefaultHandlersNeverStop(hs: seq<InputEventHandler>, answer: (InputEventHandler, InputEvent) -> bool, e: InputEvent)
    requires forall h :: h in hs ==> answer(h, e) == DefaultInputAnswer(e)
    ensures Trace(hs, answer, e) == hs
  {
    TraceCallsAll(hs, answer, e);
  }

  /** The same for window handlers. */
  lemma DefaultWindowHandlersNeverStop(hs: seq<WindowEventHandler>, answer: (WindowEventHandler, WindowEvent) -> bool, e: WindowEvent)
    requires forall h :: h in hs ==> answer(h, e) == DefaultWindowAnswer(e)
    ensures Trace(hs, answer, e) == hs
  {
    TraceCallsAll(hs, answer, e);
  }

  // ---------------------------------------------------------------- display mode

  /** Display-mode bit flags. The largest enumerator is 1 << 7, so the values
      of the enumeration are those of an 8-bit field; `|` and `&` of two of
      them stay in that range. */
  type DisplayMode = bv8

  const SingleBuf: DisplayMode := 1 << 0
  const DoubleBuf: DisplayMode := 1 << 1
  const StereoBuf: DisplayMode := 1 << 2
  const AccumBuf: DisplayMode := 1 << 3
  const AlphaBuf: DisplayMode := 1 << 4
  const DepthBuf: DisplayMode := 1 << 5
  const StencilBuf: DisplayMode := 1 << 6
  const Multisample: DisplayMode := 1 << 7
  const DefaultBuf: DisplayMode := DoubleBuf | AlphaBuf | DepthBuf

  const DisplayFlags: seq<DisplayMode> :=
    [SingleBuf, DoubleBuf, StereoBuf, AccumBuf, AlphaBuf, DepthBuf, StencilBuf, Multisample]

  /** A value with exactly one bit set. */
  predicate IsFlag(f: DisplayMode)
  {
    f != 0 && f & (f - 1) == 0
  }

  /** Whether `flag` is set in `mode`. */
  predicate Enabled(mode: DisplayMode, flag: DisplayMode)
  {
    mode & flag == flag
  }

  /** `operator|` on display modes: bitwise or of the underlying integers. */
  function ModeOr(a: DisplayMode, b: DisplayMode): DisplayMode
  {
    a | b
  }

  /** `operator&` on display modes: bitwise and of the underlying integers. */
  function ModeAnd(a: DisplayMode, b: DisplayMode): DisplayMode
  {
    a & b
  }

  /** A single flag is set in `a | b` exactly when it is set in `a` or in `b`. */
  lemma ModeOrEnables(a: DisplayMode, b: DisplayMode, f: DisplayMode)
    requires f in DisplayFlags
    ensures Enabled(ModeOr(a, b), f) <==> Enabled(a, f) || Enabled(b, f)
  {
    assert f == SingleBuf || f == DoubleBuf || f == StereoBuf || f == AccumBuf ||
           f == AlphaBuf || f == DepthBuf || f == StencilBuf || f == Multisample;
  }

  /** Any set of flags is set in `a & b` exactly when it is set in both. */
  lemma ModeAndEnables(a: DisplayMode, b: DisplayMode, f: DisplayMode)
    ensures Enabled(ModeAnd(a, b), f) <==> Enabled(a, f) && Enabled(b, f)
  {
  }

  /** Each display flag is a single bit, and no two flags share a bit. */
  lemma DisplayFlagsAreDistinctBits()
    ensures forall i :: 0 <= i < |DisplayFlags| ==> IsFlag(DisplayFlags[i])
    ensures forall i, j :: 0 <= i < j < |DisplayFlags| ==> DisplayFlags[i] & DisplayFlags[j] == 0
  {
  }

  /** The default mode is exactly double buffering, alpha and depth. */
  lemma DefaultBufFlags()
    ensures forall i :: 0 <= i < |DisplayFlags| ==>
      (Enabled(DefaultBuf, DisplayFlags[i]) <==> DisplayFlags[i] in {DoubleBuf, AlphaBuf, DepthBuf})
  {
  }

  // ---------------------------------------------------------------- key controls

  /** The window actions the standard key controls trigger. */
  datatype KeyAction = StopLoop | Hide | Iconify | CursorHideToggle | FullScreenToggle

  /** The action StandardWindowKeyControls takes on a key press, if any. */
  function StandardKeyAction(k: Keyboard): Option<KeyAction>
  {
    if k.ctrl then
      if k.key == 'q' as int then Some(StopLoop)
      else if k.key == 'h' as int then Some(Hide)
      else if k.key == 'm' as int then Some(Iconify)
      else if k.key == 'c' as int then Some(CursorHideToggle)
      else None
    else if k.key == Escape then Some(FullScreenToggle)
    else None
  }

  /** StandardWindowKeyControls::onKeyDown: consumes (answers false) exactly
      the keys it acts on. */
  function StandardOnKeyDown(k: Keyboard): (r: bool)
    ensures !r <==> (k.ctrl && k.key in {'q' as int, 'h' as int, 'm' as int, 'c' as int})
                    || (!k.ctrl && k.key == Escape)
    ensures !r <==> StandardKeyAction(k).Some?
  {
    match StandardKeyAction(k)
    case Some(_) => false
    case None => true
  }

  /** StandardWindowKeyControls as an input handler: only key presses are
      overridden; everything else answers the default. */
  function StandardKeyControlsAnswer(e: InputEvent): (r: bool)
    ensures !e.KeyDown? ==> r == DefaultInputAnswer(e)
    ensures !r <==> e.KeyDown? && StandardKeyAction(e.k).Some?
  {
    match e
    case KeyDown(k) => StandardOnKeyDown(k)
    case _ => DefaultInputAnswer(e)
  }

  // ---------------------------------------------------------------- window

  /** Window pixel dimensions: left, top, width, height. */
  datatype Dim = Dim(l: int, t: int, w: int, h: int)

  /** One step of a destroy: a handler's onDestroy, or the graphics context teardown. */
  datatype DestroyStep = OnDestroy(h: WindowEventHandler) | ContextDestroy

  /** A window with its two handler lists. The platform window itself is
      reduced to whether it is created and its dimensions. */
  class Window {
    /** The window's own handler parts (a Window is itself both kinds of handler). */
    const selfInput: InputEventHandler
    const selfWindow: WindowEventHandler
    var inputHandlers: seq<InputEventHandler>
    var windowHandlers: seq<WindowEventHandler>
    var created: bool
    var dims: Dim

    /** A new window lists itself as its first input and window handler. */
    constructor ()
      ensures inputHandlers == [selfInput] && windowHandlers == [selfWindow]
      ensures !created
      ensures fresh(selfInput) && fresh(selfWindow)
    {
      selfInput := new InputEventHandler();
      selfWindow := new WindowEventHandler();
      inputHandlers := [selfInput];
      windowHandlers := [selfWindow];
      created := false;
      dims := Dim(0, 0, 0, 0);  // not read before Create sets it
    }

    /** Creates the platform window with the given dimensions; the default
        is Dim(800,600), that is 800 by 600 at (0,0). */
    method Create(dim: Dim := Dim(0, 0, 800, 600))
      modifies this`created, this`dims
      ensures created && dims == dim
    {
      created := true;
      dims := dim;
    }

    /** Destroys the platform window; the handler lists are kept. */
    method Destroy()
      modifies this`created
      ensures !created
    {
      created := false;
    }

    /** Adds `h` at the tail of the input handler list. */
    method AppendInput(h: InputEventHandler)
      modifies this`inputHandlers
      ensures inputHandlers == old(inputHandlers) + [h]
    {
      inputHandlers := inputHandlers + [h];
    }

    /** Adds `h` at the tail of the window handler list. */
    method AppendWindow(h: WindowEventHandler)
      modifies this`windowHandlers
      ensures windowHandlers == old(windowHandlers) + [h]
    {
      windowHandlers := windowHandlers + [h];
    }

    /** Adds `h` at the head of the input handler list. */
    method PrependInput(h: InputEventHandler)
      modifies this`inputHandlers
      ensures inputHandlers == [h] + old(inputHandlers)
    {
      inputHandlers := [h] + inputHandlers;
    }

    /** Adds `h` at the head of the window handler list. */
    method PrependWindow(h: WindowEventHandler)
      modifies this`windowHandlers
      ensures windowHandlers == [h] + old(windowHandlers)
    {
      windowHandlers := [h] + windowHandlers;
    }

    /** Removes every input handler entry equal to `h`. */
    method RemoveInput(h: InputEventHandler)
      modifies this`inputHandlers
      ensures inputHandlers == Without(old(inputHandlers), h)
    {
      inputHandlers := Without(inputHandlers, h);
    }

    /** Removes every window handler entry equal to `h`. */
    method RemoveWindow(h: WindowEventHandler)
      modifies this`windowHandlers
      ensures windowHandlers == Without(old(windowHandlers), h)
    {
      windowHandlers := Without(windowHandlers, h);
    }

    /** Dispatches an input event (doKeyDown, doKeyUp, doMouseDown, doMouseDrag,
        doMouseMove, doMouseUp): returns the handlers called, in order. */
    method DoInput(e: InputEvent, answer: (InputEventHandler, InputEvent) -> bool)
      returns (called: seq<InputEventHandler>)
      ensures called == Trace(inputHandlers, answer, e)
    {
      called := Dispatch(inputHandlers, answer, e);
    }

    /** Dispatches a window event (doFrame, doCreate, doResize, doVisibility, and
        the handler part of doDestroy): returns the handlers called, in order. */
    method DoWindowEvent(e: WindowEvent, answer: (WindowEventHandler, WindowEvent) -> bool)
      returns (called: seq<WindowEventHandler>)
      ensures called == Trace(windowHandlers, answer, e)
    {
      called := Dispatch(windowHandlers, answer, e);
    }

    /** doDestroy: the onDestroy chain, then the graphics context teardown,
        which happens whether or not a handler stopped the chain. */
    method DoDestroy(answer: (WindowEventHandler, WindowEvent) -> bool)
      returns (steps: seq<DestroyStep>)
      ensures |steps| >= 1 && steps[|steps| - 1] == ContextDestroy
      ensures ContextDestroy !in steps[..|steps| - 1]
      ensures |steps| - 1 == |Trace(windowHandlers, answer, WindowEvent.Destroy)|
      ensures forall i :: 0 <= i < |steps| - 1 ==>
        steps[i] == OnDestroy(Trace(windowHandlers, answer, WindowEvent.Destroy)[i])
    {
      var called := DoWindowEvent(WindowEvent.Destroy, answer);
      steps := [];
      for i := 0 to |called|
        invariant |steps| == i
        invariant forall j :: 0 <= j < i ==> steps[j] == OnDestroy(called[j])
      {
        steps := steps + [OnDestroy(called[i])];
      }
      steps := steps + [ContextDestroy];
    }
  }

  /** Scenario: of three handlers where the second answers false,
      a dispatch calls the first two and never the third. */
  lemma SecondHandlerStopsThird(h1: InputEventHandler, h2: InputEventHandler, h3: InputEventHandler,
                                answer: (InputEventHandler, InputEvent) -> bool, e: InputEvent)
    requires answer(h1, e) && !answer(h2, e)
    ensures Trace([h1, h2, h3], answer, e) == [h1, h2]
  {
    TraceStopsAtFirstFalse([h1, h2, h3], answer, e, 1);
  }
}
