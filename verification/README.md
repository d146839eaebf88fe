# AlloSystem windows, GLV panels and overlay text — a Dafny model

This project models three pieces of in-memory logic from the AlloSystem
multimedia library. Each piece is modelled in the source's own form: classes
whose methods change fields in place, loops with invariants, and pure
functions for the pure decisions.

- **Window handler chains** (`include/allocore/io/al_Window.hpp`, modules
  `EventChain` and `AlWindow`).
  - A `Window` owns two ordered lists: input-event handlers and window-event
    handlers.
  - `append`, `prepend` and `remove` edit those lists.
  - The `CALL` dispatch walks a list and stops right after the first handler
    that answers false.
  - `doDestroy` runs the `onDestroy` chain and then tears down the graphics
    context.
  - Handlers that override nothing answer true.
  - `StandardWindowKeyControls` consumes ctrl-q/h/m/c and Escape.
  - `DisplayMode` is a bit-flag enumeration with `|` and `&`.
  - Handlers are objects, so "the same handler" means the same object, as
    with the C++ pointers.
  - What a handler answers is a parameter of the dispatch: a function from
    the handler and the event to a boolean.
  - A dispatch returns the handlers it called, in calling order.
- **GLV binding and the detachable panel** (`alloGLV/src/al_ControlGLV.cpp`,
  module `ControlGLV`).
  - `GLVBinding::bindTo` and `GLVDetachable::addGUI` register the two GLV
    controls on a window: the input control at the head of the input chain,
    the window control at the tail of the window chain. `remGUI` removes
    them.
  - `GLVDetachable::detached(v)` moves the panel between its parent window
    and a floating window of its own.
    - On detach it re-origins the children by the top-left corner of their
      union.
    - It sizes the floating window to that union and places it at the
      parent's corner.
    - On every call it releases every GLV mouse button.
  - `parentWindow(v)` re-hosts an attached panel and only records the new
    parent of a detached one.
  - The toolkit is reduced to the state these adapters write:
    - the child rectangles;
    - the panel position and background flag;
    - the GLV keyboard and extent;
    - an array of mouse-button states.
  - The panel counts as detached exactly while its floating window is
    created.
- **OverlayText line buffer** (`include/alloutil/al_OverlayTextGL.hpp`,
  module `OverlayTextGL`).
  - `printf` appends a line.
  - `printf(fmt, ...)` appends at most 1023 characters, because it formats
    into a 1024-byte buffer.
  - `clear` empties the buffer.
  - The loop at the start of `draw` pops the front until at most
    `mMaxlines` lines remain.
  - That comparison is `size_t` against `int`, so a negative bound wraps to
    a huge value and nothing is trimmed. `SizeT` makes the conversion
    explicit for a 64-bit `size_t`.

Two behaviours of `detached(v)` worth knowing before reading the model:

- **Detach then attach does not move the children back.** The attach branch
  at `alloGLV/src/al_ControlGLV.cpp:146-154` sets only the panel's own
  position to (0,0). The children keep the offsets the detach gave them.
  `GLVDetachable.DetachAndReattach` states this round trip.
- **`detached(true)` on a detached panel re-attaches it.** A setter called
  with the state the panel is already in would be expected to change
  nothing. Line 146 tests only `detached()`, so the attach branch runs.
  `GLVDetachable.SetDetachedAsWritten` models the method as written and
  states the state it leaves. The toggle button's callback,
  `GLVDetachable.OnDetachedButton`, goes through it, as `ntDetachedButton`
  does. `GLVDetachable.SetDetached` is the corrected method, and
  `GLVDetachable.DetachAndReattach` uses it (see "## Findings").

## Model

| member | source | states |
|---|---|---|
| EventChain.Trace | include/allocore/io/al_Window.hpp:377-384 | The handlers a dispatch calls form a prefix of the list, in list order, and at least one handler is called when the list is not empty. |
| EventChain.Dispatch | include/allocore/io/al_Window.hpp:377-391 | The `CALL` while-loop calls exactly the handlers `Trace` describes, in order. |
| EventChain.TraceShortCircuits | include/allocore/io/al_Window.hpp:377-384 | Every called handler except the last answered true. If the walk stopped before the end of the list, the last called handler answered false. |
| EventChain.TraceStopsAtFirstFalse | include/allocore/io/al_Window.hpp:377-384 | If handler k is the first to answer false, exactly handlers 0..k are called. |
| EventChain.TraceNeverPassesFalse | include/allocore/io/al_Window.hpp:377-384 | No handler after one that answers false is called. |
| EventChain.TraceCallsAll | include/allocore/io/al_Window.hpp:377-384 | When every handler answers true, every handler is called exactly once, in list order. |
| EventChain.FullTraceMeansPassing | include/allocore/io/al_Window.hpp:377-384 | Conversely, a dispatch that reached the end of the list saw true from every handler but the last. |
| EventChain.TrueAnswerNeverStops | include/allocore/io/al_Window.hpp:377-384 | A handler that answers true is followed by the next handler, if there is one. |
| EventChain.TraceOfAppended | include/allocore/io/al_Window.hpp:309-319 | A handler appended at the tail is called iff every earlier handler answers true. Otherwise the dispatch is as before the append. |
| EventChain.TraceOfPrepended | include/allocore/io/al_Window.hpp:321-331 | A prepended handler is always called first. If it answers false, nothing else is called; if it answers true, the old list is dispatched after it. |
| EventChain.Without | include/allocore/io/al_Window.hpp:333-337 | After `remove`, the handler is absent and every other entry keeps its multiplicity. |
| EventChain.WithoutConcat | include/allocore/io/al_Window.hpp:333-337 | Removal distributes over concatenation, so the remaining entries keep their relative order. |
| EventChain.WithoutAbsent | include/allocore/io/al_Window.hpp:333-337 | Removing a handler that is not in the list changes nothing. |
| EventChain.WithoutIdempotent | include/allocore/io/al_Window.hpp:333-337 | Removing twice is the same as removing once. |
| EventChain.RemoveUndoesAdd | include/allocore/io/al_Window.hpp:321-337 | `remove` undoes an `append` or a `prepend` of a handler that was not in the list. |
| AlWindow.InputEventHandler.constructor | include/allocore/io/al_Window.hpp:152-165 | A new input handler has a null window pointer, so `attached()` is false. |
| AlWindow.WindowEventHandler.constructor | include/allocore/io/al_Window.hpp:182-193 | A new window handler has a null window pointer, so `attached()` is false. |
| AlWindow.DefaultHandlersNeverStop | include/allocore/io/al_Window.hpp:155-161 | The default input handler methods answer true, so a list of handlers that override nothing is dispatched in full. |
| AlWindow.DefaultWindowHandlersNeverStop | include/allocore/io/al_Window.hpp:185-189 | The same holds for the default window handler methods. |
| AlWindow.ModeOrEnables | include/allocore/io/al_Window.hpp:414-415 | A flag is set in the bitwise or of `a` and `b` iff it is set in `a` or in `b`. |
| AlWindow.ModeAndEnables | include/allocore/io/al_Window.hpp:417-418 | A set of flags is set in the bitwise and of `a` and `b` iff it is set in both. |
| AlWindow.DisplayFlagsAreDistinctBits | include/allocore/io/al_Window.hpp:214-222 | Each of the eight display flags is a single bit, and no two flags share a bit. |
| AlWindow.DefaultBufFlags | include/allocore/io/al_Window.hpp:223 | Of the eight display flags, `DEFAULT_BUF` enables exactly `DOUBLE_BUF`, `ALPHA_BUF` and `DEPTH_BUF`. |
| AlWindow.StandardOnKeyDown | include/allocore/io/al_Window.hpp:422-441 | A key press is consumed (answer false) iff ctrl is held and the key is q, h, m or c, or ctrl is not held and the key is Escape. It is consumed iff some window action is taken. |
| AlWindow.StandardKeyControlsAnswer | include/allocore/io/al_Window.hpp:422-441 | `StandardWindowKeyControls` answers the default to every event except a key press. It stops the chain only on the keys it acts on. |
| AlWindow.Window.constructor | include/allocore/io/al_Window.hpp:206-210 | A new window is its own first input handler and its own first window handler, and it is not created. |
| AlWindow.Window.Create | include/allocore/io/al_Window.hpp:256-260 | After `create`, the window is created with the given dimensions, which default to 800 by 600 at (0,0). |
| AlWindow.Window.Destroy | include/allocore/io/al_Window.hpp:264 | After `destroy`, the window is not created, and its handler lists are kept. |
| AlWindow.Window.AppendInput | include/allocore/io/al_Window.hpp:309-313 | The handler is added at the tail of the input list; nothing else changes. |
| AlWindow.Window.AppendWindow | include/allocore/io/al_Window.hpp:315-319 | The handler is added at the tail of the window list; nothing else changes. |
| AlWindow.Window.PrependInput | include/allocore/io/al_Window.hpp:321-325 | The handler is added at the head of the input list; nothing else changes. |
| AlWindow.Window.PrependWindow | include/allocore/io/al_Window.hpp:327-331 | The handler is added at the head of the window list; nothing else changes. |
| AlWindow.Window.RemoveInput | include/allocore/io/al_Window.hpp:333-334 | Every input-list entry equal to the handler is removed, and the others keep their order. |
| AlWindow.Window.RemoveWindow | include/allocore/io/al_Window.hpp:336-337 | Every window-list entry equal to the handler is removed, and the others keep their order. |
| AlWindow.Window.DoInput | include/allocore/io/al_Window.hpp:386-391 | The `doKey*` and `doMouse*` methods call exactly the short-circuit trace of the input list and change no window state. |
| AlWindow.Window.DoWindowEvent | include/allocore/io/al_Window.hpp:403-410 | `doFrame`, `doCreate`, `doResize` and `doVisibility` call exactly the short-circuit trace of the window list, never the input list, and change no window state. |
| AlWindow.Window.DoDestroy | include/allocore/io/al_Window.hpp:405-408 | The `onDestroy` calls come first, in trace order, and are followed by exactly one context teardown, even when a handler stopped the chain. |
| AlWindow.SecondHandlerStopsThird | include/allocore/io/al_Window.hpp:377-384 | With three handlers where the second answers false, the first two are called and the third is not. |
| ControlGLV.ShiftAll | alloGLV/src/al_ControlGLV.cpp:127-133 | Every child is moved by (dx, dy), its size is kept, and the child order is kept. |
| ControlGLV.UnionIsBoundingBox | alloGLV/src/al_ControlGLV.cpp:125 | The union of the children encloses every child and touches a child on each side, so it is the smallest enclosing rectangle. A panel without children gives (0,0,0,0). |
| ControlGLV.UnionOfShifted | alloGLV/src/al_ControlGLV.cpp:125-133 | Shifting every child shifts their union by the same amount and keeps its size. |
| ControlGLV.ReOriginedUnionAtOrigin | alloGLV/src/al_ControlGLV.cpp:125-133 | After a detach re-origins the children, their union has its top-left corner at (0,0) and its old width and height. |
| ControlGLV.ReOriginIdempotent | alloGLV/src/al_ControlGLV.cpp:125-133 | Re-origining children that are already re-origined moves nothing. |
| ControlGLV.DetachScenario | alloGLV/src/al_ControlGLV.cpp:125-143 | Worked example: children at (10,10,40,20) and (5,40,40,20) have union (5,10,45,50) and move to (5,0,40,20) and (0,30,40,20). |
| ControlGLV.AsWrittenRedetachAttaches | alloGLV/src/al_ControlGLV.cpp:120-154 | With the branch test as written, `detached(true)` on a detached panel attaches it. After the call the panel is detached only if it was attached and v was true. |
| ControlGLV.DockStepAsWritten | alloGLV/src/al_ControlGLV.cpp:121-146 | With the branch tests as written, the panel ends detached iff it was attached and v is true. The attach branch is taken iff the panel is detached, whatever v is. |
| ControlGLV.DockStep | alloGLV/src/al_ControlGLV.cpp:120-154 | With the corrected branch test, the panel is detached after `detached(v)` iff v. It does nothing iff it is already in the requested state. |
| ControlGLV.DockStepDiffersOnlyOnRedetach | alloGLV/src/al_ControlGLV.cpp:121-146 | The corrected branch test and the one as written differ exactly on `detached(true)` of a detached panel. |
| ControlGLV.InputControlAnswer | alloGLV/src/al_ControlGLV.cpp:5-34 | `GLVInputControl` answers the negation of the GLV's propagation report on mouse down and up, and the report itself on keys and motion. |
| ControlGLV.ButtonAndKeyAnswersOpposite | alloGLV/src/al_ControlGLV.cpp:5-27 | For the same GLV report, a mouse-button event and a key event get opposite answers. |
| ControlGLV.InputControlGatesChain | alloGLV/src/al_ControlGLV.cpp:5-17 | The prepended input control is always called first. The rest of the input chain sees the event iff the control answers true. |
| ControlGLV.WindowControlAnswer | alloGLV/src/al_ControlGLV.cpp:37-59 | The `GLVWindowControl` create, destroy, resize and frame handlers answer true, as the default handler does. |
| ControlGLV.WindowControlCalledIffOthersPass | alloGLV/src/al_ControlGLV.cpp:68-71 | The appended window control sees a window event iff every handler before it answers true. |
| ControlGLV.Glv.KeyToGLV | alloGLV/src/al_ControlGLV.cpp:19-27 | On every call, the GLV keyboard holds the key, its direction and all five modifiers of the window keyboard. The answer is the un-negated propagation report. |
| ControlGLV.Glv.OnResize | alloGLV/src/al_ControlGLV.cpp:47-52 | The GLV takes the new extent, and the handler answers true. |
| ControlGLV.Glv.ReleaseAllButtons | alloGLV/src/al_ControlGLV.cpp:156-164 | Every mouse button index is up afterwards, whatever its state before. |
| ControlGLV.GLVBinding.constructor | alloGLV/src/al_ControlGLV.cpp:62-66 | A new binding owns fresh input and window controls, attached to no window, and its GLV does not draw its background. |
| ControlGLV.GLVBinding.BindTo | alloGLV/src/al_ControlGLV.cpp:68-71 | The input control is prepended to the input list and the window control is appended to the window list; nothing else changes. |
| ControlGLV.GLVDetachable.Detached | alloGLV/src/al_ControlGLV.cpp:121 | The getter `detached()` that lines 121, 146 and 171 test. Its body is not in the modelled files; the model takes it to be true exactly while the floating window is created, and every `SetDetached*` and `SetParent` contract states its value afterwards. |
| ControlGLV.GLVDetachable.constructor | alloGLV/src/al_ControlGLV.cpp:74-79 | A new panel has no parent, is not detached and has its controls registered nowhere. |
| ControlGLV.GLVDetachable.WithParent | alloGLV/src/al_ControlGLV.cpp:81-87 | A panel built on a parent window registers its controls at the head and tail of that window's lists. It is attached and docked. |
| ControlGLV.GLVDetachable.AddGUI | alloGLV/src/al_ControlGLV.cpp:110-113 | The input control is prepended and the window control is appended; the window is otherwise unchanged. |
| ControlGLV.GLVDetachable.RemGUI | alloGLV/src/al_ControlGLV.cpp:115-118 | Every entry of either control is removed from the window's lists; the window is otherwise unchanged. |
| ControlGLV.GLVDetachable.ReOrigin | alloGLV/src/al_ControlGLV.cpp:127-133 | The child walk moves every child by (dx, dy), in order. |
| ControlGLV.GLVDetachable.DetachStep | alloGLV/src/al_ControlGLV.cpp:121-145 | On an attached panel, the detach branch establishes `DetachEffect`. The controls are removed from the parent and the children are re-origined. The floating window is created at the parent's corner (or (0,0)) with the union's size, and the controls are registered on it. The background is enabled. |
| ControlGLV.GLVDetachable.AttachStep | alloGLV/src/al_ControlGLV.cpp:146-154 | On a detached panel, the attach branch establishes `AttachEffect`. The controls are removed from the floating window and the window is destroyed. With a parent, the panel goes to (0,0) without background and the controls are registered on the parent; without one, nothing else changes. The children are not moved back. |
| ControlGLV.GLVDetachable.SetDetached | alloGLV/src/al_ControlGLV.cpp:120-167 | Corrected `detached(v)`: afterwards the panel is detached iff v, every mouse button is up, and the controls stay registered on exactly the hosting window. The new state is `DetachEffect`, `AttachEffect` or `StayEffect` (nothing moves) as `DockStep` decides. |
| ControlGLV.GLVDetachable.SetDetachedAsWritten | alloGLV/src/al_ControlGLV.cpp:120-167 | `detached(v)` as written: afterwards the panel is detached iff v and it was attached. `detached(true)` on a detached panel ends attached, in the `AttachEffect` state (floating window destroyed, controls back on the parent). |
| ControlGLV.GLVDetachable.SetParent | alloGLV/src/al_ControlGLV.cpp:169-185 | No change to the lists when v is already the parent. When attached, the controls move from the old parent to v, and neither window is otherwise changed. When detached, v is only recorded. |
| ControlGLV.GLVDetachable.OnDetachedButton | alloGLV/src/al_ControlGLV.cpp:89-98 | The toggle's value v is passed to `detached(v)` as written: afterwards the panel is detached iff v holds and it was attached before, the buttons are released, and the new state is the detach, attach or stay effect that `DockStepAsWritten` picks. |
| ControlGLV.GLVDetachable.DetachAndReattach | alloGLV/src/al_ControlGLV.cpp:120-154 | Detaching and re-attaching a docked panel leaves the floating window's lists as they were. The controls end at the head and tail of the parent's lists, and the children stay re-origined. |
| OverlayTextGL.SizeT | include/alloutil/al_OverlayTextGL.hpp:64 | The `int` bound converted to a 64-bit `size_t`: non-negative bounds are kept and negative ones wrap to a huge value. |
| OverlayTextGL.Trimmed | include/alloutil/al_OverlayTextGL.hpp:64 | The trimmed buffer holds min(size, n) lines: the newest ones, in their original order. |
| OverlayTextGL.TrimIdempotent | include/alloutil/al_OverlayTextGL.hpp:64 | Trimming an already trimmed buffer changes nothing. |
| OverlayTextGL.NewestLineSurvives | include/alloutil/al_OverlayTextGL.hpp:51-64 | With a positive bound, the line printed last is the last line drawn. |
| OverlayTextGL.TrimCommutesWithAppend | include/alloutil/al_OverlayTextGL.hpp:51-64 | Trimming before an append and then trimming again equals trimming after the append, so letting `printf` skip the trim changes nothing that `draw` shows. |
| OverlayTextGL.CLine | include/alloutil/al_OverlayTextGL.hpp:54-61 | The stored line is a prefix of the formatted text of at most 1023 characters, with no NUL in it. It is cut short only at the buffer limit or at the first NUL. |
| OverlayTextGL.OverlayText.constructor | include/alloutil/al_OverlayTextGL.hpp:48-49 | A new overlay has an empty buffer and the given bound, which defaults to 20. |
| OverlayTextGL.OverlayText.PrintLine | include/alloutil/al_OverlayTextGL.hpp:51-53 | Exactly one line is appended at the back, the existing lines are unchanged, and nothing is trimmed. |
| OverlayTextGL.OverlayText.PrintFormatted | include/alloutil/al_OverlayTextGL.hpp:54-61 | Exactly one line of at most 1023 characters is appended, and nothing is trimmed. |
| OverlayTextGL.OverlayText.Draw | include/alloutil/al_OverlayTextGL.hpp:64 | The pop-front loop leaves exactly the newest `SizeT(mMaxlines)` lines, in order. |
| OverlayTextGL.OverlayText.Clear | include/alloutil/al_OverlayTextGL.hpp:76-78 | The buffer is empty. |

## Left out

- Platform windows and the graphics context are left out: OS window creation, `contextDestroy`, `makeCurrent`, cursor, full-screen, hide and iconify, and the static loop control. `Window` keeps only whether it is created and its dimensions. `DoDestroy` records the context teardown as a step.
- Frame timing and ratios (`fps`, `spfActual`, `Dim::aspect`) are floating point and not modelled.
- AlWindow.Window.Create, AlWindow.Window.Destroy: in the window implementation file, which is not part of this model, `create` dispatches `onCreate` to the window handlers, and `destroy` runs `doDestroy`: the `onDestroy` chain, then `contextDestroy` (`include/allocore/io/al_Window.hpp:186`, `405-408`). Both members here only set or clear `created` and dispatch nothing; `DoDestroy` models the `doDestroy` steps on their own. So the attach branch of `detached(v)`, which destroys the floating window, does not show the `onDestroy` calls to the handlers still on that window (the panel's own window control has been removed from it just before, at `alloGLV/src/al_ControlGLV.cpp:147`).
- `append` and `prepend` also set the handler's back-pointer. This lives in the window implementation file, which is not part of this model. In the model, `attached()` is the back-pointer test of the handler class, and the list edits do not set it.
- `insert(handler, i)` is declared but has no body in the header; it is not part of this model.
- Handler side effects are left out. What a handler does when called (drawing, broadcasting to the GLV) is out of the model; only its boolean answer is a parameter. A handler that edits a list during dispatch is also out: the C++ iterators make that undefined.
- `Keyboard` and `Mouse` methods have no bodies in the header; only their fields are kept.
- The GLV toolkit internals are reduced:
  - `unionOfChildren` is the pairwise bounding box, and gives (0,0,0,0) without children;
  - `setMouseDown`, `setMousePos`, `setMouseMotion` and `broadcastEvent` are not modelled, and only their effect on the answer is;
  - `setMouseUp` is modelled as clearing a button flag;
  - `drawGLV` is not modelled.
- `GLV_MAX_MOUSE_BUTTONS` comes from the GLV headers, which are not part of this model, so the number of tracked buttons is a constructor parameter.
- `GLVDetachable::init` (the toggle button's appearance and the `stretch` layout) is GUI configuration and is not modelled. `ntDetachedButton` is modelled as `OnDetachedButton`.
- ControlGLV.GLVDetachable.WithParent: `GLVDetachable(Window&)` reads `mParentWindow` before it is initialised (`alloGLV/src/al_ControlGLV.cpp:81-85`). The model starts that constructor from a null parent.
- `detachedWindow()` creates the floating window object lazily. The model creates it with the panel, uncreated, which is the same state as far as the handler lists and `detached()` can tell.
- ControlGLV.GLVDetachable.SetParent: requires the new parent not to be the panel's own floating window. The source does not exclude this. It would make the panel's parent its own floating window, which may be uncreated or destroyed, so the two hosting roles the model keeps apart would coincide.
- AlWindow.Window.AppendInput, AlWindow.Window.AppendWindow, AlWindow.Window.PrependInput, AlWindow.Window.PrependWindow: the bodies are in the window implementation file, which is not part of this model. The header's private `removeFromWindow` suggests a registered handler may first be taken off its previous window; that move, and any check against duplicate entries, are not modelled. A handler registered twice is listed twice.
- The dimensions of a window that was never created are not modelled. The constructor leaves a placeholder that no contract mentions.
- `GLVInputControl::onMouseUp` passes `xrel` and `yrel` to `setMouseUp` uninitialised (`alloGLV/src/al_ControlGLV.cpp:13-14`). The GLV mouse position is not modelled, so this does not show in the model.
- GLV coordinates (`glv::space_t`) are floating point; the model uses integers. The `(int)` casts of the mouse position (`alloGLV/src/al_ControlGLV.cpp:31`) and the conversion of the union's width and height to the `int` window dimensions (line 143) are therefore not modelled: fractional extents are not truncated.
- The children form a sequence of rectangles rather than a linked child/sibling list, so aliasing between views is not modelled.
- The `PoseModel` data marshalling is not modelled; it converts floating-point vectors and quaternions.
- `vsnprintf`'s format expansion is not modelled: `PrintFormatted` takes the text it would produce. The font and the GL drawing in `draw` are not modelled either.
- OverlayTextGL.OverlayText.PrintFormatted: the buffer is a `static` array shared by all overlays. Since it is copied into the list at once, the model does not represent it.
- The convolver header in `alloaudio` is declarations only and is not modelled.

## Findings

| source | as written | input that shows it | evidently intended | confidence | as-written member | corrected member |
|---|---|---|---|---|---|---|
| alloGLV/src/al_ControlGLV.cpp:146 | `else if(detached())` re-attaches whenever the panel is detached, whatever v is. | `detached(true)` on a panel that is already detached: the controls go back to the parent and the floating window is destroyed. | `else if(!v && detached())`: asking for the current state changes nothing. | not executed | ControlGLV.GLVDetachable.SetDetachedAsWritten | ControlGLV.GLVDetachable.SetDetached |
