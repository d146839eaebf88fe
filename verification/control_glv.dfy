/** The binding of a GLV widget tree to allocore windows, and the panel that
    moves between its parent window and a floating window of its own
    (alloGLV/src/al_ControlGLV.cpp). The GLV toolkit is reduced to the state
    these adapters touch: the child rectangles, the panel position and
    background flag, the GLV keyboard, extent and mouse-button states. */
module ControlGLV {
  import opened EventChain
  import opened AlWindow

  // ---------------------------------------------------------------- geometry

  /** A view rectangle (left, top, width, height) in its parent's coordinates. */
  datatype Rect = Rect(l: int, t: int, w: int, h: int)

  function Right(r: Rect): int { r.l + r.w }
  function Bottom(r: Rect): int { r.t + r.h }

  /** View::posAdd: moves a rectangle by (dx, dy), keeping its size. */
  function PosAdd(r: Rect, dx: int, dy: int): Rect
  {
    Rect(r.l + dx, r.t + dy, r.w, r.h)
  }

  /** Every child moved by (dx, dy), in child-list order. */
  function ShiftAll(cs: seq<Rect>, dx: int, dy: int): (r: seq<Rect>)
    ensures |r| == |cs|
    ensures forall i :: 0 <= i < |cs| ==>
      r[i].l == cs[i].l + dx && r[i].t == cs[i].t + dy && r[i].w == cs[i].w && r[i].h == cs[i].h
  {
    if cs == [] then [] else [PosAdd(cs[0], dx, dy)] + ShiftAll(cs[1..], dx, dy)
  }

  /** Rect::unionOf: the smallest rectangle enclosing two rectangles. */
  function Union2(a: Rect, b: Rect): (u: Rect)
  {
    var l := if a.l <= b.l then a.l else b.l;
    var t := if a.t <= b.t then a.t else b.t;
    var r := if Right(a) >= Right(b) then Right(a) else Right(b);
    var btm := if Bottom(a) >= Bottom(b) then Bottom(a) else Bottom(b);
    Rect(l, t, r - l, btm - t)
  }

  /** View::unionOfChildren: the union of the children, walked in list order;
      a view without children gives the empty rectangle at (0,0). */
  function UnionOfChildren(cs: seq<Rect>): Rect
  {
    if cs == [] then Rect(0, 0, 0, 0)
    else if |cs| == 1 then cs[0]
    else Union2(cs[0], UnionOfChildren(cs[1..]))
  }

  /** The rectangle `u` contains `c`. */
  predicate Encloses(u: Rect, c: Rect)
  {
    u.l <= c.l && u.t <= c.t && Right(c) <= Right(u) && Bottom(c) <= Bottom(u)
  }

  /** The union encloses every child and touches the children on all four
      sides, so it is the smallest enclosing rectangle. */
  lemma {:induction false} UnionIsBoundingBox(cs: seq<Rect>)
    ensures var u := UnionOfChildren(cs);
      (cs == [] ==> u == Rect(0, 0, 0, 0)) &&
      (forall i :: 0 <= i < |cs| ==> Encloses(u, cs[i])) &&
      (cs != [] ==>
        (exists i :: 0 <= i < |cs| && cs[i].l == u.l) &&
        (exists i :: 0 <= i < |cs| && cs[i].t == u.t) &&
        (exists i :: 0 <= i < |cs| && Right(cs[i]) == Right(u)) &&
        (exists i :: 0 <= i < |cs| && Bottom(cs[i]) == Bottom(u)))
  {
    if |cs| == 1 {
      assert Encloses(cs[0], cs[0]);
    } else if |cs| > 1 {
      var rest := cs[1..];
      var v := UnionOfChildren(rest);
      var u := UnionOfChildren(cs);
      UnionIsBoundingBox(rest);
      forall i | 0 <= i < |cs|
        ensures Encloses(u, cs[i])
      {
        if i > 0 {
          assert cs[i] == rest[i - 1];
        }
      }
      var a :| 0 <= a < |rest| && rest[a].l == v.l;
      var b :| 0 <= b < |rest| && rest[b].t == v.t;
      var c :| 0 <= c < |rest| && Right(rest[c]) == Right(v);
      var d :| 0 <= d < |rest| && Bottom(rest[d]) == Bottom(v);
      assert cs[a + 1] == rest[a] && cs[b + 1] == rest[b] && cs[c + 1] == rest[c] && cs[d + 1] == rest[d];
      assert exists i :: 0 <= i < |cs| && cs[i].l == u.l by {
        if cs[0].l <= v.l { assert cs[0].l == u.l; } else { assert cs[a + 1].l == u.l; }
      }
      assert exists i :: 0 <= i < |cs| && cs[i].t == u.t by {
        if cs[0].t <= v.t { assert cs[0].t == u.t; } else { assert cs[b + 1].t == u.t; }
      }
      assert exists i :: 0 <= i < |cs| && Right(cs[i]) == Right(u) by {
        if Right(cs[0]) >= Right(v) { assert Right(cs[0]) == Right(u); } else { assert Right(cs[c + 1]) == Right(u); }
      }
      assert exists i :: 0 <= i < |cs| && Bottom(cs[i]) == Bottom(u) by {
        if Bottom(cs[0]) >= Bottom(v) { assert Bottom(cs[0]) == Bottom(u); } else { assert Bottom(cs[d + 1]) == Bottom(u); }
      }
    }
  }

  /** Moving every child by (dx, dy) moves their union by (dx, dy) and keeps its size. */
  lemma {:induction false} UnionOfShifted(cs: seq<Rect>, dx: int, dy: int)
    requires cs != []
    ensures UnionOfChildren(ShiftAll(cs, dx, dy)) == PosAdd(UnionOfChildren(cs), dx, dy)
  {
    var s := ShiftAll(cs, dx, dy);
    if |cs| == 1 {
      assert s == [PosAdd(cs[0], dx, dy)];
    } else {
      assert s[1..] == ShiftAll(cs[1..], dx, dy);
      UnionOfShifted(cs[1..], dx, dy);
      assert s[0] == PosAdd(cs[0], dx, dy);
    }
  }

  /** The children after a detach: moved so their union's top-left corner is the origin. */
  function ReOrigined(cs: seq<Rect>): seq<Rect>
  {
    var u := UnionOfChildren(cs);
    ShiftAll(cs, -u.l, -u.t)
  }

  /** After re-origining, the children's union starts at (0,0) and has the
      width and height it had before. */
  lemma {:induction false} ReOriginedUnionAtOrigin(cs: seq<Rect>)
    ensures var u := UnionOfChildren(cs);
      UnionOfChildren(ReOrigined(cs)) == Rect(0, 0, u.w, u.h)
  {
    if cs != [] {
      var u := UnionOfChildren(cs);
      UnionOfShifted(cs, -u.l, -u.t);
    }
  }

  /** Re-origining children that are already re-origined moves nothing. */
  lemma {:induction false} ReOriginIdempotent(cs: seq<Rect>)
    ensures ReOrigined(ReOrigined(cs)) == ReOrigined(cs)
  {
    ReOriginedUnionAtOrigin(cs);
    var r := ReOrigined(cs);
    assert ShiftAll(r, 0, 0) == r;
  }

  /** A panel with children at (10,10)-(50,30) and (5,40)-(45,60): the union is
      (5,10)-(50,60), the floating window is 45 by 50, and the children move to
      (5,0)-(45,20) and (0,30)-(40,50). */
  lemma DetachScenario()
    ensures UnionOfChildren([Rect(10, 10, 40, 20), Rect(5, 40, 40, 20)]) == Rect(5, 10, 45, 50)
    ensures ReOrigined([Rect(10, 10, 40, 20), Rect(5, 40, 40, 20)]) == [Rect(5, 0, 40, 20), Rect(0, 30, 40, 20)]
  {
    var cs := [Rect(10, 10, 40, 20), Rect(5, 40, 40, 20)];
    assert cs[1..] == [Rect(5, 40, 40, 20)];
    assert ShiftAll(cs, -5, -10) == [Rect(5, 0, 40, 20), Rect(0, 30, 40, 20)];
  }

  // ---------------------------------------------------------------- attach / detach decision

  /** The three things detached(v) can do to the panel's windows. */
  datatype DockMove = Detach | Attach | Stay

  /** Whether the panel is detached after taking `step` from state `detached`. */
  function DetachedAfter(step: DockMove, detached: bool): bool
  {
    match step
    case Detach => true
    case Attach => false
    case Stay => detached
  }

  /** The branch GLVDetachable::detached(v) takes, as written: the second test
      reads only "is detached", not "is detached and v is false". */
  function DockStepAsWritten(v: bool, detached: bool): (s: DockMove)
    ensures DetachedAfter(s, detached) == (v && !detached)
    ensures s == Attach <==> detached
  {
    if v && !detached then Detach
    else if detached then Attach
    else Stay
  }

  /** As written, detached(true) on a detached panel re-attaches it: the panel
      ends up detached only when it was attached and v was true. */
  lemma AsWrittenRedetachAttaches(v: bool, detached: bool)
    ensures DockStepAsWritten(true, true) == Attach
    ensures DetachedAfter(DockStepAsWritten(v, detached), detached) == (v && !detached)
  {
  }

  /** The corrected branch: attach only when asked to (v false) and detached. */
  function DockStep(v: bool, detached: bool): (s: DockMove)
    ensures DetachedAfter(s, detached) == v
    ensures s == Stay <==> v == detached
  {
    if v && !detached then Detach
    else if !v && detached then Attach
    else Stay
  }

  /** The corrected and the as-written branch differ exactly on detached(true)
      of a detached panel. */
  lemma DockStepDiffersOnlyOnRedetach(v: bool, detached: bool)
    ensures DockStep(v, detached) != DockStepAsWritten(v, detached) <==> v && detached
  {
  }

  // ---------------------------------------------------------------- GLV adapters

  /** The GLV keyboard model. */
  datatype GlvKeyboard = GlvKeyboard(key: int, down: bool, alt: bool, caps: bool, ctrl: bool, meta: bool, shift: bool)

  /** What GLVInputControl answers to the window's input chain, given what
      glv().propagateEvent() reports after the event was fed to the GLV:
      mouse down and up answer its negation, keys and motion answer it as is. */
  function InputControlAnswer(e: InputEvent, propagate: bool): (r: bool)
    ensures r != propagate <==> e.MouseDown? || e.MouseUp?
  {
    match e
    case MouseDown(_) => !propagate
    case MouseUp(_) => !propagate
    case KeyDown(_) => propagate
    case KeyUp(_) => propagate
    case MouseDrag(_) => propagate
    case MouseMove(_) => propagate
  }

  /** For the same GLV report, a mouse button and a key event get opposite answers. */
  lemma ButtonAndKeyAnswersOpposite(m: Mouse, k: Keyboard, propagate: bool)
    ensures InputControlAnswer(MouseDown(m), propagate) != InputControlAnswer(KeyDown(k), propagate)
    ensures InputControlAnswer(MouseUp(m), propagate) != InputControlAnswer(KeyUp(k), propagate)
  {
  }

  /** The input control sits at the head of the chain (it is prepended), so the
      rest of the chain sees the event exactly when the control answers true. */
  lemma InputControlGatesChain(c: InputEventHandler, hs: seq<InputEventHandler>,
                               answer: (InputEventHandler, InputEvent) -> bool, e: InputEvent, propagate: bool)
    requires hs != [] && answer(c, e) == InputControlAnswer(e, propagate)
    ensures Trace([c] + hs, answer, e)[0] == c
    ensures |Trace([c] + hs, answer, e)| > 1 <==> InputControlAnswer(e, propagate)
  {
    TraceOfPrepended(c, hs, answer, e);
  }

  /** What GLVWindowControl answers: its create, destroy, resize and frame
      handlers all answer true, so it never stops the window chain. */
  function WindowControlAnswer(e: WindowEvent): (r: bool)
    ensures r == DefaultWindowAnswer(e)
  {
    match e
    case Create => true
    case Destroy => true
    case Frame => true
    case Resize(_, _) => true
    case Visibility(_) => true
  }

  /** The window control sits at the tail of the chain (it is appended); it is
      called exactly when every handler before it answers true. */
  lemma WindowControlCalledIffOthersPass(hs: seq<WindowEventHandler>, c: WindowEventHandler,
                                         answer: (WindowEventHandler, WindowEvent) -> bool, e: WindowEvent)
    ensures (Trace(hs + [c], answer, e) == hs + [c]) <==> AllPass(hs, answer, e)
  {
    TraceOfAppended(hs, c, answer, e);
  }

  /** The input-side state of a GLV instance that the adapters write. */
  class Glv {
    var keyboard: GlvKeyboard
    var width: int
    var height: int
    const buttons: array<bool>

    constructor (maxMouseButtons: nat)
      ensures buttons.Length == maxMouseButtons && fresh(buttons)
      ensures AllButtonsUp()
    {
      keyboard := GlvKeyboard(0, false, false, false, false, false, false);
      width, height := 0, 0;
      buttons := new bool[maxMouseButtons](_ => false);
    }

    /** Every tracked mouse button is up. */
    predicate AllButtonsUp()
      reads this, buttons
    {
      forall i :: 0 <= i < buttons.Length ==> !buttons[i]
    }

    /** GLVInputControl::keyToGLV: records the key and its direction, then copies
        all five modifiers from the window keyboard, on every call; answers the
        GLV's propagation report. Nothing of the previous GLV keyboard survives. */
    method KeyToGLV(k: Keyboard, down: bool, propagate: bool) returns (r: bool)
      modifies this`keyboard
      ensures keyboard == GlvKeyboard(k.key, down, k.alt, k.caps, k.ctrl, k.meta, k.shift)
      ensures r == propagate && r == InputControlAnswer(if down then KeyDown(k) else KeyUp(k), propagate)
    {
      keyboard := keyboard.(key := k.key, down := down);
      keyboard := keyboard.(alt := k.alt);
      keyboard := keyboard.(caps := k.caps);
      keyboard := keyboard.(ctrl := k.ctrl);
      keyboard := keyboard.(meta := k.meta);
      keyboard := keyboard.(shift := k.shift);
      r := propagate;
    }

    /** GLVWindowControl::onResize: the GLV takes the new extent, and the chain goes on. */
    method OnResize(w: int, h: int) returns (r: bool)
      modifies this`width, this`height
      ensures width == w && height == h
      ensures r == WindowControlAnswer(Resize(w, h))
    {
      width, height := w, h;
      r := true;
    }

    /** The loop at the end of detached(): setMouseUp for every button index. */
    method ReleaseAllButtons()
      modifies buttons
      ensures AllButtonsUp()
    {
      for i := 0 to buttons.Length
        invariant forall j :: 0 <= j < i ==> !buttons[j]
      {
        buttons[i] := false;
      }
    }
  }

  // ---------------------------------------------------------------- binding

  /** A GLV bound to one window through an input and a window control. */
  class GLVBinding {
    const glv: Glv
    const inputCtrl: InputEventHandler
    const windowCtrl: WindowEventHandler
    /** The GLV's DrawBack property: whether the background is drawn. */
    var drawBack: bool

    /** GLVBinding(): fresh controls, and the background not drawn. */
    constructor (maxMouseButtons: nat)
      ensures fresh(glv) && fresh(glv.buttons) && fresh(inputCtrl) && fresh(windowCtrl)
      ensures !inputCtrl.Attached() && !windowCtrl.Attached()
      ensures !drawBack
    {
      glv := new Glv(maxMouseButtons);
      inputCtrl := new InputEventHandler();
      windowCtrl := new WindowEventHandler();
      drawBack := false;
    }

    /** GLVBinding::bindTo: the input control goes first in the input chain,
        the window control last in the window chain. */
    method BindTo(win: Window)
      modifies win
      ensures win.inputHandlers == [inputCtrl] + old(win.inputHandlers)
      ensures win.windowHandlers == old(win.windowHandlers) + [windowCtrl]
      ensures win.created == old(win.created) && win.dims == old(win.dims)
    {
      win.PrependInput(inputCtrl);
      win.AppendWindow(windowCtrl);
    }
  }

  // ---------------------------------------------------------------- detachable panel

  /** A GLV panel hosted either in a parent window or in a floating window of
      its own. The floating window is detachedWindow(); the panel is detached
      exactly while that window is created. */
  class GLVDetachable {
    const glv: Glv
    const inputControl: InputEventHandler
    const windowControl: WindowEventHandler
    const floating: Window
    var parent: Window?
    var children: seq<Rect>
    var left: int
    var top: int
    var drawBack: bool

    ghost predicate Valid()
      reads this
    {
      parent != floating
    }

    /** GLVDetachable::detached(): its body is not among the modelled files;
        the panel counts as detached exactly while its floating window is
        created. */
    predicate Detached()
      reads this, floating
    {
      floating.created
    }

    /** The panel's controls are registered on the window it is shown in and
        on no other of its two windows. */
    ghost predicate Docked()
      reads this, floating, parent
    {
      if Detached() then
        inputControl in floating.inputHandlers && windowControl in floating.windowHandlers &&
        (parent != null ==> inputControl !in parent.inputHandlers && windowControl !in parent.windowHandlers)
      else
        inputControl !in floating.inputHandlers && windowControl !in floating.windowHandlers &&
        (parent != null ==> inputControl in parent.inputHandlers && windowControl in parent.windowHandlers)
    }

    /** GLVDetachable(): no parent, not detached, no children. */
    constructor (maxMouseButtons: nat)
      ensures Valid() && Docked() && !Detached()
      ensures parent == null && children == [] && left == 0 && top == 0 && !drawBack
      ensures fresh(glv) && fresh(glv.buttons) && glv.buttons.Length == maxMouseButtons
      ensures fresh(inputControl) && fresh(windowControl) && fresh(floating)
    {
      glv := new Glv(maxMouseButtons);
      inputControl := new InputEventHandler();
      windowControl := new WindowEventHandler();
      floating := new Window();
      parent := null;
      children := [];
      left, top := 0, 0;
      drawBack := false;
    }

    /** GLVDetachable(Window&): parentWindow(parent), which registers the
        controls on it. */
    constructor WithParent(p: Window, maxMouseButtons: nat)
      modifies p
      ensures Valid() && Docked() && !Detached()
      ensures parent == p && children == [] && left == 0 && top == 0 && !drawBack
      ensures p.inputHandlers == [inputControl] + old(p.inputHandlers)
      ensures p.windowHandlers == old(p.windowHandlers) + [windowControl]
      ensures p.created == old(p.created) && p.dims == old(p.dims)
      ensures fresh(glv) && fresh(glv.buttons) && glv.buttons.Length == maxMouseButtons
      ensures fresh(inputControl) && fresh(windowControl) && fresh(floating)
    {
      glv := new Glv(maxMouseButtons);
      inputControl := new InputEventHandler();
      windowControl := new WindowEventHandler();
      floating := new Window();
      parent := null;
      children := [];
      left, top := 0, 0;
      drawBack := false;
      new;
      SetParent(p);
    }

    /** GLVDetachable::addGUI: input control first, window control last. */
    method AddGUI(w: Window)
      modifies w
      ensures w.inputHandlers == [inputControl] + old(w.inputHandlers)
      ensures w.windowHandlers == old(w.windowHandlers) + [windowControl]
      ensures w.created == old(w.created) && w.dims == old(w.dims)
    {
      w.PrependInput(inputControl);
      w.AppendWindow(windowControl);
    }

    /** GLVDetachable::remGUI: every entry of either control is removed. */
    method RemGUI(w: Window)
      modifies w
      ensures w.inputHandlers == Without(old(w.inputHandlers), inputControl)
      ensures w.windowHandlers == Without(old(w.windowHandlers), windowControl)
      ensures w.created == old(w.created) && w.dims == old(w.dims)
    {
      w.RemoveInput(inputControl);
      w.RemoveWindow(windowControl);
    }

    /** The child walk of detached(true): posAdd on every child. */
    method ReOrigin(dx: int, dy: int)
      modifies this`children
      ensures children == ShiftAll(old(children), dx, dy)
    {
      var i := 0;
      while i < |children|
        invariant 0 <= i <= |children| == |old(children)|
        invariant forall j :: 0 <= j < i ==> children[j] == PosAdd(old(children)[j], dx, dy)
        invariant forall j :: i <= j < |children| ==> children[j] == old(children)[j]
      {
        children := children[i := PosAdd(children[i], dx, dy)];
        i := i + 1;
      }
      ghost var s := ShiftAll(old(children), dx, dy);
      assert forall j :: 0 <= j < |s| ==> s[j] == PosAdd(old(children)[j], dx, dy);
    }

    /** The new state after the detach branch of detached(v) (lines 121-145):
        the controls leave the parent, the children are re-origined, and the
        floating window is created at the parent's corner with the union's size
        and hosts the controls. */
    twostate predicate DetachEffect()
      reads this, floating, parent
    {
      var u := UnionOfChildren(old(children));
      parent == old(parent) &&
      (parent != null ==>
        parent.inputHandlers == Without(old(parent.inputHandlers), inputControl) &&
        parent.windowHandlers == Without(old(parent.windowHandlers), windowControl) &&
        parent.created == old(parent.created) && parent.dims == old(parent.dims)) &&
      children == ShiftAll(old(children), -u.l, -u.t) &&
      floating.created &&
      floating.dims == (if parent != null then Dim(old(parent.dims.l), old(parent.dims.t), u.w, u.h)
                        else Dim(0, 0, u.w, u.h)) &&
      floating.inputHandlers == [inputControl] + old(floating.inputHandlers) &&
      floating.windowHandlers == old(floating.windowHandlers) + [windowControl] &&
      drawBack && left == old(left) && top == old(top)
    }

    /** The new state after the attach branch of detached(v) (lines 146-154):
        the controls leave the floating window, which is destroyed; with a
        parent, the panel goes back to (0,0) without background and the
        controls are registered on the parent. The children are not moved back. */
    twostate predicate AttachEffect()
      reads this, floating, parent
    {
      parent == old(parent) &&
      !floating.created &&
      floating.inputHandlers == Without(old(floating.inputHandlers), inputControl) &&
      floating.windowHandlers == Without(old(floating.windowHandlers), windowControl) &&
      floating.dims == old(floating.dims) && children == old(children) &&
      (parent != null ==>
        parent.inputHandlers == [inputControl] + old(parent.inputHandlers) &&
        parent.windowHandlers == old(parent.windowHandlers) + [windowControl] &&
        parent.created == old(parent.created) && parent.dims == old(parent.dims) &&
        left == 0 && top == 0 && !drawBack) &&
      (parent == null ==> left == old(left) && top == old(top) && drawBack == old(drawBack))
    }

    /** Neither branch taken: windows, registrations and children are as before. */
    twostate predicate StayEffect()
      reads this, floating, parent
    {
      parent == old(parent) &&
      children == old(children) && left == old(left) && top == old(top) && drawBack == old(drawBack) &&
      unchanged(floating) && (parent != null ==> unchanged(parent))
    }

    /** The detach branch of detached(v), taken on an attached panel. */
    method DetachStep()
      requires Valid() && !Detached()
      modifies this, floating, parent
      ensures Valid() && DetachEffect()
      ensures old(Docked()) ==> Docked()
    {
      ghost var fi, fw := floating.inputHandlers, floating.windowHandlers;
      var pl, pt := 0, 0;
      if parent != null {
        pl := parent.dims.l;
        pt := parent.dims.t;
        RemGUI(parent);
      }
      assert floating.inputHandlers == fi && floating.windowHandlers == fw;
      var ru := UnionOfChildren(children);
      drawBack := true;
      ReOrigin(-ru.l, -ru.t);
      floating.Create(Dim(pl, pt, ru.w, ru.h));
      AddGUI(floating);
    }

    /** The attach branch of detached(v), taken on a detached panel. */
    method AttachStep()
      requires Valid() && Detached()
      modifies this, floating, parent
      ensures Valid() && AttachEffect()
      ensures old(Docked()) ==> Docked()
    {
      RemGUI(floating);
      floating.Destroy();
      if parent != null {
        drawBack := false;
        left, top := 0, 0;
        AddGUI(parent);
      }
    }

    /** GLVDetachable::detached(v), with the attach branch taken only when v
        is false (SetDetachedAsWritten is the branch test as written). */
    method SetDetached(v: bool)
      requires Valid()
      modifies this, floating, parent, glv.buttons
      ensures Valid() && parent == old(parent)
      ensures Detached() == v
      ensures glv.AllButtonsUp()
      ensures old(Docked()) ==> Docked()
      ensures DockStep(v, old(Detached())) == Detach ==> DetachEffect()
      ensures DockStep(v, old(Detached())) == Attach ==> AttachEffect()
      ensures DockStep(v, old(Detached())) == Stay ==> StayEffect()
    {
      var step := DockStep(v, floating.created);
      if step == Detach {
        DetachStep();
      } else if step == Attach {
        AttachStep();
      }
      glv.ReleaseAllButtons();
    }

    /** GLVDetachable::detached(v) exactly as written: the second test reads
        only "is detached", so detached(true) on a detached panel takes the
        attach branch and leaves the panel attached. */
    method SetDetachedAsWritten(v: bool)
      requires Valid()
      modifies this, floating, parent, glv.buttons
      ensures Valid() && parent == old(parent)
      ensures Detached() == (v && !old(Detached()))
      ensures glv.AllButtonsUp()
      ensures old(Docked()) ==> Docked()
      ensures DockStepAsWritten(v, old(Detached())) == Detach ==> DetachEffect()
      ensures DockStepAsWritten(v, old(Detached())) == Attach ==> AttachEffect()
      ensures DockStepAsWritten(v, old(Detached())) == Stay ==> StayEffect()
      ensures v && old(Detached()) ==> !Detached() && AttachEffect()
    {
      var step := DockStepAsWritten(v, floating.created);
      if step == Detach {
        DetachStep();
      } else if step == Attach {
        AttachStep();
      }
      glv.ReleaseAllButtons();
    }

    /** GLVDetachable::parentWindow(v): re-hosts an attached panel on v; a
        detached panel only records v. */
    method SetParent(v: Window)
      requires Valid() && v != floating
      modifies this, parent, v
      ensures Valid() && parent == v
      ensures children == old(children) && left == old(left) && top == old(top)
      ensures v.created == old(v.created) && v.dims == old(v.dims)
      ensures old(parent) == v ==>
        drawBack == old(drawBack) &&
        v.inputHandlers == old(v.inputHandlers) && v.windowHandlers == old(v.windowHandlers)
      ensures old(parent) != v && !Detached() ==>
        (old(parent) != null ==>
          old(parent).inputHandlers == Without(old(parent.inputHandlers), inputControl) &&
          old(parent).windowHandlers == Without(old(parent.windowHandlers), windowControl) &&
          old(parent).created == old(parent.created) && old(parent).dims == old(parent.dims)) &&
        v.inputHandlers == [inputControl] + old(v.inputHandlers) &&
        v.windowHandlers == old(v.windowHandlers) + [windowControl] &&
        !drawBack
      ensures old(parent) != v && Detached() ==>
        drawBack == old(drawBack) && unchanged(v) && (old(parent) != null ==> unchanged(old(parent)))
      ensures old(Docked()) &&
        (old(parent) != v ==> inputControl !in old(v.inputHandlers) && windowControl !in old(v.windowHandlers))
        ==> Docked()
    {
      if v != parent {
        if !floating.created {
          if parent != null {
            RemGUI(parent);
          }
          parent := v;
          drawBack := false;
          AddGUI(v);
        } else {
          parent := v;
        }
      }
    }

    /** ntDetachedButton: the toggle's value decides detached(true) or
        detached(false), through detached(v) as written. */
    method OnDetachedButton(value: bool)
      requires Valid()
      modifies this, floating, parent, glv.buttons
      ensures Valid() && parent == old(parent)
      ensures Detached() == (value && !old(Detached()))
      ensures glv.AllButtonsUp()
      ensures old(Docked()) ==> Docked()
      ensures DockStepAsWritten(value, old(Detached())) == Detach ==> DetachEffect()
      ensures DockStepAsWritten(value, old(Detached())) == Attach ==> AttachEffect()
      ensures DockStepAsWritten(value, old(Detached())) == Stay ==> StayEffect()
    {
      if value {
        SetDetachedAsWritten(true);
      } else {
        SetDetachedAsWritten(false);
      }
    }

    /** Detaching and re-attaching a docked panel: the floating window's lists
        are as before, the children stay re-origined, and the controls are back
        at the head and tail of the parent's lists. */
    method DetachAndReattach()
      requires Valid() && Docked() && !Detached()
      modifies this, floating, parent, glv.buttons
      ensures Valid() && Docked() && !Detached() && parent == old(parent)
      ensures floating.inputHandlers == old(floating.inputHandlers)
      ensures floating.windowHandlers == old(floating.windowHandlers)
      ensures children == ReOrigined(old(children))
      ensures parent != null ==>
        parent.inputHandlers == [inputControl] + Without(old(parent.inputHandlers), inputControl) &&
        parent.windowHandlers == Without(old(parent.windowHandlers), windowControl) + [windowControl] &&
        left == 0 && top == 0
      ensures glv.AllButtonsUp()
    {
      ghost var fi, fw := floating.inputHandlers, floating.windowHandlers;
      ghost var cs := children;
      assert inputControl !in fi && windowControl !in fw;
      assert DockStep(true, false) == Detach && DockStep(false, true) == Attach;
      SetDetached(true);
      assert floating.inputHandlers == [inputControl] + fi;
      assert floating.windowHandlers == fw + [windowControl];
      assert children == ReOrigined(cs);
      SetDetached(false);
      RemoveUndoesAdd(fi, inputControl);
      RemoveUndoesAdd(fw, windowControl);
    }
  }
}
