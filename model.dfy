/**
 * The value-level model of a widget: the state that `Widget::dispatch`
 * reads and writes, the window messages it receives (already decoded), the
 * hooks it fires and the OS requests it makes, and the pure transition
 * `Step` that specifies one dispatch.
 */
module WidgetModel {

  /** Win32's "use the platform default" sentinel, `(int)0x80000000`. */
  const CW_USEDEFAULT: int := -0x8000_0000

  /** A min/max bound of -1 leaves that dimension unconstrained. */
  const UNBOUNDED: int := -1

  /** The `SetWindowPos` / `WINDOWPOS.flags` bits the widget uses. */
  const SWP_NOSIZE: bv32 := 0x0001
  const SWP_NOMOVE: bv32 := 0x0002
  const SWP_NOZORDER: bv32 := 0x0004

  datatype Option<T> = None | Some(value: T)

  datatype Point = Point(x: int, y: int)

  /** Win32's MINMAXINFO, which the size-negotiation message fills in place. */
  datatype MinMaxInfo = MinMaxInfo(
    reserved: Point,
    maxSize: Point,
    maxPosition: Point,
    minTrackSize: Point,
    maxTrackSize: Point)

  /** The window style `setup` asks for: a decorated popup, or an embedded child. */
  datatype Style = TopLevel | Child

  /** The virtual hooks, by name and arguments, in the order they fire. */
  datatype Hook =
    | Created
    | Moved(x: int, y: int)
    | Resized(width: int, height: int, kind: int)
    | MouseHover(x: int, y: int)
    | MouseLeave
    | MousePress(x: int, y: int, keys: int)
    | MouseRelease(x: int, y: int, keys: int)
    | Clicked(x: int, y: int, keys: int)
    | DoubleClicked(x: int, y: int, keys: int)
    | KeyDown(key: int)
    | MouseMove(x: int, y: int, keys: int)
    | WheelChange(x: int, y: int, delta: int, keys: int)
    | Render

  /** Requests made to the windowing system, in the order they are made. */
  datatype OsCall =
    | SetWindowPos(x: int, y: int, cx: int, cy: int, flags: bv32)
    | SetWindowText(text: string)
    | SetParent(parent: int)
    | RegisterClass
    | CreateWindow(title: string, style: Style, x: int, y: int, width: int, height: int, parent: int)
    | ShowWindow(mode: int)
    | InvalidateClient(erase: bool)
    | SetFocus
    | TrackMouseEvent
    | DefWindowProc
    | DestroyWindow
    | PostQuitMessage(code: int)

  /**
   * One window message, with its parameters already decoded. The non-client
   * overhead (window extent minus client extent) is part of the message,
   * where the source asks the OS for the two rectangles.
   */
  datatype Event =
    | Create(hwnd: int, hasParent: bool, ncWidth: int, ncHeight: int)
    | Focus
    | PosChanged(flags: bv32, cx: int, cy: int, x: int, y: int, ncWidth: int, ncHeight: int)
    | SysCommand
    | GetMinMax(info: MinMaxInfo, ncWidth: int, ncHeight: int)
    | MoveNote(x: int, y: int)
    | SizeNote(width: int, height: int, kind: int)
    | Hover(x: int, y: int)
    | Leave
    | ButtonDown(x: int, y: int, keys: int)
    | ButtonUp(x: int, y: int, keys: int)
    | ButtonDoubleClick(x: int, y: int, keys: int)
    | Key(key: int)
    | Motion(x: int, y: int, keys: int)
    | Wheel(screenX: int, screenY: int, left: int, top: int, delta: int, keys: int)
    | Paint
    | Close
    | Destroy
    | Other(msg: int)

  /** The fields of a widget that dispatch reads or writes. */
  datatype State = State(
    width: int, height: int, posX: int, posY: int,
    minWidth: int, minHeight: int, maxWidth: int, maxHeight: int,
    isSetup: bool, hwnd: int,
    preclicked: bool, clickedX: int, clickedY: int,
    trackEnabled: bool, tracking: bool)

  /** What one dispatch does: the new state, the hooks fired, whether hover
      tracking was armed, the filled-in MINMAXINFO (size negotiation only)
      and the OS requests made. */
  datatype Reaction = Reaction(
    after: State,
    hooks: seq<Hook>,
    armed: bool,
    answer: Option<MinMaxInfo>,
    calls: seq<OsCall>)

  /** Hover tracking can only be active while it is enabled. */
  predicate Consistent(s: State) {
    s.tracking ==> s.trackEnabled
  }

  predicate SameGeometry(s: State, t: State) {
    s.width == t.width && s.height == t.height && s.posX == t.posX && s.posY == t.posY
  }

  predicate SameBounds(s: State, t: State) {
    s.minWidth == t.minWidth && s.minHeight == t.minHeight &&
    s.maxWidth == t.maxWidth && s.maxHeight == t.maxHeight
  }

  /** A release completes a click when a press is pending at exactly the released point. */
  predicate ClickFires(s: State, e: Event) {
    e.ButtonUp? && s.preclicked && e.x == s.clickedX && e.y == s.clickedY
  }

  function TrackSize(bound: int, overhead: int, current: int): int {
    if bound != UNBOUNDED then bound + overhead else current
  }

  /**
   * The answer to the size-negotiation query: each of the four track-size
   * coordinates becomes its bound plus the non-client overhead, unless the
   * bound is unconstrained, in which case it keeps the value the OS offered.
   */
  function Negotiate(minW: int, minH: int, maxW: int, maxH: int, ncw: int, nch: int, info: MinMaxInfo): (r: MinMaxInfo)
    ensures minW != UNBOUNDED ==> r.minTrackSize.x == minW + ncw
    ensures minW == UNBOUNDED ==> r.minTrackSize.x == info.minTrackSize.x
    ensures minH != UNBOUNDED ==> r.minTrackSize.y == minH + nch
    ensures minH == UNBOUNDED ==> r.minTrackSize.y == info.minTrackSize.y
    ensures maxW != UNBOUNDED ==> r.maxTrackSize.x == maxW + ncw
    ensures maxW == UNBOUNDED ==> r.maxTrackSize.x == info.maxTrackSize.x
    ensures maxH != UNBOUNDED ==> r.maxTrackSize.y == maxH + nch
    ensures maxH == UNBOUNDED ==> r.maxTrackSize.y == info.maxTrackSize.y
    ensures r.reserved == info.reserved && r.maxSize == info.maxSize && r.maxPosition == info.maxPosition
  {
    info.(minTrackSize := Point(TrackSize(minW, ncw, info.minTrackSize.x), TrackSize(minH, nch, info.minTrackSize.y)),
          maxTrackSize := Point(TrackSize(maxW, ncw, info.maxTrackSize.x), TrackSize(maxH, nch, info.maxTrackSize.y)))
  }

  /** Answering the query a second time changes nothing: the answer depends
      on the offered values only where the bound is unconstrained. */
  lemma NegotiateIdempotent(minW: int, minH: int, maxW: int, maxH: int, ncw: int, nch: int, info: MinMaxInfo)
    ensures var once := Negotiate(minW, minH, maxW, maxH, ncw, nch, info);
            Negotiate(minW, minH, maxW, maxH, ncw, nch, once) == once
  {
  }

  /** Bounds given in the right order produce track sizes in the right order. */
  lemma NegotiateKeepsOrder(minW: int, minH: int, maxW: int, maxH: int, ncw: int, nch: int, info: MinMaxInfo)
    requires minW != UNBOUNDED && maxW != UNBOUNDED && minW <= maxW
    requires minH != UNBOUNDED && maxH != UNBOUNDED && minH <= maxH
    ensures var r := Negotiate(minW, minH, maxW, maxH, ncw, nch, info);
            r.minTrackSize.x <= r.maxTrackSize.x && r.minTrackSize.y <= r.maxTrackSize.y
  {
  }

  /** With every bound unconstrained the OS's offer is returned untouched. */
  lemma NegotiateUnbounded(ncw: int, nch: int, info: MinMaxInfo)
    ensures Negotiate(UNBOUNDED, UNBOUNDED, UNBOUNDED, UNBOUNDED, ncw, nch, info) == info
  {
  }

  function Quiet(s: State, hooks: seq<Hook>, calls: seq<OsCall>): Reaction {
    Reaction(s, hooks, false, None, calls)
  }

  /** A button release: `mouse_release` always fires, `clicked` follows it
      exactly when a press is pending at the same point, and afterwards no
      press is pending. */
  function Release(s: State, x: int, y: int, keys: int): (r: Reaction)
    ensures !r.after.preclicked && r.after == s.(preclicked := false)
    ensures |r.hooks| > 0 && r.hooks[0] == MouseRelease(x, y, keys)
    ensures Clicked(x, y, keys) in r.hooks <==> s.preclicked && x == s.clickedX && y == s.clickedY
    ensures forall h :: h in r.hooks && h.Clicked? ==> h == Clicked(x, y, keys)
    ensures !r.armed && r.answer == None && r.calls == []
  {
    var click := if s.preclicked && x == s.clickedX && y == s.clickedY then [Clicked(x, y, keys)] else [];
    Quiet(s.(preclicked := false), [MouseRelease(x, y, keys)] + click, [])
  }

  /** A mouse move: `mouse_move` fires, and hover tracking is armed (one
      TrackMouseEvent request) exactly when it is enabled and not already
      active; afterwards it is active if it was or if it is enabled. */
  function MouseMoved(s: State, x: int, y: int, keys: int): (r: Reaction)
    ensures r.armed <==> s.trackEnabled && !s.tracking
    ensures r.calls == (if r.armed then [TrackMouseEvent] else [])
    ensures r.after == s.(tracking := s.tracking || s.trackEnabled)
    ensures r.hooks == [MouseMove(x, y, keys)] && r.answer == None
  {
    var arm := s.trackEnabled && !s.tracking;
    Reaction(if arm then s.(tracking := true) else s, [MouseMove(x, y, keys)], arm, None,
             if arm then [TrackMouseEvent] else [])
  }

  /** A position change: the client size is recomputed from the new window
      size unless SWP_NOSIZE is set, the position is taken unless SWP_NOMOVE
      is set, and nothing else changes. */
  function Place(s: State, flags: bv32, cx: int, cy: int, x: int, y: int, ncw: int, nch: int): (t: State)
    ensures flags & SWP_NOSIZE == 0 ==> t.width == cx - ncw && t.height == cy - nch
    ensures flags & SWP_NOSIZE != 0 ==> t.width == s.width && t.height == s.height
    ensures flags & SWP_NOMOVE == 0 ==> t.posX == x && t.posY == y
    ensures flags & SWP_NOMOVE != 0 ==> t.posX == s.posX && t.posY == s.posY
    ensures t == s.(width := t.width, height := t.height, posX := t.posX, posY := t.posY)
  {
    var sized := if flags & SWP_NOSIZE == 0 then s.(width := cx - ncw, height := cy - nch) else s;
    if flags & SWP_NOMOVE == 0 then sized.(posX := x, posY := y) else sized
  }

  /** One dispatch of `e` to a widget in state `s`. */
  function Step(s: State, e: Event): (r: Reaction)
    // dispatch never touches the enable flag or the bounds, and keeps tracking consistent
    ensures r.after.trackEnabled == s.trackEnabled && SameBounds(s, r.after)
    ensures Consistent(s) ==> Consistent(r.after)
  {
    match e
    case Create(h, hasParent, ncw, nch) =>
      var calls := if hasParent then [] else [SetWindowPos(0, 0, ncw + s.width, nch + s.height, SWP_NOMOVE | SWP_NOZORDER)];
      Quiet(s.(hwnd := h, isSetup := true), [Created], calls)
    case Focus =>
      Quiet(s, [], [SetFocus])
    case PosChanged(flags, cx, cy, x, y, ncw, nch) =>
      Quiet(Place(s, flags, cx, cy, x, y, ncw, nch), [], [DefWindowProc])
    case SysCommand =>
      Quiet(s, [], [DefWindowProc])
    case GetMinMax(info, ncw, nch) =>
      Reaction(s, [], false, Some(Negotiate(s.minWidth, s.minHeight, s.maxWidth, s.maxHeight, ncw, nch, info)), [])
    case MoveNote(x, y) =>
      Quiet(s, [Moved(x, y)], [])
    case SizeNote(w, h, kind) =>
      Quiet(s, [Resized(w, h, kind)], [])
    case Hover(x, y) =>
      Quiet(s, [MouseHover(x, y)], [])
    case Leave =>
      Quiet(s.(preclicked := false, tracking := false), [MouseLeave], [])
    case ButtonDown(x, y, keys) =>
      Quiet(s.(preclicked := true, clickedX := x, clickedY := y), [MousePress(x, y, keys)], [])
    case ButtonUp(x, y, keys) =>
      Release(s, x, y, keys)
    case ButtonDoubleClick(x, y, keys) =>
      Quiet(s, [DoubleClicked(x, y, keys)], [])
    case Key(key) =>
      Quiet(s, [KeyDown(key)], [])
    case Motion(x, y, keys) =>
      MouseMoved(s, x, y, keys)
    case Wheel(sx, sy, left, top, delta, keys) =>
      Quiet(s, [WheelChange(sx - left, sy - top, delta, keys)], [])
    case Paint =>
      Quiet(s, [Render], [])
    case Close =>
      Quiet(s, [], [DestroyWindow])
    case Destroy =>
      Quiet(s, [], [PostQuitMessage(0)])
    case Other(_) =>
      Quiet(s, [], [DefWindowProc])
  }

  /** Only the creation message binds the window handle and marks the widget
      live; it fires `created`. */
  lemma StepLifecycle(s: State, e: Event)
    ensures var r := Step(s, e);
            r.after.isSetup == (s.isSetup || e.Create?) &&
            r.after.hwnd == (if e.Create? then e.hwnd else s.hwnd) &&
            (e.Create? ==> Created in r.hooks)
  {
  }

  /** Press and release: a press records its point and leaves a press
      pending; a release clears it; `clicked` fires only on a release that
      completes a click, and then exactly once, after `mouse_release`. */
  lemma StepPressRelease(s: State, e: Event)
    ensures var r := Step(s, e);
            (e.ButtonDown? ==> r.after.preclicked && r.after.clickedX == e.x && r.after.clickedY == e.y) &&
            (!e.ButtonDown? ==> r.after.clickedX == s.clickedX && r.after.clickedY == s.clickedY) &&
            (e.ButtonUp? ==> !r.after.preclicked && r.hooks[0] == MouseRelease(e.x, e.y, e.keys)) &&
            (e.ButtonUp? ==> |r.hooks| == if ClickFires(s, e) then 2 else 1) &&
            (!(e.ButtonDown? || e.ButtonUp? || e.Leave?) ==> r.after.preclicked == s.preclicked) &&
            (ClickFires(s, e) ==> Clicked(e.x, e.y, e.keys) in r.hooks)
    ensures forall h :: h in Step(s, e).hooks && h.Clicked? ==> ClickFires(s, e) && h == Clicked(e.x, e.y, e.keys)
  {
  }

  /** A leave clears the pending press and hover tracking, whatever the
      prior state, and changes no geometry. */
  lemma StepLeave(s: State)
    ensures var r := Step(s, Leave);
            !r.after.preclicked && !r.after.tracking && SameGeometry(s, r.after) && r.hooks == [MouseLeave]
  {
  }

  /** Hover tracking is armed only by a mouse move, exactly when it is
      enabled and not active, and only a move or a leave changes whether it
      is active. */
  lemma StepTracking(s: State, e: Event)
    ensures var r := Step(s, e);
            (r.armed <==> e.Motion? && s.trackEnabled && !s.tracking) &&
            (r.armed <==> TrackMouseEvent in r.calls) &&
            (e.Motion? ==> r.after.tracking == (s.tracking || s.trackEnabled)) &&
            (!(e.Motion? || e.Leave?) ==> r.after.tracking == s.tracking)
  {
  }

  /** Only a position change alters the geometry, and only the parts its
      flags do not exclude. */
  lemma StepGeometry(s: State, e: Event)
    ensures var r := Step(s, e);
            (!e.PosChanged? ==> SameGeometry(s, r.after)) &&
            (e.PosChanged? && e.flags & SWP_NOSIZE == 0 ==>
               r.after.width == e.cx - e.ncWidth && r.after.height == e.cy - e.ncHeight) &&
            (e.PosChanged? && e.flags & SWP_NOSIZE != 0 ==>
               r.after.width == s.width && r.after.height == s.height) &&
            (e.PosChanged? && e.flags & SWP_NOMOVE == 0 ==> r.after.posX == e.x && r.after.posY == e.y) &&
            (e.PosChanged? && e.flags & SWP_NOMOVE != 0 ==> r.after.posX == s.posX && r.after.posY == s.posY)
  {
  }

  /** Only the size-negotiation query is answered, from the stored bounds;
      the position change, system commands and unknown messages are handed
      on to the default window procedure. */
  lemma StepReplies(s: State, e: Event)
    ensures var r := Step(s, e);
            (r.answer.Some? <==> e.GetMinMax?) &&
            (e.GetMinMax? ==>
               r.answer.value == Negotiate(s.minWidth, s.minHeight, s.maxWidth, s.maxHeight, e.ncWidth, e.ncHeight, e.info)) &&
            (DefWindowProc in r.calls <==> e.PosChanged? || e.SysCommand? || e.Other?)
  {
  }
  /** A press followed by a release fires `clicked` exactly when the two
      points coincide, whatever came before. */
  lemma PressThenRelease(s: State, x: int, y: int, keys: int, x2: int, y2: int, keys2: int)
    ensures var pressed := Step(s, ButtonDown(x, y, keys)).after;
            var released := Step(pressed, ButtonUp(x2, y2, keys2));
            (Clicked(x2, y2, keys2) in released.hooks <==> x == x2 && y == y2) && !released.after.preclicked
  {
  }

  /** Two mouse moves in a row arm hover tracking at most once. */
  lemma TwoMovesArmOnce(s: State, m1: Event, m2: Event)
    requires m1.Motion? && m2.Motion?
    ensures !(Step(s, m1).armed && Step(Step(s, m1).after, m2).armed)
  {
  }

  // ---------------------------------------------------------------------
  // Runs of several messages

  /** The state after dispatching `es` in order. */
  function Run(s: State, es: seq<Event>): State
    decreases |es|
  {
    if es == [] then s else Run(Step(s, es[0]).after, es[1..])
  }

  /** How many times hover tracking is armed along a run. */
  function Arms(s: State, es: seq<Event>): nat
    decreases |es|
  {
    if es == [] then 0
    else var r := Step(s, es[0]); (if r.armed then 1 else 0) + Arms(r.after, es[1..])
  }

  function Leaves(es: seq<Event>): nat {
    if es == [] then 0 else (if es[0].Leave? then 1 else 0) + Leaves(es[1..])
  }

  predicate HasClick(hooks: seq<Hook>) {
    exists k :: 0 <= k < |hooks| && hooks[k].Clicked?
  }

  /** How many `clicked` hooks fire along a run. */
  function Clicks(s: State, es: seq<Event>): nat
    decreases |es|
  {
    if es == [] then 0
    else var r := Step(s, es[0]); (if HasClick(r.hooks) then 1 else 0) + Clicks(r.after, es[1..])
  }

  function Presses(es: seq<Event>): nat {
    if es == [] then 0 else (if es[0].ButtonDown? then 1 else 0) + Presses(es[1..])
  }

  /** One message arms tracking only if tracking was inactive, and leaves it
      inactive only if it was inactive and not armed, or the message is a leave. */
  lemma ArmStep(s: State, e: Event)
    ensures var r := Step(s, e);
            (if r.armed then 1 else 0) + (if r.after.tracking then 0 else 1) <=
            (if s.tracking then 0 else 1) + (if e.Leave? then 1 else 0)
  {
  }

  /** Every arming of hover tracking but the first needs a leave before it:
      a run arms at most as often as it has leaves, plus one if tracking
      was inactive at the start. */
  lemma {:induction false} ArmsBoundedByLeaves(s: State, es: seq<Event>)
    ensures Arms(s, es) <= (if s.tracking then 0 else 1) + Leaves(es)
    decreases |es|
  {
    if es != [] {
      ArmStep(s, es[0]);
      ArmsBoundedByLeaves(Step(s, es[0]).after, es[1..]);
    }
  }

  /** Any run of messages without a leave arms hover tracking at most once. */
  lemma {:induction false} ArmsWithoutLeave(s: State, es: seq<Event>)
    requires Leaves(es) == 0
    ensures Arms(s, es) <= 1
  {
    ArmsBoundedByLeaves(s, es);
  }

  /** Every `clicked` consumes a press: a run fires no more clicks than it
      has presses, plus one for a press already pending. */
  lemma {:induction false} ClicksBoundedByPresses(s: State, es: seq<Event>)
    ensures Clicks(s, es) <= (if s.preclicked then 1 else 0) + Presses(es)
    decreases |es|
  {
    if es != [] {
      ClickStep(s, es[0]);
      ClicksBoundedByPresses(Step(s, es[0]).after, es[1..]);
    }
  }

  /** One message fires `clicked` only by consuming a pending press, and
      leaves a press pending only if one was or the message is a press. */
  lemma ClickStep(s: State, e: Event)
    ensures var r := Step(s, e);
            (if HasClick(r.hooks) then 1 else 0) + (if r.after.preclicked then 1 else 0) <=
            (if s.preclicked then 1 else 0) + (if e.ButtonDown? then 1 else 0)
  {
  }

  /** A run keeps tracking consistent with the enable flag, and never changes
      the enable flag or the bounds. */
  lemma {:induction false} RunPreserves(s: State, es: seq<Event>)
    requires Consistent(s)
    ensures var t := Run(s, es); Consistent(t) && t.trackEnabled == s.trackEnabled && SameBounds(s, t)
    decreases |es|
  {
    if es != [] {
      RunPreserves(Step(s, es[0]).after, es[1..]);
    }
  }
}
