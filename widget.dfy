/**
 * The `Widget` class: its fields, its mutators, its lifecycle and its window
 * procedure, with every windowing-system call recorded in `requests`
 * instead of performed.
 */
module Widgets {
  import opened WidgetModel
  import opened CStrings

  class Widget {
    var width: int
    var height: int
    var posX: int
    var posY: int

    /** The title buffer (NULL until the first title) and its capacity, the
        length of the longest title it was allocated for. */
    var title: array?<char>
    var titleLen: nat

    var minWidth: int
    var minHeight: int
    var maxWidth: int
    var maxHeight: int

    var isSetup: bool
    /** The window handle; 0 stands for NULL. */
    var hwnd: int

    var preclicked: bool
    var clickedX: int
    var clickedY: int

    var trackEnabled: bool
    var tracking: bool

    /** The requests made to the windowing system on this widget's behalf. */
    var requests: seq<OsCall>

    ghost predicate Valid()
      reads this
    {
      (title == null ==> titleLen == 0) &&
      (title != null ==> title.Length == titleLen + 1) &&
      (tracking ==> trackEnabled) &&
      (isSetup ==> hwnd != 0)
    }

    /** The fields dispatch works on, as a value. */
    function Snapshot(): State
      reads this
    {
      State(width, height, posX, posY, minWidth, minHeight, maxWidth, maxHeight,
            isSetup, hwnd, preclicked, clickedX, clickedY, trackEnabled, tracking)
    }

    /** The title text the buffer holds. */
    function Title(): string
      reads this, title
    {
      if title == null then "" else CString(title[..])
    }

    /** A widget of default size and position. The initial bounds are
        parameters; their default values are not part of this model. */
    constructor (minW: int, minH: int, maxW: int, maxH: int)
      ensures Valid()
      ensures Snapshot() == State(CW_USEDEFAULT, CW_USEDEFAULT, CW_USEDEFAULT, CW_USEDEFAULT,
                                  minW, minH, maxW, maxH, false, 0, false, 0, 0, false, false)
      ensures title == null && titleLen == 0 && requests == []
    {
      width, height := CW_USEDEFAULT, CW_USEDEFAULT;
      posX, posY := CW_USEDEFAULT, CW_USEDEFAULT;
      title, titleLen := null, 0;
      minWidth, minHeight := minW, minH;
      maxWidth, maxHeight := maxW, maxH;
      isSetup, hwnd := false, 0;
      preclicked, clickedX, clickedY := false, 0, 0;
      trackEnabled, tracking := false, false;
      requests := [];
    }

    /** A widget of the given size at the default position. */
    constructor Sized(w: int, h: int, minW: int, minH: int, maxW: int, maxH: int)
      ensures Valid()
      ensures Snapshot() == State(w, h, CW_USEDEFAULT, CW_USEDEFAULT,
                                  minW, minH, maxW, maxH, false, 0, false, 0, 0, false, false)
      ensures title == null && titleLen == 0 && requests == []
    {
      width, height := CW_USEDEFAULT, CW_USEDEFAULT;
      posX, posY := CW_USEDEFAULT, CW_USEDEFAULT;
      title, titleLen := null, 0;
      preclicked, clickedX, clickedY := false, 0, 0;
      minWidth, minHeight := minW, minH;
      maxWidth, maxHeight := maxW, maxH;
      isSetup, hwnd := false, 0;
      trackEnabled, tracking := false, false;
      requests := [];
      new;
      Resize(w, h);
    }

    /** The width, with the default-size sentinel reported as 0. */
    function Width(): (r: int)
      reads this
      ensures r != CW_USEDEFAULT
      ensures width != CW_USEDEFAULT ==> r == width
      ensures width == CW_USEDEFAULT ==> r == 0
    {
      if width == CW_USEDEFAULT then 0 else width
    }

    /** The height, with the default-size sentinel reported as 0. */
    function Height(): (r: int)
      reads this
      ensures r != CW_USEDEFAULT
      ensures height != CW_USEDEFAULT ==> r == height
      ensures height == CW_USEDEFAULT ==> r == 0
    {
      if height == CW_USEDEFAULT then 0 else height
    }

    /** The horizontal position, with the default-position sentinel reported as 0. */
    function X(): (r: int)
      reads this
      ensures r != CW_USEDEFAULT
      ensures posX != CW_USEDEFAULT ==> r == posX
      ensures posX == CW_USEDEFAULT ==> r == 0
    {
      if posX == CW_USEDEFAULT then 0 else posX
    }

    /** The vertical position, with the default-position sentinel reported as 0. */
    function Y(): (r: int)
      reads this
      ensures r != CW_USEDEFAULT
      ensures posY != CW_USEDEFAULT ==> r == posY
      ensures posY == CW_USEDEFAULT ==> r == 0
    {
      if posY == CW_USEDEFAULT then 0 else posY
    }

    function MinBound(): (int, int)
      reads this
    {
      (minWidth, minHeight)
    }

    function MaxBound(): (int, int)
      reads this
    {
      (maxWidth, maxHeight)
    }

    /** Stores the size, live or not; a live widget also asks the OS to resize
        its window without moving it or changing its z-order. */
    method Resize(w: int, h: int)
      requires Valid()
      modifies this
      ensures Valid()
      ensures Snapshot() == old(Snapshot()).(width := w, height := h)
      ensures title == old(title) && titleLen == old(titleLen)
      ensures requests == old(requests) + (if isSetup then [SetWindowPos(0, 0, w, h, SWP_NOMOVE | SWP_NOZORDER)] else [])
    {
      width := w;
      height := h;
      if !isSetup {
        return;
      }
      requests := requests + [SetWindowPos(0, 0, width, height, SWP_NOMOVE | SWP_NOZORDER)];
    }

    /** Stores the position, live or not; a live widget also asks the OS to
        move its window without resizing it or changing its z-order. */
    method Move(x: int, y: int)
      requires Valid()
      modifies this
      ensures Valid()
      ensures Snapshot() == old(Snapshot()).(posX := x, posY := y)
      ensures title == old(title) && titleLen == old(titleLen)
      ensures requests == old(requests) + (if isSetup then [SetWindowPos(x, y, 0, 0, SWP_NOSIZE | SWP_NOZORDER)] else [])
    {
      posX := x;
      posY := y;
      if !isSetup {
        return;
      }
      requests := requests + [SetWindowPos(posX, posY, 0, 0, SWP_NOSIZE | SWP_NOZORDER)];
    }

    /** Copies `t` into the title buffer, reusing the buffer when `t` fits
        its capacity and replacing it otherwise; a live widget also pushes
        the text to its window. On a widget that never had a title the
        buffer is NULL, so the empty title would be copied into NULL. */
    method SetTitle(t: string)
      requires Valid()
      requires '\0' !in t
      requires title == null ==> t != ""
      modifies this, title
      ensures Valid()
      ensures Title() == t
      ensures |t| <= old(titleLen) ==> title == old(title) && titleLen == old(titleLen)
      ensures |t| > old(titleLen) ==> fresh(title) && titleLen == |t|
      ensures titleLen >= old(titleLen)
      ensures Snapshot() == old(Snapshot())
      ensures requests == old(requests) + (if isSetup then [SetWindowText(t)] else [])
    {
      var len := |t|;
      if titleLen >= len {
        StrCpy(title, t);
      } else {
        title := StrDup(t);
        titleLen := len;
      }
      CStringOfTerminated(title[..], t);
      if isSetup {
        requests := requests + [SetWindowText(Title())];
      }
    }

    /** Enables or disables hover tracking; disabling also ends any active tracking. */
    method EnableTrack(enable: bool)
      requires Valid()
      modifies this
      ensures Valid()
      ensures trackEnabled == enable
      ensures tracking == (enable && old(tracking))
      ensures Snapshot() == old(Snapshot()).(trackEnabled := enable, tracking := tracking)
      ensures title == old(title) && titleLen == old(titleLen) && requests == old(requests)
    {
      trackEnabled := enable;
      if !trackEnabled {
        tracking := false;
      }
    }

    /** Marks the whole client area dirty, if the widget is live. */
    method Redraw(erase: bool)
      requires Valid()
      modifies this
      ensures Valid()
      ensures Snapshot() == old(Snapshot())
      ensures title == old(title) && titleLen == old(titleLen)
      ensures requests == old(requests) + (if isSetup then [InvalidateClient(erase)] else [])
    {
      if !isSetup {
        return;
      }
      requests := requests + [InvalidateClient(erase)];
    }

    /** Stores the minimum client size, -1 meaning unconstrained. */
    method SetMinBound(w: int, h: int)
      requires Valid()
      modifies this
      ensures Valid()
      ensures MinBound() == (w, h) && MaxBound() == old(MaxBound())
      ensures Snapshot() == old(Snapshot()).(minWidth := w, minHeight := h)
      ensures title == old(title) && titleLen == old(titleLen) && requests == old(requests)
    {
      minWidth := w;
      minHeight := h;
    }

    /** Stores the maximum client size, -1 meaning unconstrained. */
    method SetMaxBound(w: int, h: int)
      requires Valid()
      modifies this
      ensures Valid()
      ensures MaxBound() == (w, h) && MinBound() == old(MinBound())
      ensures Snapshot() == old(Snapshot()).(maxWidth := w, maxHeight := h)
      ensures title == old(title) && titleLen == old(titleLen) && requests == old(requests)
    {
      maxWidth := w;
      maxHeight := h;
    }

    /**
     * Makes the widget live. A live widget is only re-parented (when both
     * handles are non-NULL); otherwise the window class is registered and a
     * window created, a decorated popup without a parent and an embedded
     * child with one. `created` is the handle window creation returns; the
     * source aborts when it is NULL. A live widget with a handle reads the
     * parent's handle without checking the parent for NULL.
     */
    method Setup(parent: Widget?, created: int)
      requires Valid()
      requires isSetup ==> parent != null
      requires !isSetup ==> created != 0
      modifies this
      ensures Valid() && isSetup
      ensures old(isSetup) ==>
                hwnd == old(hwnd) &&
                requests == old(requests) +
                  (if old(hwnd) != 0 && parent != null && old(parent.hwnd) != 0 then [SetParent(old(parent.hwnd))] else [])
      ensures !old(isSetup) ==>
                hwnd == created &&
                requests == old(requests) +
                  [RegisterClass,
                   CreateWindow(Title(), if parent == null then TopLevel else Child,
                                posX, posY, width, height, if parent == null then 0 else old(parent.hwnd))]
      ensures Snapshot() == old(Snapshot()).(isSetup := true, hwnd := hwnd)
      ensures title == old(title) && titleLen == old(titleLen)
    {
      if isSetup {
        if hwnd != 0 && parent.hwnd != 0 {
          requests := requests + [SetParent(parent.hwnd)];
        }
        return;
      }
      requests := requests + [RegisterClass];
      var parentHandle := if parent != null then parent.hwnd else 0;
      var style := if parent != null then Child else TopLevel;
      hwnd := created;
      requests := requests + [CreateWindow(Title(), style, posX, posY, width, height, parentHandle)];
      isSetup := true;
    }

    /** Asks the OS to change the window's visibility, if the widget is live. */
    method Show(mode: int)
      requires Valid()
      modifies this
      ensures Valid()
      ensures Snapshot() == old(Snapshot())
      ensures title == old(title) && titleLen == old(titleLen)
      ensures requests == old(requests) + (if isSetup then [ShowWindow(mode)] else [])
    {
      if isSetup {
        requests := requests + [ShowWindow(mode)];
      }
    }

    /**
     * Attaches `child`: first makes this widget live as a top-level window
     * (with handle `selfHandle`) if it is not yet, then sets the child up
     * with this widget as its parent (with handle `childHandle` if it has
     * to be created). Always reports success.
     */
    method AddWidget(child: Widget, selfHandle: int, childHandle: int) returns (ok: bool)
      requires Valid() && child.Valid()
      requires !isSetup ==> selfHandle != 0
      requires child != this && !child.isSetup ==> childHandle != 0
      modifies this, child
      ensures ok
      ensures Valid() && child.Valid() && isSetup && child.isSetup && hwnd != 0
      ensures hwnd == if old(isSetup) then old(hwnd) else selfHandle
      ensures child != this && !old(isSetup) ==>
                requests == old(requests) + [RegisterClass, CreateWindow(Title(), TopLevel, posX, posY, width, height, 0)]
      ensures child != this && old(isSetup) ==> requests == old(requests)
      ensures child == this ==>
                requests == old(requests) +
                  (if old(isSetup) then [] else [RegisterClass, CreateWindow(Title(), TopLevel, posX, posY, width, height, 0)]) +
                  [SetParent(hwnd)]
      ensures child != this && !old(child.isSetup) ==>
                child.hwnd == childHandle &&
                child.requests == old(child.requests) +
                  [RegisterClass, CreateWindow(child.Title(), Child, child.posX, child.posY, child.width, child.height, hwnd)]
      ensures child != this && old(child.isSetup) ==>
                child.hwnd == old(child.hwnd) &&
                child.requests == old(child.requests) +
                  (if old(child.hwnd) != 0 && hwnd != 0 then [SetParent(hwnd)] else [])
      ensures Snapshot() == old(Snapshot()).(isSetup := true, hwnd := hwnd)
      ensures title == old(title) && titleLen == old(titleLen)
      ensures child != this ==> child.Snapshot() == old(child.Snapshot()).(isSetup := true, hwnd := child.hwnd)
      ensures child.title == old(child.title) && child.titleLen == old(child.titleLen)
    {
      if !isSetup {
        Setup(null, selfHandle);
      }
      child.Setup(this, childHandle);
      ok := true;
    }

    /**
     * The window procedure for a message addressed to this widget: fires the
     * matching hooks, updates the click, tracking, geometry and lifecycle
     * state, and returns the hooks fired, whether hover tracking was armed
     * and, for the size-negotiation query, the filled-in MINMAXINFO.
     */
    method Dispatch(e: Event) returns (hooks: seq<Hook>, armed: bool, answer: Option<MinMaxInfo>)
      requires Valid()
      requires e.Create? ==> e.hwnd != 0
      modifies this
      ensures Valid()
      ensures var r := Step(old(Snapshot()), e);
              Snapshot() == r.after && hooks == r.hooks && armed == r.armed && answer == r.answer &&
              requests == old(requests) + r.calls
      ensures title == old(title) && titleLen == old(titleLen)
    {
      if e.Create? || e.PosChanged? || e.GetMinMax? {
        hooks, armed, answer := OnWindowMessage(e);
      } else if e.Leave? || e.ButtonDown? || e.ButtonUp? || e.Motion? {
        hooks, armed, answer := OnMouseMessage(e);
      } else {
        hooks, armed, answer := OnNotification(e);
      }
    }

    /** Creation, position change and size negotiation. */
    method OnWindowMessage(e: Event) returns (hooks: seq<Hook>, armed: bool, answer: Option<MinMaxInfo>)
      requires Valid()
      requires e.Create? || e.PosChanged? || e.GetMinMax?
      requires e.Create? ==> e.hwnd != 0
      modifies this
      ensures Valid()
      ensures var r := Step(old(Snapshot()), e);
              Snapshot() == r.after && hooks == r.hooks && armed == r.armed && answer == r.answer &&
              requests == old(requests) + r.calls
      ensures title == old(title) && titleLen == old(titleLen)
    {
      match e
      case Create(h, hasParent, ncw, nch) =>
        OnCreate(h, hasParent, ncw, nch);
        hooks, armed, answer := [Created], false, None;
      case PosChanged(flags, cx, cy, x, y, ncw, nch) =>
        OnPosChanged(flags, cx, cy, x, y, ncw, nch);
        hooks, armed, answer := [], false, None;
      case GetMinMax(info, ncw, nch) =>
        var filled := FillMinMax(info, ncw, nch);
        hooks, armed, answer := [], false, Some(filled);
    }

    /** Leave, button press, button release and mouse move. */
    method OnMouseMessage(e: Event) returns (hooks: seq<Hook>, armed: bool, answer: Option<MinMaxInfo>)
      requires Valid()
      requires e.Leave? || e.ButtonDown? || e.ButtonUp? || e.Motion?
      modifies this
      ensures Valid()
      ensures var r := Step(old(Snapshot()), e);
              Snapshot() == r.after && hooks == r.hooks && armed == r.armed && answer == r.answer &&
              requests == old(requests) + r.calls
      ensures title == old(title) && titleLen == old(titleLen)
    {
      match e
      case Leave =>
        OnLeave();
        hooks, armed, answer := [MouseLeave], false, None;
      case ButtonDown(x, y, keys) =>
        OnButtonDown(x, y);
        hooks, armed, answer := [MousePress(x, y, keys)], false, None;
      case ButtonUp(x, y, keys) =>
        hooks := OnButtonUp(x, y, keys);
        armed, answer := false, None;
      case Motion(x, y, keys) =>
        armed := OnMotion();
        hooks, answer := [MouseMove(x, y, keys)], None;
    }

    /** The creation message: binds the handle, resizes a top-level window so
        that its client area has the stored size and marks the widget live. */
    method OnCreate(h: int, hasParent: bool, ncw: int, nch: int)
      requires Valid()
      requires h != 0
      modifies this
      ensures Valid()
      ensures Snapshot() == old(Snapshot()).(hwnd := h, isSetup := true)
      ensures requests == old(requests) +
                (if hasParent then [] else [SetWindowPos(0, 0, ncw + width, nch + height, SWP_NOMOVE | SWP_NOZORDER)])
      ensures title == old(title) && titleLen == old(titleLen)
    {
      hwnd := h;
      if !hasParent {
        requests := requests + [SetWindowPos(0, 0, ncw + width, nch + height, SWP_NOMOVE | SWP_NOZORDER)];
      }
      isSetup := true;
    }

    /** The position-changed message: takes the new client size unless
        SWP_NOSIZE is set and the new position unless SWP_NOMOVE is set,
        then defers to the default window procedure. */
    method OnPosChanged(flags: bv32, cx: int, cy: int, x: int, y: int, ncw: int, nch: int)
      requires Valid()
      modifies this
      ensures Valid()
      ensures Snapshot() == Place(old(Snapshot()), flags, cx, cy, x, y, ncw, nch)
      ensures requests == old(requests) + [DefWindowProc]
      ensures title == old(title) && titleLen == old(titleLen)
    {
      if flags & SWP_NOSIZE == 0 {
        width := cx - ncw;
        height := cy - nch;
      }
      if flags & SWP_NOMOVE == 0 {
        posX := x;
        posY := y;
      }
      requests := requests + [DefWindowProc];
    }

    /** Fills in the track sizes of `info` from the stored bounds plus the
        non-client overhead, skipping every unconstrained bound. */
    method FillMinMax(info: MinMaxInfo, ncw: int, nch: int) returns (r: MinMaxInfo)
      ensures r == Negotiate(minWidth, minHeight, maxWidth, maxHeight, ncw, nch, info)
    {
      r := info;
      if minWidth != UNBOUNDED { r := r.(minTrackSize := r.minTrackSize.(x := minWidth + ncw)); }
      if minHeight != UNBOUNDED { r := r.(minTrackSize := r.minTrackSize.(y := minHeight + nch)); }
      if maxWidth != UNBOUNDED { r := r.(maxTrackSize := r.maxTrackSize.(x := maxWidth + ncw)); }
      if maxHeight != UNBOUNDED { r := r.(maxTrackSize := r.maxTrackSize.(y := maxHeight + nch)); }
    }

    /** The mouse left the window: no press is pending and tracking has ended. */
    method OnLeave()
      requires Valid()
      modifies this
      ensures Valid()
      ensures Snapshot() == old(Snapshot()).(preclicked := false, tracking := false)
      ensures title == old(title) && titleLen == old(titleLen) && requests == old(requests)
    {
      preclicked := false;
      tracking := false;
    }

    /** A button went down: a press is pending at (x, y). */
    method OnButtonDown(x: int, y: int)
      requires Valid()
      modifies this
      ensures Valid()
      ensures Snapshot() == old(Snapshot()).(preclicked := true, clickedX := x, clickedY := y)
      ensures title == old(title) && titleLen == old(titleLen) && requests == old(requests)
    {
      preclicked := true;
      clickedX := x;
      clickedY := y;
    }

    /** A button went up: `mouse_release` fires, then `clicked` if it completes
        the pending press; no press is pending afterwards. */
    method OnButtonUp(x: int, y: int, keys: int) returns (hooks: seq<Hook>)
      requires Valid()
      modifies this
      ensures Valid()
      ensures var r := Release(old(Snapshot()), x, y, keys); Snapshot() == r.after && hooks == r.hooks
      ensures title == old(title) && titleLen == old(titleLen) && requests == old(requests)
    {
      hooks := [MouseRelease(x, y, keys)];
      if preclicked && x == clickedX && y == clickedY {
        hooks := hooks + [Clicked(x, y, keys)];
      }
      preclicked := false;
    }

    /** The mouse moved: hover tracking is armed if enabled and not yet active. */
    method OnMotion() returns (armed: bool)
      requires Valid()
      modifies this
      ensures Valid()
      ensures armed == (old(trackEnabled) && !old(tracking))
      ensures Snapshot() == old(Snapshot()).(tracking := old(tracking) || old(trackEnabled))
      ensures requests == old(requests) + (if armed then [TrackMouseEvent] else [])
      ensures title == old(title) && titleLen == old(titleLen)
    {
      armed := false;
      if trackEnabled && !tracking {
        requests := requests + [TrackMouseEvent];
        tracking := true;
        armed := true;
      }
    }

    /** The messages that only fire a hook or make one OS request. */
    method OnNotification(e: Event) returns (hooks: seq<Hook>, armed: bool, answer: Option<MinMaxInfo>)
      requires Valid()
      requires !(e.Create? || e.PosChanged? || e.GetMinMax? || e.Leave? || e.ButtonDown? || e.ButtonUp? || e.Motion?)
      modifies this
      ensures Valid()
      ensures var r := Step(old(Snapshot()), e);
              Snapshot() == r.after && hooks == r.hooks && armed == r.armed && answer == r.answer &&
              requests == old(requests) + r.calls
      ensures title == old(title) && titleLen == old(titleLen)
    {
      hooks, armed, answer := [], false, None;
      match e {
        case Focus =>
          requests := requests + [SetFocus];
        case SysCommand =>
          requests := requests + [DefWindowProc];
        case MoveNote(x, y) =>
          hooks := [Moved(x, y)];
        case SizeNote(w, h, kind) =>
          hooks := [Resized(w, h, kind)];
        case Hover(x, y) =>
          hooks := [MouseHover(x, y)];
        case ButtonDoubleClick(x, y, keys) =>
          hooks := [DoubleClicked(x, y, keys)];
        case Key(key) =>
          hooks := [KeyDown(key)];
        case Wheel(sx, sy, left, top, delta, keys) =>
          hooks := [WheelChange(sx - left, sy - top, delta, keys)];
        case Paint =>
          hooks := [Render];
        case Close =>
          requests := requests + [DestroyWindow];
        case Destroy =>
          requests := requests + [PostQuitMessage(0)];
        case Other(_) =>
          requests := requests + [DefWindowProc];
      }
    }
  }
}
