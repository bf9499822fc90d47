/**
 * Client code that drives widgets through short sequences of calls and
 * messages, and what the contracts of `Widget` let it conclude.
 */
module Scenarios {
  import opened WidgetModel
  import opened Widgets

  /** A 400x300 widget set up without a parent is live, reports its size and
      fires `created` when its creation message arrives. */
  method SizedSetup() returns (w: int, h: int, live: bool, hooks: seq<Hook>)
    ensures w == 400 && h == 300 && live && hooks == [Created]
  {
    var widget := new Widget.Sized(400, 300, UNBOUNDED, UNBOUNDED, UNBOUNDED, UNBOUNDED);
    widget.Setup(null, 1);
    var armed, answer;
    hooks, armed, answer := widget.Dispatch(Create(1, false, 16, 39));
    w, h, live := widget.Width(), widget.Height(), widget.isSetup;
  }

  /** A press at (10,10) released at (11,10) is no click; pressed and
      released at (10,10) it is. */
  method PressAndRelease() returns (missed: seq<Hook>, hit: seq<Hook>)
    ensures missed == [MouseRelease(11, 10, 0)]
    ensures hit == [MouseRelease(10, 10, 0), Clicked(10, 10, 0)]
  {
    var widget := new Widget(UNBOUNDED, UNBOUNDED, UNBOUNDED, UNBOUNDED);
    var hooks, armed, answer := widget.Dispatch(ButtonDown(10, 10, 0));
    missed, armed, answer := widget.Dispatch(ButtonUp(11, 10, 0));
    hooks, armed, answer := widget.Dispatch(ButtonDown(10, 10, 0));
    hit, armed, answer := widget.Dispatch(ButtonUp(10, 10, 0));
  }

  /** Setting a title and then one no longer than it keeps the buffer;
      what the widget holds is always the last title set. */
  method TitleReuse(t1: string, t2: string) returns (reused: bool, held: string)
    requires t1 != "" && '\0' !in t1 && '\0' !in t2 && |t2| <= |t1|
    ensures reused && held == t2
  {
    var widget := new Widget(UNBOUNDED, UNBOUNDED, UNBOUNDED, UNBOUNDED);
    widget.SetTitle(t1);
    var buffer := widget.title;
    widget.SetTitle(t2);
    reused := widget.title == buffer;
    held := widget.Title();
  }

  /** Adding a fresh widget to a live one creates it as a child window of
      the live one's handle. */
  method AddChild() returns (childLive: bool, childRequest: OsCall)
    ensures childLive && childRequest.CreateWindow? && childRequest.style == Child && childRequest.parent == 1
  {
    var a := new Widget(UNBOUNDED, UNBOUNDED, UNBOUNDED, UNBOUNDED);
    a.Setup(null, 1);
    var b := new Widget.Sized(100, 40, UNBOUNDED, UNBOUNDED, UNBOUNDED, UNBOUNDED);
    var ok := a.AddWidget(b, 7, 2);
    childLive := b.isSetup;
    childRequest := b.requests[|b.requests| - 1];
  }

  /** With tracking enabled, the first of two moves arms hover tracking and
      the second does not; after a leave the next move arms it again, and
      disabling tracking ends it at once. */
  method HoverTracking() returns (first: bool, second: bool, afterLeave: bool, trackingAfterDisable: bool)
    ensures first && !second && afterLeave && !trackingAfterDisable
  {
    var widget := new Widget(UNBOUNDED, UNBOUNDED, UNBOUNDED, UNBOUNDED);
    widget.EnableTrack(true);
    var hooks, answer;
    hooks, first, answer := widget.Dispatch(Motion(5, 5, 0));
    hooks, second, answer := widget.Dispatch(Motion(6, 5, 0));
    var left;
    hooks, left, answer := widget.Dispatch(Leave);
    hooks, afterLeave, answer := widget.Dispatch(Motion(7, 5, 0));
    widget.EnableTrack(false);
    trackingAfterDisable := widget.tracking;
  }

  /** A minimum bound of 200x100 with a 16x39 frame is answered as a 216x139
      minimum track size; the unconstrained maximum keeps the OS's offer. */
  method MinimumBound(offer: MinMaxInfo) returns (answer: Option<MinMaxInfo>)
    ensures answer.Some? && answer.value.minTrackSize == Point(216, 139)
    ensures answer.value.maxTrackSize == offer.maxTrackSize
  {
    var widget := new Widget(UNBOUNDED, UNBOUNDED, UNBOUNDED, UNBOUNDED);
    widget.SetMinBound(200, 100);
    var hooks, armed;
    hooks, armed, answer := widget.Dispatch(GetMinMax(offer, 16, 39));
  }

  /** On a live top-level widget, `resize(w, h)` asks for a window of w x h,
      frame included; the position-changed message that reports that window
      leaves a client area smaller by the frame. */
  method ResizeLive(w: int, h: int, ncw: int, nch: int) returns (request: OsCall, width: int, height: int)
    ensures request == SetWindowPos(0, 0, w, h, SWP_NOMOVE | SWP_NOZORDER)
    ensures width == w - ncw && height == h - nch
  {
    var widget := new Widget(UNBOUNDED, UNBOUNDED, UNBOUNDED, UNBOUNDED);
    widget.Setup(null, 1);
    widget.Resize(w, h);
    request := widget.requests[|widget.requests| - 1];
    var hooks, armed, answer := widget.Dispatch(PosChanged(SWP_NOMOVE | SWP_NOZORDER, w, h, 0, 0, ncw, nch));
    width, height := widget.width, widget.height;
  }
}
