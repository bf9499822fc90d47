# Widget state machine (gobang-lite `src/ui/widget.cpp`)

This project models the in-memory state of the base `Widget` class of gobang-lite's UI layer. The class is a thin wrapper over a Win32 window. The model covers:

- its geometry (size and position, where `CW_USEDEFAULT` means "platform default");
- its min/max client-size bounds (-1 meaning unconstrained);
- its title buffer, whose capacity only grows;
- its lifecycle flag (`m_setup`) and window handle;
- the window procedure `Widget::dispatch`, which turns window messages into hook calls and updates the press-pending, click-point and hover-tracking flags.

Every Win32 call becomes an `OsCall` value appended to the widget's `requests` log. Nothing is actually called. Values the OS would supply are parameters instead:

- the handle `CreateWindowEx` returns;
- the non-client overhead (window rectangle minus client rectangle);
- the decoded `lparam`/`wparam` fields.

Files:

- `model.dfy` (module `WidgetModel`): the messages (`Event`), hooks (`Hook`), OS requests (`OsCall`) and the dispatch-visible state (`State`) as datatypes. It also holds the pure transition `Step`, which specifies one dispatch, the size-negotiation answer `Negotiate`, and lemmas about single messages and about runs of messages.
- `cstrings.dfy` (module `CStrings`): NUL-terminated buffers. `CString` is the text a buffer holds. `StrCpy` and `StrDup` stand for the C library's `strcpy` and `strdup`.
- `widget.dfy` (module `Widgets`): the class `Widget`, with the source's fields and methods. Each mutator states the whole new state. `Dispatch` is proved to make exactly the transition `Step` describes. `Valid()` is the class invariant: the buffer's length is its capacity plus one, hover tracking is active only while enabled, and a live widget has a non-NULL handle.
- `scenarios.dfy` (module `Scenarios`): client code that drives widgets through short call-and-message scenarios, with the outcomes proved.

`m_title_len` changes only when the buffer is reallocated (src/ui/widget.cpp:71-76), so it is the length of the longest title set so far.

## Model

| member | source | states |
|---|---|---|
| `Widgets.Widget.constructor` | src/ui/widget.cpp:9-24 | Both sizes and both coordinates start at `CW_USEDEFAULT`. The title buffer is NULL with capacity 0. The widget is not live, no press is pending, and tracking is disabled and inactive. The bounds are the given ones. |
| `Widgets.Widget.Sized` | src/ui/widget.cpp:26-42 | Same as the default constructor, except that the size is the given one (stored through `resize`) and no OS request is made. |
| `Widgets.Widget.Resize` | src/ui/widget.cpp:44-55 | The size is stored whether or not the widget is live, and nothing else changes. A live widget also requests `SetWindowPos(0, 0, w, h, SWP_NOMOVE + SWP_NOZORDER)`. |
| `Widgets.Widget.Move` | src/ui/widget.cpp:57-67 | The position is stored whether or not the widget is live, and nothing else changes. A live widget also requests `SetWindowPos(x, y, 0, 0, SWP_NOSIZE + SWP_NOZORDER)`. |
| `Widgets.Widget.SetTitle` | src/ui/widget.cpp:69-81 | Afterwards the buffer holds exactly `t`. If `t` fits the capacity, the same buffer is reused and the capacity is unchanged. Otherwise a fresh buffer replaces it and the capacity becomes len(t). So the capacity never decreases. A live widget also requests `SetWindowText(t)`. |
| `Widgets.Widget.EnableTrack` | src/ui/widget.cpp:83-88 | The enable flag becomes `enable`. Tracking stays active only if it was active and `enable` holds, so disabling ends it at once and enabling leaves it as it was. |
| `Widgets.Widget.Redraw` | src/ui/widget.cpp:90-95 | No state changes. Only a live widget requests invalidation of its client area, with the given erase flag. |
| `Widgets.Widget.SetMinBound` | src/ui/widget.cpp:97-100 | `MinBound()` (`get_min_bound`) returns the given pair afterwards. The max bound and all other state are unchanged. |
| `Widgets.Widget.SetMaxBound` | src/ui/widget.cpp:102-105 | `MaxBound()` (`get_max_bound`) returns the given pair afterwards. The min bound and all other state are unchanged. |
| `Widgets.Widget.Setup` | src/ui/widget.cpp:107-146 | The widget is live afterwards. If it was already live, only a `SetParent` is requested, and only when both handles are non-NULL. Otherwise it registers the class and creates a window: a top-level popup without a parent, a child of the parent's handle with one. It stores the new handle. Geometry, bounds and flags are unchanged. |
| `Widgets.Widget.Show` | src/ui/widget.cpp:148-152 | No state changes. Only a live widget requests `ShowWindow(mode)`. |
| `Widgets.Widget.AddWidget` | src/ui/widget.cpp:154-158 | Returns true. Both widgets are live afterwards. A non-live parent is first created as a top-level window. The child is then either created as a child window of the parent's (now non-NULL) handle or, if already live, re-parented to it. A widget added to itself is first made live if need be and then asks for `SetParent` to its own handle. Apart from the live flag and the handle, the geometry, bounds, press and tracking state and the title of both widgets are unchanged. |
| `Widgets.Widget.Dispatch` | src/ui/widget.cpp:160-338 | The new state, the hooks fired, whether tracking was armed, the MINMAXINFO written back, and the OS requests appended are exactly those of `Step` on the old state. The title is untouched. |
| `Widgets.Widget.OnWindowMessage` | src/ui/widget.cpp:164-229 | For the creation, position-changed and size-negotiation messages: the new state, hooks, armed flag, MINMAXINFO answer and appended requests are exactly those of `Step`. The title is untouched. |
| `Widgets.Widget.OnMouseMessage` | src/ui/widget.cpp:250-310 | For leave, press, release and move: the new state, hooks, armed flag and appended requests are exactly those of `Step`, with no MINMAXINFO answer. The title is untouched. |
| `Widgets.Widget.OnNotification` | src/ui/widget.cpp:189-334 | For every other message (focus, system command, move and size notices, hover, double click, key, wheel, paint, close, destroy, unhandled): exactly `Step`, that is one hook or one OS request and no change of state. |
| `Widgets.Widget.OnCreate` | src/ui/widget.cpp:164-188 | The creation message stores the handle and marks the widget live. A window without a parent requests a resize to the stored client size plus the non-client overhead. |
| `Widgets.Widget.OnPosChanged` | src/ui/widget.cpp:193-207 | The new geometry is `Place` of the old one. The message is handed on to the default window procedure. |
| `Widgets.Widget.FillMinMax` | src/ui/widget.cpp:213-231 | The filled-in MINMAXINFO is `Negotiate` of the stored bounds, the overhead and the offered info. |
| `Widgets.Widget.OnLeave` | src/ui/widget.cpp:250-255 | No press is pending and tracking is inactive afterwards. No other field changes. |
| `Widgets.Widget.OnButtonDown` | src/ui/widget.cpp:256-267 | A press is pending at the pressed point afterwards. No other field changes. |
| `Widgets.Widget.OnButtonUp` | src/ui/widget.cpp:268-282 | The hooks and the new state are those of `Release`. |
| `Widgets.Widget.OnMotion` | src/ui/widget.cpp:295-310 | Tracking is armed (with one `TrackMouseEvent` request) iff it is enabled and not active. Afterwards it is active iff it was active or is enabled. |
| `Widgets.Widget.Width` | src/ui/widget.cpp:340-342 | Never reports the sentinel: it reports 0 for `CW_USEDEFAULT` and the stored width otherwise. |
| `Widgets.Widget.Height` | src/ui/widget.cpp:344-346 | Never reports the sentinel: it reports 0 for `CW_USEDEFAULT` and the stored height otherwise. |
| `Widgets.Widget.X` | src/ui/widget.cpp:348-350 | Never reports the sentinel: it reports 0 for `CW_USEDEFAULT` and the stored x otherwise. |
| `Widgets.Widget.Y` | src/ui/widget.cpp:352-354 | Never reports the sentinel: it reports 0 for `CW_USEDEFAULT` and the stored y otherwise. |
| `WidgetModel.Negotiate` | src/ui/widget.cpp:224-229 | Each of the four track-size coordinates is its bound plus the overhead iff the bound is not -1. Otherwise it keeps the offered value. The other MINMAXINFO fields are unchanged. |
| `WidgetModel.NegotiateIdempotent` | src/ui/widget.cpp:224-229 | Answering the query again on the answer changes nothing. |
| `WidgetModel.NegotiateKeepsOrder` | src/ui/widget.cpp:224-229 | Constrained bounds with min <= max give a min track size <= the max track size in both dimensions. |
| `WidgetModel.NegotiateUnbounded` | src/ui/widget.cpp:226-229 | With every bound at -1, the offered info comes back unchanged. |
| `WidgetModel.Place` | src/ui/widget.cpp:193-205 | The size becomes cx/cy minus the overhead only when SWP_NOSIZE is clear. The position becomes x/y only when SWP_NOMOVE is clear. Every other field is unchanged. |
| `WidgetModel.Release` | src/ui/widget.cpp:268-282 | `mouse_release` fires first. `clicked` fires (at the release point) iff a press is pending and both coordinates equal the recorded ones, and there is no other `clicked`. No press is pending afterwards. Nothing else changes. |
| `WidgetModel.MouseMoved` | src/ui/widget.cpp:295-310 | Arms tracking, making exactly one `TrackMouseEvent` request, iff tracking is enabled and not active. Afterwards tracking is active iff it was active or is enabled. |
| `WidgetModel.Step` | src/ui/widget.cpp:160-338 | Dispatch never changes the enable flag or the bounds. It keeps "tracking active implies tracking enabled". |
| `WidgetModel.StepLifecycle` | src/ui/widget.cpp:164-188 | Only the creation message changes the handle or the live flag. It sets them to the message's handle and true, and fires `created`. |
| `WidgetModel.StepPressRelease` | src/ui/widget.cpp:256-282 | A press records its point and leaves a press pending. A release always clears it. Only a press, a release or a leave changes the pending flag. `clicked` fires iff a pending press is released at its own point, and only then. A release fires `mouse_release` first and `clicked` at most once after it. |
| `WidgetModel.StepLeave` | src/ui/widget.cpp:250-255 | A leave clears the pending press and hover tracking whatever the prior state. It changes no geometry and fires only `mouse_leave`. |
| `WidgetModel.StepTracking` | src/ui/widget.cpp:295-310 | Tracking is armed only by a mouse move, iff it is enabled and inactive, and then with a `TrackMouseEvent` request. Only a move or a leave changes whether tracking is active. |
| `WidgetModel.StepGeometry` | src/ui/widget.cpp:193-205 | Only a position change alters the geometry. Width and height are recomputed only when SWP_NOSIZE is clear, and the position only when SWP_NOMOVE is clear. Otherwise each stays as it was. |
| `WidgetModel.StepReplies` | src/ui/widget.cpp:160-338 | Only the size-negotiation query writes a MINMAXINFO, and it writes the `Negotiate` of the stored bounds. Exactly the position-changed, system-command and unhandled messages go to `DefWindowProc`. |
| `WidgetModel.PressThenRelease` | src/ui/widget.cpp:256-282 | A press followed by a release fires `clicked` iff the two points coincide. No press is pending afterwards. |
| `WidgetModel.TwoMovesArmOnce` | src/ui/widget.cpp:295-310 | Two consecutive mouse moves never both arm tracking. |
| `WidgetModel.ArmStep` | src/ui/widget.cpp:250-310 | In one message: arming, plus "inactive afterwards", is at most "inactive before" plus "this is a leave". |
| `WidgetModel.ArmsBoundedByLeaves` | src/ui/widget.cpp:250-310 | Over any run of messages, tracking is armed at most once more than the run has leaves, or at most as often as it has leaves if tracking was already active. |
| `WidgetModel.ArmsWithoutLeave` | src/ui/widget.cpp:295-310 | A run without a leave arms tracking at most once. |
| `WidgetModel.ClickStep` | src/ui/widget.cpp:250-282 | In one message: a `clicked`, plus "press pending afterwards", is at most "press pending before" plus "this is a press". |
| `WidgetModel.ClicksBoundedByPresses` | src/ui/widget.cpp:250-282 | Over any run, `clicked` fires at most as often as there are presses, plus one for a press already pending. |
| `WidgetModel.RunPreserves` | src/ui/widget.cpp:160-338 | Any run keeps "tracking active implies enabled". It never changes the enable flag or the bounds. |
| `CStrings.CString` | src/ui/widget.cpp:72-75 | The text a buffer holds is its longest NUL-free prefix: it contains no NUL, and it ends at a NUL or at the end of the buffer. |
| `CStrings.CStringOfTerminated` | src/ui/widget.cpp:72-75 | A buffer holding NUL-free `t` followed by a NUL holds exactly `t`. |
| `CStrings.StrCpy` | src/ui/widget.cpp:72 | `t` and its NUL are written to the front of the existing buffer. The rest of the buffer is untouched. |
| `CStrings.StrDup` | src/ui/widget.cpp:75 | A fresh buffer of length len(t)+1 holds `t` and its NUL. |
| `Scenarios.SizedSetup` | src/ui/widget.cpp:26-188 | A 400x300 widget set up without a parent is live, reports 400x300, and fires `created` on its creation message. |
| `Scenarios.PressAndRelease` | src/ui/widget.cpp:256-282 | Press (10,10) then release (11,10) fires only `mouse_release`. Press and release at (10,10) also fires `clicked`. |
| `Scenarios.TitleReuse` | src/ui/widget.cpp:69-81 | Setting a title and then one no longer than it keeps the same buffer. The widget holds the second title. |
| `Scenarios.AddChild` | src/ui/widget.cpp:107-158 | Adding a fresh widget to a live one makes it live, created with the child style and the parent's handle. |
| `Scenarios.HoverTracking` | src/ui/widget.cpp:83-88 | With tracking enabled, of two moves only the first arms. After a leave the next move arms again. Disabling ends tracking. |
| `Scenarios.MinimumBound` | src/ui/widget.cpp:97-229 | A 200x100 minimum bound with a 16x39 overhead is answered as a 216x139 minimum track size. The unconstrained maximum keeps the offered value. |
| `Scenarios.ResizeLive` | src/ui/widget.cpp:44-55 | On a live top-level widget, `resize(w, h)` requests a w x h window. When the position-changed message reports that window with frame overhead (ncw, nch), the stored size becomes (w - ncw, h - nch). |

`Widget::key_down` is called with explicit class qualification at src/ui/widget.cpp:292, which suppresses virtual dispatch. So a subclass's override is bypassed for key-down messages. The model records the message only as the hook name `KeyDown`.

## Left out

- Every Win32 call is only recorded as an `OsCall`. Their effects on the OS side are not modelled: the messages `SetWindowPos` sends back, focus, painting, window destruction and the quit message.
- `CreateWindowEx` delivers the creation message while it runs, so `dispatch` is nested inside `setup`. The model does not nest them: `Setup` and the `Create` message are separate steps. Similarly, `SetWindowPos` inside the creation message does not trigger a nested position-changed message.
- Window-handle ↔ widget recovery through `GWLP_USERDATA` (lines 161, 166-168) and `parent()` (lines 364-371) are left out. Both depend entirely on OS state. `Dispatch` runs on the widget the handle resolves to, so the early exit for a not-yet-bound window in the size-negotiation branch (line 214) is outside the model.
- The creation-failure `assert`/`abort` (lines 142-143) is left out. Window creation is assumed to succeed: `Setup` and `AddWidget` require a non-zero new handle, and `Dispatch` requires the creation message to carry a non-zero handle, as the window it comes from exists.
- Two null dereferences in the source are preconditions instead of crash models:
  - `SetTitle`: `set_title("")` on a widget that never had a title copies into a NULL buffer (lines 14-15, 71-72).
  - `Setup`: `setup(nullptr)` on a live widget with a handle reads `parent->m_hwnd` (line 109).
- `SetTitle` requires a title without NUL characters: `strlen` stops at the first one.
- Hook bodies and logging are left out. The default hooks are no-ops or a paint bracket (lines 373-402), and there is the `printf` at line 186. Hooks appear only as names in the fired-hook trace. A hook overridden to change the widget's state is not modelled.
- Decoding of `lparam`/`wparam` (`GET_X_LPARAM`, `LOWORD`, `HIWORD`, `GET_WHEEL_DELTA_WPARAM`) is left out. Messages carry decoded values, and the three mouse buttons share one message of each kind.
- The default arguments of `set_min_bound`/`set_max_bound` are declared in `widget.h`, which is not part of this model. The constructors take the initial bounds as parameters.
- The constructors shown do not initialise `m_hwnd`, `m_clicked_posx` or `m_clicked_posy`. The model starts them at 0. The click point is read only while a press is pending.
- `Setup`: `setup(p)` reads `p->m_hwnd` whatever state `p` is in (lines 109, 125). For a parent that was never set up that handle is uninitialised in the source, so a `WS_CHILD` window is created under an indeterminate parent. The model passes the parent's `hwnd` field, which starts at 0, and does not capture the indeterminate value.
- Integers are unbounded. The model does not cover 32-bit signed overflow in `cx - ncwidth`, `bound + ncwidth` or `ncwidth + m_width`, which is undefined behaviour in C++.
- Freeing the old title buffer, and releasing it on destruction, are memory management: the model drops the reference.
- `MinBound`/`MaxBound` (`get_min_bound`/`get_max_bound`) carry no contract of their own. What they return is stated by `SetMinBound`, `SetMaxBound` and the constructors.
- The return value of `RegisterClassEx` is ignored by the source and is not modelled.
