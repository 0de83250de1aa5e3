# taokt binding core, modelled in Dafny

taokt exposes the `tao` windowing library to foreign languages. The model covers what
the binding itself decides. It does not model what it forwards to `tao`.

- **Window numbering and loop drivers** (`application.dfy`, module `Application`):
  - The application numbers each native window id with a `u64`. A counter starts at 1,
    and an id keeps its number once it has one.
  - Window creation and monitor queries work only while a loop callback runs and the
    current target is set.
  - Each callback converts the event, hands it to the host's handler, and applies the
    handler's control-flow answer. `Keep` changes nothing; any other answer replaces
    the loop's mode.
  - The run-return driver asks `should_quit` before every pass and renders after each
    pass.
- **Value conversions** (`types.dfy` and `events.dfy`, modules `Types` and `Events`):
  - Enums and records are converted variant by variant between the binding and `tao`.
    Some of these are exact round trips. Others are deliberately lossy catch-alls.
  - Errors are mapped to `TaoError`.
  - `ControlFlow` is converted against the current clock reading.
  - `convert_event` numbers window ids through a mapping function it is given.
- **Graphics handles** (`graphics.dfy`, module `Graphics`):
  - each target's default backend;
  - the backend support table;
  - the validity predicate over a record of optional platform handles;
  - the assemble-then-validate gate that produces a raw window handle.
- **Windows** (`windows.dfy`, module `Windows`):
  - fullscreen conversion in both directions;
  - the window builder, whose setters each replace one attribute;
  - parent-window gating;
  - the platform-gated native handle getters;
  - the window's debug text.

The compilation target is an explicit `Platform` parameter: macOS, iOS, Windows, the
Unix family (Linux and the four BSDs), Android, or another target. The library's side
lives in module `Tao`, which holds types only:
- Native enums that the binding matches with a catch-all arm get an extra variant for
  "anything else".
- The library's `Debug` text is an opaque string.
- Floating-point values are opaque bit patterns.
- Window construction, monitor enumeration, the clock and the host's answers are
  parameters or data.

`base.dfy` holds `Option`, `Result` and the fixed-width integer ranges.
`platforms.dfy` holds the target list.

## Model

| member | source | states |
|---|---|---|
| Types.MessageError | taokt/src/main/rust/types.rs:18-24 | `TaoError::message` makes a `Message` error whose display text is exactly the given string; it is never `Unsupported` |
| Types.ErrorFromTao | taokt/src/main/rust/types.rs:26-54 | only a native `NotSupportedError` becomes `Unsupported`; io, external, bad-icon and OS errors become `Message` carrying the error's text, and so does an unexpected error from the host's callback, carrying its reason (the conversion at taokt/src/main/rust/events.rs:207-211) |
| Types.ElementStateFromTao | taokt/src/main/rust/types.rs:62-70 | a native state reads as `Pressed` exactly when it is `Pressed`; any other state reads as `Released` |
| Types.ElementStateToTao | taokt/src/main/rust/types.rs:72-79 | converting to native and back gives the same state; the result is never the unknown native state |
| Types.DeviceEventFilterToTao | taokt/src/main/rust/types.rs:88-96 | `Always`, `Unfocused` and `Never` each map to the native filter of the same name, and only it |
| Types.LogicalSizeToTao | taokt/src/main/rust/types.rs:104-108 | width and height are kept |
| Types.PhysicalSizeFromTao | taokt/src/main/rust/types.rs:116-123 | converting back gives the native size |
| Types.PhysicalSizeToTao | taokt/src/main/rust/types.rs:125-129 | width and height are kept |
| Types.PositionI32FromTao | taokt/src/main/rust/types.rs:137-141 | converting back gives the native position |
| Types.PositionI32ToTao | taokt/src/main/rust/types.rs:143-147 | both coordinates are kept |
| Types.PositionF64FromTao | taokt/src/main/rust/types.rs:155-159 | converting back gives the native position |
| Types.PositionF64ToTao | taokt/src/main/rust/types.rs:161-165 | both coordinates are kept |
| Types.ControlFlowToTao | taokt/src/main/rust/types.rs:178-190 | the result is "no change" exactly for `Keep`; `Wait`, `Poll` and `Exit` map to their namesakes, and only they do; `WaitUntil` gets the deadline `now + duration_ms`; never an exit code |
| Types.ControlFlowToTaoInjective | taokt/src/main/rust/types.rs:178-190 | at one clock reading, two answers that give the same native flow are equal |
| Types.KeyFromTao | taokt/src/main/rust/types.rs:201-216 | Escape, the two arrows and characters keep their kind and text; any other key becomes `Other` with its debug text |
| Types.KeyCodeFromTao | taokt/src/main/rust/types.rs:229-244 | each of the six named native keys (Space, A, D, L, M, V) maps to its namesake and only it does; the result is `Other` exactly when the native code is none of them |
| Types.KeyCodeToTao | taokt/src/main/rust/types.rs:246-259 | named codes round-trip through native; `Other` maps to native `Unidentified`, and only it does |
| Types.NamedKeyCodeRoundTrip | taokt/src/main/rust/types.rs:229-259 | a named native code converts to the binding and back unchanged |
| Types.ModifiersFromTao | taokt/src/main/rust/types.rs:269-278 | shift, control, alt and super are copied |
| Types.MouseButtonFromTao | taokt/src/main/rust/types.rs:288-299 | left, right and middle keep their kind; `Other(n)` keeps `n`; an unrecognised button becomes `Other { value: 0 }` |
| Types.MouseButtonToTao | taokt/src/main/rust/types.rs:301-310 | converting to native and back gives the same button, including `Other { value }` |
| Types.ScrollDeltaFromTao | taokt/src/main/rust/types.rs:319-329 | a line delta keeps both components; a pixel delta splits its position into x and y; anything else becomes `Other` |
| Types.ThemeFromTao | taokt/src/main/rust/types.rs:337-345 | a theme is `Dark` exactly when the native theme is; an unrecognised theme reads as `Light` |
| Types.ThemeToTao | taokt/src/main/rust/types.rs:347-354 | converting to native and back gives the same theme |
| Types.ProgressStateToTao | taokt/src/main/rust/types.rs:447-457 | each progress state maps to its namesake, and only it |
| Types.ProgressBarStateToTao | taokt/src/main/rust/types.rs:466-474 | progress and desktop file name pass through; a present state is converted and an absent one stays absent |
| Types.LogicalBound | taokt/src/main/rust/types.rs:489-499 | a present bound becomes a logical unit of the same value; an absent one stays absent |
| Types.SizeConstraintsToTao | taokt/src/main/rust/types.rs:484-502 | each of the four bounds is converted on its own |
| Types.SizeConstraintsIndependent | taokt/src/main/rust/types.rs:484-502 | for each of the four bounds, two constraint sets agree on it exactly when their native forms agree on it, whatever the other bounds are; there is no reconciliation between minimum and maximum |
| Events.StartCauseFromTao | taokt/src/main/rust/events.rs:23-35 | init, poll, wait-cancelled and resume-time-reached keep their kind; anything else becomes `Other` |
| Events.StartCauseDropsTiming | taokt/src/main/rust/events.rs:23-35 | two cancelled waits with different timing convert alike |
| Events.RawKeyEventFromTao | taokt/src/main/rust/events.rs:43-50 | the physical key and the state are kept, each through its own conversion |
| Events.KeyEventFromTao | taokt/src/main/rust/events.rs:59-67 | the physical key, the logical key and the state are kept, each through its own conversion |
| Events.KeyEventIgnoresExtras | taokt/src/main/rust/events.rs:59-67 | key events differing only in text, location or repetition convert alike |
| Events.WindowEventFromTao | taokt/src/main/rust/events.rs:91-123 | every recognised window event keeps its kind and converted payload (file path, key event, modifiers, cursor and moved positions, mouse state and button, theme); anything else becomes `Other` |
| Events.DeviceEventFromTao | taokt/src/main/rust/events.rs:134-155 | motion splits its delta pair into `delta_x` and `delta_y`; a button keeps its number; wheel and key events are converted; anything else becomes `Other` |
| Events.ConvertEvent | taokt/src/main/rust/events.rs:171-205 | each recognised event kind maps to the `TaoEvent` of the same name, and only it; window and redraw events carry the mapped window number; user payloads and the reopen flag pass through; anything else becomes `Other` |
| Events.ConvertEventConsultsOnlyWindowId | taokt/src/main/rust/events.rs:183-194 | the mapper matters only at the event's own window id; for events without one it is never consulted |
| Graphics.DefaultForPlatform | taokt/src/main/rust/graphics.rs:24-48 | the default backend is always supported on its target; it is Metal exactly on Apple targets, DirectX 12 exactly on Windows, Vulkan exactly on the Unix family and Android, and OpenGL exactly on other targets |
| Graphics.IsSupported | taokt/src/main/rust/graphics.rs:49-66 | OpenGL is supported on every target, and on other targets it is the only backend; Metal is supported only on Apple targets and DirectX 12 only on Windows |
| Graphics.SupportTable | taokt/src/main/rust/graphics.rs:51-66 | OpenGL is supported everywhere, Metal exactly on macOS and iOS, DirectX 12 exactly on Windows, Vulkan exactly on the Unix family, Windows and Android |
| Graphics.NoHandlesNeverValid | taokt/src/main/rust/graphics.rs:148-165 | whatever the backend, a handle without platform handles is not valid |
| Graphics.IsValid | taokt/src/main/rust/graphics.rs:146-165 | a valid handle holds at least one platform handle; a DirectX 12 handle is valid exactly when it holds an `HWND` |
| Graphics.Empty | taokt/src/main/rust/graphics.rs:125-145 | every handle is absent, the size is 0 x 0, the scale is 1.0, the backend is the target default, and the handle is not valid |
| Graphics.Assembled | taokt/src/main/rust/graphics.rs:193-268 | the assembled handle has the requested backend and the window's size and scale; the macOS view and window, the iOS view and window, and the Windows `HWND` and `HINSTANCE` are the window's own exactly on their targets and absent elsewhere; on the Unix family every X11 and Wayland handle is the window's own, elsewhere absent; never an X11 visual id or an Android window |
| Graphics.AssembledValidity | taokt/src/main/rust/graphics.rs:148-165 | the assembled handle is valid exactly when the target and backend admit it (the per-target table), and then the backend is supported |
| Graphics.FillUnixHandles | taokt/src/main/rust/graphics.rs:241-262 | each X11 or Wayland handle the window reports is filled in, and the others are left as they were |
| Graphics.RawWindowHandleForBackend | taokt/src/main/rust/graphics.rs:185-275 | `Err(Unsupported)` exactly when the assembled handle is not valid; otherwise the assembled handle, which is valid, for a supported backend |
| Graphics.RawWindowHandleDefault | taokt/src/main/rust/graphics.rs:181-183 | on success, the handle assembled for the target's default backend, which is valid; the only failure is `Unsupported`; always available on macOS, iOS and Windows; on the Unix family exactly when the window has an X11 window or a Wayland surface; never on Android or other targets |
| Windows.FullscreenFromTao | taokt/src/main/rust/window.rs:35-47 | exclusive stays exclusive with its video mode; borderless keeps the named monitor itself, wrapped, or none; any other native mode reads as borderless with no monitor |
| Windows.FullscreenToTao | taokt/src/main/rust/window.rs:21-33 | borderless stays borderless with the wrapped monitor itself, or none; exclusive stays exclusive with its video mode; converting back gives the same mode |
| Windows.FullscreenFromTaoRoundTrip | taokt/src/main/rust/window.rs:21-47 | a native borderless or exclusive mode survives the trip through the binding |
| Windows.WindowBuilder.constructor | taokt/src/main/rust/window.rs:56-61 | a new builder has no attribute set |
| Windows.WindowBuilder.SetTitle | taokt/src/main/rust/window.rs:63-66 | sets the title; every other attribute is unchanged |
| Windows.WindowBuilder.SetInnerSize | taokt/src/main/rust/window.rs:68-72 | sets the inner size as a logical size; every other attribute is unchanged |
| Windows.WindowBuilder.SetMinInnerSize | taokt/src/main/rust/window.rs:74-78 | sets the minimum inner size as a logical size; every other attribute is unchanged |
| Windows.WindowBuilder.SetDecorations | taokt/src/main/rust/window.rs:80-83 | sets decorations; every other attribute is unchanged |
| Windows.WindowBuilder.SetResizable | taokt/src/main/rust/window.rs:85-88 | sets resizability; every other attribute is unchanged |
| Windows.WindowBuilder.SetTransparent | taokt/src/main/rust/window.rs:90-93 | sets transparency; every other attribute is unchanged |
| Windows.WindowBuilder.SetFullscreen | taokt/src/main/rust/window.rs:95-101 | the stored fullscreen attribute is the native form of the given mode, or none when none is given; it converts back to the given mode; every other attribute is unchanged |
| Windows.WindowBuilder.SetWindowIcon | taokt/src/main/rust/window.rs:103-109 | stores the icon's native handle, or none; every other attribute is unchanged |
| Windows.WindowBuilder.SetTheme | taokt/src/main/rust/window.rs:111-117 | the stored theme attribute is the native form of the given theme, or none when none is given; it converts back to the given theme; every other attribute is unchanged |
| Windows.WindowBuilder.SetParentWindow | taokt/src/main/rust/window.rs:119-157 | `Ok` exactly on macOS, Windows and the Unix family, recording the parent's NSWindow, HWND or GTK window as transient parent; otherwise `Err(Unsupported)` with the configuration unchanged |
| Windows.WindowBuilder.CloneInner | taokt/src/main/rust/window.rs:160-164 | returns the current configuration and changes nothing |
| Windows.NsViewHandle | taokt/src/main/rust/window.rs:178-189 | `Ok` with the NSView exactly on macOS, `Err(Unsupported)` elsewhere |
| Windows.NsWindowHandle | taokt/src/main/rust/window.rs:191-202 | `Ok` with the NSWindow exactly on macOS, `Err(Unsupported)` elsewhere |
| Windows.HwndHandle | taokt/src/main/rust/window.rs:204-216 | `Ok` with the HWND exactly on Windows, `Err(Unsupported)` elsewhere |
| Windows.HinstanceHandle | taokt/src/main/rust/window.rs:218-230 | `Ok` with the HINSTANCE exactly on Windows, `Err(Unsupported)` elsewhere |
| Windows.XlibWindowHandle | taokt/src/main/rust/window.rs:232-259 | `Ok` exactly on the Unix family when the window reports an X11 window, with that value; otherwise `Err(Unsupported)` |
| Windows.XlibDisplayHandle | taokt/src/main/rust/window.rs:261-288 | `Ok` exactly on the Unix family when the window reports an X11 display, with that value; otherwise `Err(Unsupported)` |
| Windows.XlibScreenId | taokt/src/main/rust/window.rs:290-317 | `Ok` exactly on the Unix family when the window reports an X11 screen, with that value; otherwise `Err(Unsupported)` |
| Windows.WaylandSurfaceHandle | taokt/src/main/rust/window.rs:319-346 | `Ok` exactly on the Unix family when the window reports a Wayland surface, with that value; otherwise `Err(Unsupported)` |
| Windows.WaylandDisplayHandle | taokt/src/main/rust/window.rs:348-375 | `Ok` exactly on the Unix family when the window reports a Wayland display, with that value; otherwise `Err(Unsupported)` |
| Windows.GettersAgreeWithRawHandle | taokt/src/main/rust/window.rs:178-390 | every single-handle getter reports exactly the handle the raw window handle holds for any backend |
| Windows.Decimal | taokt/src/main/rust/window.rs:673-675 | the id is written in decimal digits only, with a leading zero only for zero |
| Windows.DecimalRoundTrip | taokt/src/main/rust/window.rs:673-675 | reading the decimal numeral back gives the number |
| Windows.DebugString | taokt/src/main/rust/window.rs:673-675 | the text is `Window(id=`, the id in decimal, then `)` |
| Windows.DebugStringIdentifiesWindow | taokt/src/main/rust/window.rs:673-675 | equal debug texts mean equal window ids |
| Application.WrappingIncrement | taokt/src/main/rust/app.rs:84 | the counter goes up by one and wraps to 0 past the largest `u64` |
| Application.Lookup | taokt/src/main/rust/app.rs:79-87 | the id ends up mapped to the returned number; a known id changes nothing; a new id gets the counter, the map gains exactly that key with all other entries unchanged, and the counter moves on |
| Application.FirstWindowNumberedOne | taokt/src/main/rust/app.rs:177-181 | a fresh application is well numbered and numbers its first window 1 |
| Application.LookupStable | taokt/src/main/rust/app.rs:81-83 | asking twice for the same id gives the same number and leaves the table alone |
| Application.LookupKeepsNumbering | taokt/src/main/rust/app.rs:84-86 | numbering keeps the numbers given exactly 1 to next - 1, one per window; the counter is handed out exactly to new ids |
| Application.LookupDistinct | taokt/src/main/rust/app.rs:79-87 | different ids asked in turn get different numbers |
| Application.App.constructor | taokt/src/main/rust/app.rs:236-240 | the table starts empty, with the counter at 1 |
| Application.App.MapWindowId | taokt/src/main/rust/app.rs:79-87 | the number and the new table are those of `Lookup` on the old table |
| Application.App.CreateWindow | taokt/src/main/rust/app.rs:114-127 | outside the callback it fails with the no-target message and allocates no number; a failed build is converted and allocates none; a built window gets the number `Lookup` gives its native id |
| Application.App.CreateWindowDefault | taokt/src/main/rust/app.rs:129-131 | builds from the unconfigured attributes: outside the callback it fails with the no-target message, and after a failed build the error is converted, both with the numbering unchanged; after a successful build the window gets the number the table gives its id, and the table is the one that lookup leaves |
| Application.TargetCell.constructor | taokt/src/main/rust/app.rs:15 | the cell starts empty |
| Application.TargetCell.Set | taokt/src/main/rust/app.rs:20-25 | the cell holds the given target |
| Application.TargetCell.Clear | taokt/src/main/rust/app.rs:27-31 | the cell is empty |
| Application.WithTarget | taokt/src/main/rust/app.rs:89-103 | with a target set it is `Ok(f(target))`; without one it is exactly the no-target `Message` error |
| Application.AvailableMonitors | taokt/src/main/rust/app.rs:133-140 | the target's monitors in order, each wrapped; the no-target error outside the callback |
| Application.PrimaryMonitor | taokt/src/main/rust/app.rs:142-144 | the target's primary monitor, if any, wrapped; the no-target error outside the callback |
| Application.DefaultRunConfig | taokt/src/main/rust/app.rs:38-44 | the default filter is `Unfocused`, which is native `Unfocused` |
| Application.Settings | taokt/src/main/rust/app.rs:154-175 | the loop may run off the main thread exactly on the Unix family and Windows, and it gets the converted filter |
| Application.NextControlFlow | taokt/src/main/rust/app.rs:186-188 | `Keep` leaves the loop's flow; any other answer replaces it by its native form |
| Application.Invoke | taokt/src/main/rust/app.rs:183-189 | the target is set while the handler runs and cleared after; the handler gets the event converted with the table's numbering; the table gains the event's window; the flow follows the update rule |
| Application.RunPass | taokt/src/main/rust/app.rs:243-249 | after a pass, the table, the flow and the events handed over are those of `RunBatch` |
| Application.LastDirective | taokt/src/main/rust/app.rs:246-248 | it is absent exactly when every answer is `Keep`; otherwise it is the last answer that is not `Keep` |
| Application.PassFlowFollowsLastDirective | taokt/src/main/rust/app.rs:246-248 | after a pass, the flow is the native form of the last answer that is not `Keep`, or the starting flow if every answer was `Keep` |
| Application.PassNumbersAgreeWithTable | taokt/src/main/rust/app.rs:245 | a pass only adds table entries; every window event of the pass carries the number the final table holds for its window |
| Application.PassKeepsNumbering | taokt/src/main/rust/app.rs:84-86 | while the counter is clear of wrapping, a pass keeps the table well numbered and uses at most one new number per event |
| Application.PassWindowNumbersDistinct | taokt/src/main/rust/app.rs:79-87 | within a pass, two events carry the same window number exactly when they come from the same native window |
| Application.RunWithConfig | taokt/src/main/rust/app.rs:153-190 | the loop settings come from the configuration; the handler gets the events of `RunBatch` on a fresh table |
| Application.Run | taokt/src/main/rust/app.rs:148-150 | the loop settings are those of the default configuration (device events only while focused); the handler is handed the events the batch produces from the initial numbering |
| Application.FirstQuit | taokt/src/main/rust/app.rs:242 | the first round in which `should_quit` answers true |
| Application.DriveNotQuitting | taokt/src/main/rust/app.rs:242-252 | after a false answer: one pass's handler calls, one render, then the rest |
| Application.DriveQuitting | taokt/src/main/rust/app.rs:242 | after a true answer: exactly one `should_quit` call and nothing else |
| Application.RunReturnLoopWithConfig | taokt/src/main/rust/app.rs:198-256 | `Err(Unsupported)` with no calls on iOS; elsewhere `Ok(())` with the configured settings and exactly the calls of `Drive` from a fresh table |
| Application.RunReturnLoop | taokt/src/main/rust/app.rs:193-195 | on iOS fails with `Unsupported`, configures nothing and calls nothing; elsewhere succeeds with the default configuration's loop settings and makes exactly the calls the driver specification gives |
| Application.DriveAlternates | taokt/src/main/rust/app.rs:242-252 | apart from handled events, the calls are `should_quit`, `render` repeated once per pass, then the final `should_quit`; the number of passes is the number of false answers before the first true, so there is no pass and no render when the first answer is true |

## Left out

- The event loop itself lives in `tao`: dispatch order, blocking for `Wait`/`WaitUntil`,
  the proxy queue, and when `run_return` ends a pass. Deliveries, the handler's answers and
  the `should_quit` answers are data.
- `EventLoopProxy::send_event` and `App::create_proxy` (taokt/src/main/rust/app.rs:58-69,
  108-112) only forward to the proxy queue in `tao`.
- The `Mutex`, the `AtomicU64` and the thread-local pointer cell become plain fields.
  Poisoned locks (`unwrap` panics) and cross-thread interleavings are not modelled.
- Application.Invoke: the handler is treated as making no calls back into the application
  during a callback. Windows it creates from inside a callback number further ids; those
  are covered by `App.CreateWindow` on its own, not inside the pass lemmas.
- Application.LookupKeepsNumbering: distinct ids are proved to get distinct numbers only
  while the counter is below 2^64 - 1. Past that, `fetch_add` wraps to 0 and numbers
  repeat. `WrappingIncrement` states the wrap.
- Application.RunReturnLoopWithConfig: requires, off iOS, that the host eventually answers
  true to `should_quit`. Otherwise the source loops forever.
- Application.RunWithConfig: covers the deliveries made so far. The source's loop never
  returns.
- The control flow `tao` starts each `run_return` pass with is taken as data (`Round.startFlow`).
  How `tao` initialises or resets it is not modelled.
- Windows.WindowBuilder.SetFullscreen: the stored native mode is the given one unwrapped;
  whether it is the same `Arc` allocation is not stated. Object identity of `Arc`
  wrappers is not modelled.
- The pass-through window getters and setters (taokt/src/main/rust/window.rs:392-671) and
  `Window::id` only forward to `tao`.
- taokt/src/main/rust/monitor.rs is not part of this model: it is pass-through and
  formatting. Monitors, video modes and icons are opaque handles wrapped one to one.
- taokt/src/main/rust/icon.rs is not part of this model: file I/O and image decoding.
- The `CursorIcon` conversion (taokt/src/main/rust/types.rs:395-436) is a one-to-one
  renaming of cursor names with no decision in it.
- Floating-point values (sizes, positions, scale factors, scroll deltas, constraint bounds)
  are opaque bit patterns. No arithmetic is done on them.
- Types.ControlFlowToTao: the deadline is `now + duration_ms` on unbounded integers. The
  panic of `Instant + Duration` on overflow is not modelled.
- `Debug` texts of native values and lossy path strings are opaque strings.
- The iOS `count as usize` cast in `set_badge_count` is a foreign call, so it is not modelled.
- On Android the raw window handle never holds a native window (taokt/src/main/rust/graphics.rs:264-268).
  So `Graphics.RawWindowHandleDefault` is always `Err(Unsupported)` there, as the code is
  written.
