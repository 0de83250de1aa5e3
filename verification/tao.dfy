/** The external windowing library's vocabulary, as far as the binding reads or builds it.
    This module holds types only: the library's behaviour is not part of this model.

    Conventions:
    - Where the binding matches a library enum with a final `_ =>` or `other =>` arm, the
      enum gets one extra variant standing for "any variant not named here". When the
      binding formats that variant with `{:?}`, the extra variant carries the text the
      library's `Debug` implementation prints, as an opaque string.
    - Handles (window ids, monitors, video modes, icons, the loop target) are opaque
      identities. Raw pointers the binding casts `as u64` are carried as that `u64`. */
module Tao {
  import opened Base

  /** A point on the library's monotonic clock, in milliseconds. */
  type Instant = int

  datatype WindowId = WindowId(raw: nat)
  datatype DeviceId = DeviceId(raw: nat)
  /** The `EventLoopWindowTarget` the loop passes to each callback invocation. */
  datatype WindowTarget = WindowTarget(raw: nat)
  datatype MonitorHandle = MonitorHandle(raw: nat)
  datatype VideoModeHandle = VideoModeHandle(raw: nat)
  datatype IconHandle = IconHandle(raw: nat)

  // ---- errors ----

  /** The library and standard-library error types the binding converts. Each carries
      the text of its `Display` implementation, except `NotSupportedError`, whose text
      the binding never reads. `CallbackError` is the foreign-call layer's
      `UnexpectedUniFFICallbackError` with its `reason`. */
  datatype Error =
    | IoError(text: string)
    | ExternalError(text: string)
    | NotSupportedError
    | BadIcon(text: string)
    | OsError(text: string)
    | CallbackError(text: string)

  // ---- geometry ----

  datatype LogicalSize<P> = LogicalSize(width: P, height: P)
  datatype PhysicalSize<P> = PhysicalSize(width: P, height: P)
  datatype PhysicalPosition<P> = PhysicalPosition(x: P, y: P)
  /** `tao::dpi::PixelUnit`. */
  datatype PixelUnit = Physical(pixels: I32) | Logical(units: F64)

  // ---- input ----

  datatype ElementState = Pressed | Released | UnknownState

  datatype DeviceEventFilter = Always | Unfocused | Never

  datatype ControlFlow =
    | Poll
    | Wait
    | WaitUntil(deadline: Instant)
    | Exit
    | ExitWithCode(code: int)

  /** Logical keys. */
  datatype Key =
    | Escape
    | ArrowLeft
    | ArrowRight
    | Character(text: string)
    | OtherKey(debug: string)

  /** Physical keys. `Unidentified` stands for `Unidentified(NativeKeyCode::Unidentified)`,
      the only unidentified code the binding builds. */
  datatype KeyCode =
    | Space
    | KeyA
    | KeyD
    | KeyL
    | KeyM
    | KeyV
    | Unidentified
    | OtherCode(debug: string)

  /** What `shift_key()`, `control_key()`, `alt_key()` and `super_key()` answer. */
  datatype ModifiersState = ModifiersState(shift: bool, control: bool, alt: bool, superKey: bool)

  datatype MouseButton = Left | Right | Middle | Other(code: U16) | UnknownButton

  datatype MouseScrollDelta =
    | LineDelta(x: F32, y: F32)
    | PixelDelta(position: PhysicalPosition<F64>)
    | OtherDelta(debug: string)

  datatype Theme = Light | Dark | UnknownTheme

  // ---- window attributes ----

  datatype ProgressState = None | Normal | Indeterminate | Paused | Error

  datatype ProgressBarState = ProgressBarState(
    progress: Option<U64>,
    state: Option<ProgressState>,
    desktopFilename: Option<string>)

  datatype WindowSizeConstraints = WindowSizeConstraints(
    minWidth: Option<PixelUnit>,
    maxWidth: Option<PixelUnit>,
    minHeight: Option<PixelUnit>,
    maxHeight: Option<PixelUnit>)

  datatype Fullscreen =
    | Borderless(monitor: Option<MonitorHandle>)
    | Exclusive(mode: VideoModeHandle)
    | UnknownFullscreen

  // ---- events ----

  datatype StartCause =
    | Init
    | Poll
    | WaitCancelled(start: Instant, requestedResume: Option<Instant>)
    | ResumeTimeReached(start: Instant, requestedResumeAt: Instant)
    | OtherCause(debug: string)

  datatype RawKeyEvent = RawKeyEvent(physicalKey: KeyCode, state: ElementState)

  datatype KeyEvent = KeyEvent(
    physicalKey: KeyCode,
    logicalKey: Key,
    text: Option<string>,
    location: nat,
    state: ElementState,
    repeat: bool)

  /** A dropped file's path, carried as its lossy UTF-8 rendering. */
  datatype Path = Path(lossy: string)

  datatype WindowEvent =
    | CloseRequested
    | Destroyed
    | DroppedFile(path: Path)
    | KeyboardInput(device: DeviceId, event: KeyEvent, isSynthetic: bool)
    | ModifiersChanged(modifiers: ModifiersState)
    | CursorMoved(device: DeviceId, position: PhysicalPosition<F64>)
    | CursorEntered(device: DeviceId)
    | MouseInput(device: DeviceId, state: ElementState, button: MouseButton)
    | Moved(movedTo: PhysicalPosition<I32>)
    | ThemeChanged(theme: Theme)
    | OtherWindowEvent(debug: string)

  datatype DeviceEvent =
    | MouseMotion(delta: (F64, F64))
    | MouseWheel(scroll: MouseScrollDelta)
    | Button(button: U32, state: ElementState)
    | Key(event: RawKeyEvent)
    | OtherDeviceEvent(debug: string)

  /** Events delivered by the loop, `T` being the application's user-event type. */
  datatype Event<T> =
    | NewEvents(cause: StartCause)
    | WindowEvent(windowId: WindowId, windowEvent: WindowEvent)
    | DeviceEvent(device: DeviceId, deviceEvent: DeviceEvent)
    | UserEvent(payload: T)
    | MainEventsCleared
    | RedrawRequested(windowId: WindowId)
    | RedrawEventsCleared
    | Reopen(hasVisibleWindows: bool)
    | LoopDestroyed
    | OtherEvent(debug: string)

  // ---- windows ----

  /** What a native window answers to the queries the binding makes of it. The
      platform-specific answers are only read on their own platform. */
  datatype Window = Window(
    id: WindowId,
    innerSize: PhysicalSize<U32>,
    scaleFactor: F64,
    nsView: U64,
    nsWindow: U64,
    uiView: U64,
    uiWindow: U64,
    hwnd: U64,
    hinstance: U64,
    gtkWindow: nat,
    xlibWindow: Option<U64>,
    xlibDisplay: Option<U64>,
    xlibScreenId: Option<I32>,
    waylandSurface: Option<U64>,
    waylandDisplay: Option<U64>)
}
