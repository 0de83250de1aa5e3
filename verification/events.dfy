/** The binding's event vocabulary and its conversion from the library's events
    (taokt/src/main/rust/events.rs). Conversions keep the kind of every event they
    recognise and replace anything else by an `Other` variant carrying the library's
    `Debug` text. */
module Events {
  import opened Base
  import Tao
  import opened Types

  /** The application-defined payload carried by user events. */
  datatype TaoUserEvent = Timer | Message(value: string)

  // ---- start causes ----

  datatype TaoStartCause =
    | Init
    | Poll
    | WaitCancelled
    | ResumeTimeReached
    | Other(value: string)

  /** Four causes are kept by kind, their timing fields dropped. */
  function StartCauseFromTao(c: Tao.StartCause): (r: TaoStartCause)
    ensures r.Init? <==> c.Init?
    ensures r.Poll? <==> c.Poll?
    ensures r.WaitCancelled? <==> c.WaitCancelled?
    ensures r.ResumeTimeReached? <==> c.ResumeTimeReached?
    ensures c.OtherCause? ==> r == TaoStartCause.Other(c.debug)
  {
    match c
    case Init => TaoStartCause.Init
    case Poll => TaoStartCause.Poll
    case WaitCancelled(_, _) => TaoStartCause.WaitCancelled
    case ResumeTimeReached(_, _) => TaoStartCause.ResumeTimeReached
    case OtherCause(debug) => TaoStartCause.Other(debug)
  }

  /** Two waits cancelled at different times read the same after conversion. */
  lemma StartCauseDropsTiming(a: Tao.StartCause, b: Tao.StartCause)
    requires a.WaitCancelled? && b.WaitCancelled?
    ensures StartCauseFromTao(a) == StartCauseFromTao(b)
  {
  }

  // ---- key events ----

  datatype RawKeyEvent = RawKeyEvent(physicalKey: KeyCode, state: ElementState)

  function RawKeyEventFromTao(e: Tao.RawKeyEvent): (r: RawKeyEvent)
    ensures r.physicalKey == KeyCodeFromTao(e.physicalKey)
    ensures r.state == ElementStateFromTao(e.state)
  {
    RawKeyEvent(KeyCodeFromTao(e.physicalKey), ElementStateFromTao(e.state))
  }

  datatype KeyEvent = KeyEvent(physicalKey: KeyCode, logicalKey: Key, state: ElementState)

  /** Keeps the physical key, the logical key and the state, each through its own
      conversion; the text, location and repeat flag are dropped. */
  function KeyEventFromTao(e: Tao.KeyEvent): (r: KeyEvent)
    ensures r.physicalKey == KeyCodeFromTao(e.physicalKey)
    ensures r.logicalKey == KeyFromTao(e.logicalKey)
    ensures r.state == ElementStateFromTao(e.state)
  {
    KeyEvent(KeyCodeFromTao(e.physicalKey), KeyFromTao(e.logicalKey), ElementStateFromTao(e.state))
  }

  /** Only the three kept fields matter: two key events that differ in text, location
      or repetition convert alike. */
  lemma KeyEventIgnoresExtras(a: Tao.KeyEvent, b: Tao.KeyEvent)
    requires a.physicalKey == b.physicalKey && a.logicalKey == b.logicalKey && a.state == b.state
    ensures KeyEventFromTao(a) == KeyEventFromTao(b)
  {
  }

  // ---- window events ----

  datatype TaoWindowEvent =
    | CloseRequested
    | Destroyed
    | DroppedFile(path: string)
    | KeyboardInput(keyEvent: KeyEvent)
    | ModifiersChanged(modifiers: ModifiersState)
    | CursorMoved(cursor: PhysicalPositionF64)
    | CursorEntered
    | MouseInput(state: ElementState, button: MouseButton)
    | Moved(position: PhysicalPositionI32)
    | ThemeChanged(theme: Theme)
    | Other(value: string)

  function WindowEventFromTao(e: Tao.WindowEvent): (r: TaoWindowEvent)
    ensures r.CloseRequested? <==> e.CloseRequested?
    ensures r.Destroyed? <==> e.Destroyed?
    ensures r.DroppedFile? <==> e.DroppedFile?
    ensures e.DroppedFile? ==> r.path == e.path.lossy
    ensures r.KeyboardInput? <==> e.KeyboardInput?
    ensures e.KeyboardInput? ==> r.keyEvent == KeyEventFromTao(e.event)
    ensures r.ModifiersChanged? <==> e.ModifiersChanged?
    ensures e.ModifiersChanged? ==> r.modifiers == ModifiersFromTao(e.modifiers)
    ensures r.CursorMoved? <==> e.CursorMoved?
    ensures e.CursorMoved? ==> PositionF64ToTao(r.cursor) == e.position
    ensures r.CursorEntered? <==> e.CursorEntered?
    ensures r.MouseInput? <==> e.MouseInput?
    ensures e.MouseInput? ==> r.state == ElementStateFromTao(e.state)
    ensures e.MouseInput? ==> r.button == MouseButtonFromTao(e.button)
    ensures r.Moved? <==> e.Moved?
    ensures e.Moved? ==> PositionI32ToTao(r.position) == e.movedTo
    ensures r.ThemeChanged? <==> e.ThemeChanged?
    ensures e.ThemeChanged? ==> r.theme == ThemeFromTao(e.theme)
    ensures e.OtherWindowEvent? ==> r == TaoWindowEvent.Other(e.debug)
  {
    match e
    case CloseRequested => TaoWindowEvent.CloseRequested
    case Destroyed => TaoWindowEvent.Destroyed
    case DroppedFile(path) => TaoWindowEvent.DroppedFile(path.lossy)
    case KeyboardInput(_, event, _) => TaoWindowEvent.KeyboardInput(KeyEventFromTao(event))
    case ModifiersChanged(modifiers) => TaoWindowEvent.ModifiersChanged(ModifiersFromTao(modifiers))
    case CursorMoved(_, position) => TaoWindowEvent.CursorMoved(PositionF64FromTao(position))
    case CursorEntered(_) => TaoWindowEvent.CursorEntered
    case MouseInput(_, state, button) =>
      TaoWindowEvent.MouseInput(ElementStateFromTao(state), MouseButtonFromTao(button))
    case Moved(position) => TaoWindowEvent.Moved(PositionI32FromTao(position))
    case ThemeChanged(theme) => TaoWindowEvent.ThemeChanged(ThemeFromTao(theme))
    case OtherWindowEvent(debug) => TaoWindowEvent.Other(debug)
  }

  // ---- device events ----

  datatype TaoDeviceEvent =
    | MouseMotion(deltaX: F64, deltaY: F64)
    | MouseWheel(delta: MouseScrollDelta)
    | Button(button: U32, state: ElementState)
    | Key(rawKey: RawKeyEvent)
    | Other(value: string)

  function DeviceEventFromTao(e: Tao.DeviceEvent): (r: TaoDeviceEvent)
    ensures r.MouseMotion? <==> e.MouseMotion?
    ensures e.MouseMotion? ==> r.deltaX == e.delta.0 && r.deltaY == e.delta.1
    ensures r.MouseWheel? <==> e.MouseWheel?
    ensures e.MouseWheel? ==> r.delta == ScrollDeltaFromTao(e.scroll)
    ensures r.Button? <==> e.Button?
    ensures e.Button? ==> r.button == e.button && r.state == ElementStateFromTao(e.state)
    ensures r.Key? <==> e.Key?
    ensures e.Key? ==> r.rawKey == RawKeyEventFromTao(e.event)
    ensures e.OtherDeviceEvent? ==> r == TaoDeviceEvent.Other(e.debug)
  {
    match e
    case MouseMotion(delta) => TaoDeviceEvent.MouseMotion(delta.0, delta.1)
    case MouseWheel(delta) => TaoDeviceEvent.MouseWheel(ScrollDeltaFromTao(delta))
    case Button(button, state) => TaoDeviceEvent.Button(button, ElementStateFromTao(state))
    case Key(event) => TaoDeviceEvent.Key(RawKeyEventFromTao(event))
    case OtherDeviceEvent(debug) => TaoDeviceEvent.Other(debug)
  }

  // ---- events ----

  datatype TaoEvent =
    | NewEvents(cause: TaoStartCause)
    | WindowEvent(windowId: U64, event: TaoWindowEvent)
    | DeviceEvent(deviceEvent: TaoDeviceEvent)
    | UserEvent(userEvent: TaoUserEvent)
    | MainEventsCleared
    | RedrawRequested(windowId: U64)
    | RedrawEventsCleared
    | Reopen(hasVisibleWindows: bool)
    | LoopDestroyed
    | Other(value: string)

  /** The library window id an event is addressed to, if any. */
  function WindowIdOf(e: Tao.Event<TaoUserEvent>): (id: Option<Tao.WindowId>)
    ensures id.Some? <==> e.WindowEvent? || e.RedrawRequested?
    ensures id.Some? ==> id.value == e.windowId
  {
    match e
    case WindowEvent(windowId, _) => Some(windowId)
    case RedrawRequested(windowId) => Some(windowId)
    case _ => Option.None
  }

  /** `convert_event`: every recognised event keeps its kind, window ids are replaced by
      the numbers `mapWindowId` gives them, and payloads are converted field by field. */
  function ConvertEvent(e: Tao.Event<TaoUserEvent>, mapWindowId: Tao.WindowId -> U64): (r: TaoEvent)
    ensures r.NewEvents? <==> e.NewEvents?
    ensures e.NewEvents? ==> r.cause == StartCauseFromTao(e.cause)
    ensures r.WindowEvent? <==> e.WindowEvent?
    ensures e.WindowEvent? ==> r.event == WindowEventFromTao(e.windowEvent)
    ensures r.DeviceEvent? <==> e.DeviceEvent?
    ensures e.DeviceEvent? ==> r.deviceEvent == DeviceEventFromTao(e.deviceEvent)
    ensures r.UserEvent? <==> e.UserEvent?
    ensures e.UserEvent? ==> r.userEvent == e.payload
    ensures r.MainEventsCleared? <==> e.MainEventsCleared?
    ensures r.RedrawRequested? <==> e.RedrawRequested?
    ensures r.RedrawEventsCleared? <==> e.RedrawEventsCleared?
    ensures r.Reopen? <==> e.Reopen?
    ensures e.Reopen? ==> r.hasVisibleWindows == e.hasVisibleWindows
    ensures r.LoopDestroyed? <==> e.LoopDestroyed?
    ensures e.OtherEvent? ==> r == TaoEvent.Other(e.debug)
    ensures WindowIdOf(e).Some? ==> r.windowId == mapWindowId(WindowIdOf(e).value)
  {
    match e
    case NewEvents(cause) => TaoEvent.NewEvents(StartCauseFromTao(cause))
    case WindowEvent(windowId, event) => TaoEvent.WindowEvent(mapWindowId(windowId), WindowEventFromTao(event))
    case DeviceEvent(_, event) => TaoEvent.DeviceEvent(DeviceEventFromTao(event))
    case UserEvent(event) => TaoEvent.UserEvent(event)
    case MainEventsCleared => TaoEvent.MainEventsCleared
    case RedrawRequested(windowId) => TaoEvent.RedrawRequested(mapWindowId(windowId))
    case RedrawEventsCleared => TaoEvent.RedrawEventsCleared
    case Reopen(hasVisibleWindows) => TaoEvent.Reopen(hasVisibleWindows)
    case LoopDestroyed => TaoEvent.LoopDestroyed
    case OtherEvent(debug) => TaoEvent.Other(debug)
  }

  /** The id mapper is consulted at most at the event's own window id: two mappers that
      agree there give the same converted event, and for events without a window id
      any two mappers do. */
  lemma ConvertEventConsultsOnlyWindowId(
    e: Tao.Event<TaoUserEvent>, f: Tao.WindowId -> U64, g: Tao.WindowId -> U64)
    requires WindowIdOf(e).Some? ==> f(WindowIdOf(e).value) == g(WindowIdOf(e).value)
    ensures ConvertEvent(e, f) == ConvertEvent(e, g)
  {
  }
}
