/** The binding's value types and their conversions to and from the library's types
    (taokt/src/main/rust/types.rs). Every conversion is total; the ones that go both
    ways are exact round trips on the binding's side, and the library-to-binding
    direction sends variants the binding does not name to a fixed catch-all. */
module Types {
  import opened Base
  import Tao

  // ---- errors ----

  datatype TaoError = Message(details: string) | Unsupported

  /** The `Display` text of `TaoError::Unsupported`. */
  const UNSUPPORTED_TEXT: string := "Unsupported on this platform"

  /** `TaoError::message`: a `Message` error holding the given text verbatim. */
  function MessageError(message: string): (e: TaoError)
    ensures ErrorDisplay(e) == message
    ensures e != Unsupported
  {
    Message(message)
  }

  /** The `Display` text of an error (`#[error(...)]`). */
  function ErrorDisplay(e: TaoError): (text: string)
  {
    match e
    case Message(details) => details
    case Unsupported => UNSUPPORTED_TEXT
  }

  /** The `From` conversions of library errors: only a `NotSupportedError` becomes
      `Unsupported`; every other error becomes a `Message` carrying its text. */
  function ErrorFromTao(e: Tao.Error): (r: TaoError)
    ensures r.Unsupported? <==> e.NotSupportedError?
    ensures !e.NotSupportedError? ==> r == MessageError(e.text)
  {
    match e
    case NotSupportedError => Unsupported
    case IoError(text) => MessageError(text)
    case ExternalError(text) => MessageError(text)
    case BadIcon(text) => MessageError(text)
    case OsError(text) => MessageError(text)
    case CallbackError(text) => MessageError(text)
  }

  // ---- element state ----

  datatype ElementState = Pressed | Released

  function ElementStateFromTao(s: Tao.ElementState): (r: ElementState)
    ensures r.Pressed? <==> s.Pressed?
  {
    match s
    case Pressed => Pressed
    case Released => Released
    case UnknownState => Released
  }

  function ElementStateToTao(s: ElementState): (r: Tao.ElementState)
    ensures ElementStateFromTao(r) == s
    ensures !r.UnknownState?
  {
    match s
    case Pressed => Tao.ElementState.Pressed
    case Released => Tao.ElementState.Released
  }

  // ---- device event filter ----

  datatype DeviceEventFilter = Always | Unfocused | Never

  /** Each filter maps to the library filter of the same name. */
  function DeviceEventFilterToTao(f: DeviceEventFilter): (r: Tao.DeviceEventFilter)
    ensures r.Always? <==> f.Always?
    ensures r.Unfocused? <==> f.Unfocused?
    ensures r.Never? <==> f.Never?
  {
    match f
    case Always => Tao.DeviceEventFilter.Always
    case Unfocused => Tao.DeviceEventFilter.Unfocused
    case Never => Tao.DeviceEventFilter.Never
  }

  // ---- geometry ----

  datatype LogicalSize = LogicalSize(width: F64, height: F64)
  datatype PhysicalSizeU32 = PhysicalSizeU32(width: U32, height: U32)
  datatype PhysicalPositionI32 = PhysicalPositionI32(x: I32, y: I32)
  datatype PhysicalPositionF64 = PhysicalPositionF64(x: F64, y: F64)

  function LogicalSizeToTao(s: LogicalSize): (r: Tao.LogicalSize<F64>)
    ensures r.width == s.width && r.height == s.height
  {
    Tao.LogicalSize(s.width, s.height)
  }

  function PhysicalSizeFromTao(s: Tao.PhysicalSize<U32>): (r: PhysicalSizeU32)
    ensures PhysicalSizeToTao(r) == s
  {
    PhysicalSizeU32(s.width, s.height)
  }

  function PhysicalSizeToTao(s: PhysicalSizeU32): (r: Tao.PhysicalSize<U32>)
    ensures r.width == s.width && r.height == s.height
  {
    Tao.PhysicalSize(s.width, s.height)
  }

  function PositionI32FromTao(p: Tao.PhysicalPosition<I32>): (r: PhysicalPositionI32)
    ensures PositionI32ToTao(r) == p
  {
    PhysicalPositionI32(p.x, p.y)
  }

  function PositionI32ToTao(p: PhysicalPositionI32): (r: Tao.PhysicalPosition<I32>)
    ensures r.x == p.x && r.y == p.y
  {
    Tao.PhysicalPosition(p.x, p.y)
  }

  function PositionF64FromTao(p: Tao.PhysicalPosition<F64>): (r: PhysicalPositionF64)
    ensures PositionF64ToTao(r) == p
  {
    PhysicalPositionF64(p.x, p.y)
  }

  function PositionF64ToTao(p: PhysicalPositionF64): (r: Tao.PhysicalPosition<F64>)
    ensures r.x == p.x && r.y == p.y
  {
    Tao.PhysicalPosition(p.x, p.y)
  }

  // ---- control flow ----

  datatype ControlFlow =
    | Keep
    | Wait
    | Poll
    | Exit
    | WaitUntil(durationMs: U64)

  /** `ControlFlow::to_tao`, with the clock reading `Instant::now()` passed in as `now`.
      `Keep` is the one directive that asks for no change. */
  function ControlFlowToTao(cf: ControlFlow, now: Tao.Instant): (r: Option<Tao.ControlFlow>)
    ensures r.None? <==> cf.Keep?
    ensures cf.Wait? <==> r == Some(Tao.ControlFlow.Wait)
    ensures cf.Poll? <==> r == Some(Tao.ControlFlow.Poll)
    ensures cf.Exit? <==> r == Some(Tao.ControlFlow.Exit)
    ensures cf.WaitUntil? <==> r.Some? && r.value.WaitUntil?
    ensures cf.WaitUntil? ==> r.value.deadline == now + cf.durationMs
    ensures r.Some? ==> !r.value.ExitWithCode?
  {
    match cf
    case Keep => Option.None
    case Wait => Some(Tao.ControlFlow.Wait)
    case Poll => Some(Tao.ControlFlow.Poll)
    case Exit => Some(Tao.ControlFlow.Exit)
    case WaitUntil(durationMs) => Some(Tao.WaitUntil(now + durationMs))
  }

  /** At a fixed clock reading, distinct directives give distinct results. */
  lemma ControlFlowToTaoInjective(a: ControlFlow, b: ControlFlow, now: Tao.Instant)
    requires ControlFlowToTao(a, now) == ControlFlowToTao(b, now)
    ensures a == b
  {
  }

  // ---- keys ----

  datatype Key =
    | Escape
    | ArrowLeft
    | ArrowRight
    | Character(value: string)
    | Other(value: string)

  /** Logical keys: the three named keys and characters are kept; anything else becomes
      `Other` carrying the library's `Debug` text. */
  function KeyFromTao(k: Tao.Key): (r: Key)
    ensures r.Escape? <==> k.Escape?
    ensures r.ArrowLeft? <==> k.ArrowLeft?
    ensures r.ArrowRight? <==> k.ArrowRight?
    ensures r.Character? <==> k.Character?
    ensures k.Character? ==> r.value == k.text
    ensures k.OtherKey? ==> r == Key.Other(k.debug)
  {
    match k
    case Escape => Key.Escape
    case ArrowLeft => Key.ArrowLeft
    case ArrowRight => Key.ArrowRight
    case Character(s) => Character(s)
    case OtherKey(debug) => Key.Other(debug)
  }

  datatype KeyCode =
    | Space
    | KeyA
    | KeyD
    | KeyL
    | KeyM
    | KeyV
    | Other(value: string)

  /** The text `{:?}` is taken to print for `KeyCode::Unidentified(NativeKeyCode::Unidentified)`.
      This is an assumed value: the library's `Debug` output is not part of this model, and
      nothing below depends on the exact text beyond its being fixed. */
  const UNIDENTIFIED_DEBUG: string := "Unidentified(Unidentified)"

  /** The six physical keys the binding names. */
  predicate IsNamedTaoKeyCode(k: Tao.KeyCode) {
    k.Space? || k.KeyA? || k.KeyD? || k.KeyL? || k.KeyM? || k.KeyV?
  }

  function KeyCodeFromTao(k: Tao.KeyCode): (r: KeyCode)
    ensures r.Other? <==> !IsNamedTaoKeyCode(k)
    ensures r.Space? <==> k.Space?
    ensures r.KeyA? <==> k.KeyA?
    ensures r.KeyD? <==> k.KeyD?
    ensures r.KeyL? <==> k.KeyL?
    ensures r.KeyM? <==> k.KeyM?
    ensures r.KeyV? <==> k.KeyV?
    ensures k.OtherCode? ==> r == KeyCode.Other(k.debug)
  {
    match k
    case Space => KeyCode.Space
    case KeyA => KeyCode.KeyA
    case KeyD => KeyCode.KeyD
    case KeyL => KeyCode.KeyL
    case KeyM => KeyCode.KeyM
    case KeyV => KeyCode.KeyV
    case Unidentified => KeyCode.Other(UNIDENTIFIED_DEBUG)
    case OtherCode(debug) => KeyCode.Other(debug)
  }

  /** Named keys round-trip exactly; every `Other` becomes the library's
      `Unidentified` code, whatever text it carried. */
  function KeyCodeToTao(k: KeyCode): (r: Tao.KeyCode)
    ensures !k.Other? ==> KeyCodeFromTao(r) == k
    ensures k.Other? <==> r.Unidentified?
    ensures IsNamedTaoKeyCode(r) <==> !k.Other?
  {
    match k
    case Space => Tao.KeyCode.Space
    case KeyA => Tao.KeyCode.KeyA
    case KeyD => Tao.KeyCode.KeyD
    case KeyL => Tao.KeyCode.KeyL
    case KeyM => Tao.KeyCode.KeyM
    case KeyV => Tao.KeyCode.KeyV
    case Other(_) => Tao.Unidentified
  }

  /** A named library key code survives the trip through the binding. */
  lemma NamedKeyCodeRoundTrip(k: Tao.KeyCode)
    requires IsNamedTaoKeyCode(k)
    ensures KeyCodeToTao(KeyCodeFromTao(k)) == k
  {
  }

  // ---- modifiers ----

  datatype ModifiersState = ModifiersState(shift: bool, control: bool, alt: bool, superKey: bool)

  function ModifiersFromTao(m: Tao.ModifiersState): (r: ModifiersState)
    ensures r.shift == m.shift && r.control == m.control
    ensures r.alt == m.alt && r.superKey == m.superKey
  {
    ModifiersState(m.shift, m.control, m.alt, m.superKey)
  }

  // ---- mouse ----

  datatype MouseButton = Left | Right | Middle | Other(value: U16)

  /** A library button the binding does not name becomes `Other { value: 0 }`. */
  function MouseButtonFromTao(b: Tao.MouseButton): (r: MouseButton)
    ensures b.UnknownButton? ==> r == MouseButton.Other(0)
    ensures b.Other? ==> r == MouseButton.Other(b.code)
    ensures r.Left? <==> b.Left?
    ensures r.Right? <==> b.Right?
    ensures r.Middle? <==> b.Middle?
  {
    match b
    case Left => MouseButton.Left
    case Right => MouseButton.Right
    case Middle => MouseButton.Middle
    case Other(v) => MouseButton.Other(v)
    case UnknownButton => MouseButton.Other(0)
  }

  function MouseButtonToTao(b: MouseButton): (r: Tao.MouseButton)
    ensures MouseButtonFromTao(r) == b
    ensures !r.UnknownButton?
  {
    match b
    case Left => Tao.MouseButton.Left
    case Right => Tao.MouseButton.Right
    case Middle => Tao.MouseButton.Middle
    case Other(v) => Tao.MouseButton.Other(v)
  }

  datatype MouseScrollDelta =
    | LineDelta(x: F32, y: F32)
    | PixelDelta(px: F64, py: F64)
    | Other(value: string)

  /** Line deltas keep both components; a pixel delta's position is split into its two
      coordinates. */
  function ScrollDeltaFromTao(d: Tao.MouseScrollDelta): (r: MouseScrollDelta)
    ensures d.LineDelta? <==> r.LineDelta?
    ensures d.LineDelta? ==> r.x == d.x && r.y == d.y
    ensures d.PixelDelta? <==> r.PixelDelta?
    ensures d.PixelDelta? ==> r.px == d.position.x && r.py == d.position.y
    ensures d.OtherDelta? ==> r == MouseScrollDelta.Other(d.debug)
  {
    match d
    case LineDelta(x, y) => LineDelta(x, y)
    case PixelDelta(p) => PixelDelta(p.x, p.y)
    case OtherDelta(debug) => MouseScrollDelta.Other(debug)
  }

  // ---- theme ----

  datatype Theme = Light | Dark

  /** A library theme the binding does not name reads as `Light`. */
  function ThemeFromTao(t: Tao.Theme): (r: Theme)
    ensures r.Dark? <==> t.Dark?
  {
    match t
    case Light => Light
    case Dark => Dark
    case UnknownTheme => Light
  }

  function ThemeToTao(t: Theme): (r: Tao.Theme)
    ensures ThemeFromTao(r) == t
    ensures !r.UnknownTheme?
  {
    match t
    case Light => Tao.Theme.Light
    case Dark => Tao.Theme.Dark
  }

  // ---- progress indicator ----

  datatype ProgressState = None | Normal | Indeterminate | Paused | Error

  /** Each progress state maps to the library state of the same name. */
  function ProgressStateToTao(s: ProgressState): (r: Tao.ProgressState)
    ensures r.None? <==> s.None?
    ensures r.Normal? <==> s.Normal?
    ensures r.Indeterminate? <==> s.Indeterminate?
    ensures r.Paused? <==> s.Paused?
    ensures r.Error? <==> s.Error?
  {
    match s
    case None => Tao.ProgressState.None
    case Normal => Tao.ProgressState.Normal
    case Indeterminate => Tao.ProgressState.Indeterminate
    case Paused => Tao.ProgressState.Paused
    case Error => Tao.ProgressState.Error
  }

  datatype ProgressBarState = ProgressBarState(
    progress: Option<U64>,
    state: Option<ProgressState>,
    desktopFilename: Option<string>)

  /** The progress value and the desktop file name pass through unchanged; a present
      state is converted and an absent one stays absent. */
  function ProgressBarStateToTao(s: ProgressBarState): (r: Tao.ProgressBarState)
    ensures r.progress == s.progress
    ensures r.desktopFilename == s.desktopFilename
    ensures r.state.Some? <==> s.state.Some?
    ensures s.state.Some? ==> r.state.value == ProgressStateToTao(s.state.value)
  {
    Tao.ProgressBarState(
      s.progress,
      match s.state
      case None => Option.None
      case Some(st) => Some(ProgressStateToTao(st)),
      s.desktopFilename)
  }

  // ---- size constraints ----

  datatype WindowSizeConstraints = WindowSizeConstraints(
    minWidth: Option<F64>,
    maxWidth: Option<F64>,
    minHeight: Option<F64>,
    maxHeight: Option<F64>)

  /** A bound in logical units (`LogicalUnit::new(w).into()`). */
  function LogicalBound(b: Option<F64>): (r: Option<Tao.PixelUnit>)
    ensures r.Some? <==> b.Some?
    ensures b.Some? ==> r.value == Tao.Logical(b.value)
  {
    match b
    case None => Option.None
    case Some(w) => Some(Tao.Logical(w))
  }

  /** The four bounds are converted each on its own: no bound is derived from another
      and a minimum above its maximum is passed on as it is. */
  function SizeConstraintsToTao(c: WindowSizeConstraints): (r: Tao.WindowSizeConstraints)
    ensures r.minWidth == LogicalBound(c.minWidth)
    ensures r.maxWidth == LogicalBound(c.maxWidth)
    ensures r.minHeight == LogicalBound(c.minHeight)
    ensures r.maxHeight == LogicalBound(c.maxHeight)
  {
    Tao.WindowSizeConstraints(
      LogicalBound(c.minWidth),
      LogicalBound(c.maxWidth),
      LogicalBound(c.minHeight),
      LogicalBound(c.maxHeight))
  }

  /** Changing one bound changes only the matching library bound: each of the four
      library bounds depends on its own field alone. */
  lemma SizeConstraintsIndependent(c: WindowSizeConstraints, d: WindowSizeConstraints)
    ensures c.minWidth == d.minWidth <==> SizeConstraintsToTao(c).minWidth == SizeConstraintsToTao(d).minWidth
    ensures c.maxWidth == d.maxWidth <==> SizeConstraintsToTao(c).maxWidth == SizeConstraintsToTao(d).maxWidth
    ensures c.minHeight == d.minHeight <==> SizeConstraintsToTao(c).minHeight == SizeConstraintsToTao(d).minHeight
    ensures c.maxHeight == d.maxHeight <==> SizeConstraintsToTao(c).maxHeight == SizeConstraintsToTao(d).maxHeight
  {
  }
}
