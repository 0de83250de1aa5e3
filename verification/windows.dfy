/** Windows, their builder and fullscreen modes (taokt/src/main/rust/window.rs). */
module Windows {
  import opened Base
  import opened Platforms
  import Tao
  import Types
  import Graphics

  /** The binding's wrappers around library handles (`Arc<Monitor>`, `Arc<VideoMode>`,
      `Arc<Icon>`): each holds the library value it was made from. */
  datatype Monitor = Monitor(inner: Tao.MonitorHandle)
  datatype VideoMode = VideoMode(inner: Tao.VideoModeHandle)
  datatype Icon = Icon(inner: Tao.IconHandle)

  // ---- fullscreen ----

  datatype Fullscreen =
    | Borderless(monitor: Option<Monitor>)
    | Exclusive(videoMode: VideoMode)

  function FullscreenFromTao(f: Tao.Fullscreen): (r: Fullscreen)
    ensures r.Exclusive? <==> f.Exclusive?
    ensures f.Exclusive? ==> r.videoMode.inner == f.mode
    ensures f.Borderless? ==> r.monitor.Some? == f.monitor.Some?
    ensures f.Borderless? && f.monitor.Some? ==> r.monitor == Some(Monitor(f.monitor.value))
    ensures f.UnknownFullscreen? ==> r == Borderless(None)
  {
    match f
    case Borderless(monitor) =>
      Borderless(match monitor case None => None case Some(m) => Some(Monitor(m)))
    case Exclusive(mode) => Exclusive(VideoMode(mode))
    case UnknownFullscreen => Borderless(None)
  }

  /** `Fullscreen::to_tao`: keeps the variant and whether a monitor is named; converting
      back gives the same fullscreen mode. */
  function FullscreenToTao(f: Fullscreen): (r: Tao.Fullscreen)
    ensures r.Borderless? <==> f.Borderless?
    ensures f.Borderless? ==> r.monitor.Some? == f.monitor.Some?
    ensures f.Borderless? && f.monitor.Some? ==> r.monitor == Some(f.monitor.value.inner)
    ensures f.Exclusive? ==> r == Tao.Exclusive(f.videoMode.inner)
    ensures !r.UnknownFullscreen?
    ensures FullscreenFromTao(r) == f
  {
    match f
    case Borderless(monitor) =>
      Tao.Borderless(match monitor case None => None case Some(m) => Some(m.inner))
    case Exclusive(videoMode) => Tao.Exclusive(videoMode.inner)
  }

  /** Every library fullscreen mode the binding names survives the trip through the
      binding's type. */
  lemma FullscreenFromTaoRoundTrip(f: Tao.Fullscreen)
    requires !f.UnknownFullscreen?
    ensures FullscreenToTao(FullscreenFromTao(f)) == f
  {
  }

  // ---- window builder ----

  /** The window a new window is made a child of, in each target's terms. */
  datatype ParentWindow =
    | NsWindowParent(nsWindow: U64)
    | HwndParent(hwnd: U64)
    | TransientFor(gtkWindow: nat)

  /** The attributes a builder has been given. `None` leaves the library's default in
      place; `Some(v)` is the value the last setter stored. */
  datatype WindowConfig = WindowConfig(
    title: Option<string>,
    innerSize: Option<Tao.LogicalSize<F64>>,
    minInnerSize: Option<Tao.LogicalSize<F64>>,
    decorations: Option<bool>,
    resizable: Option<bool>,
    transparent: Option<bool>,
    fullscreen: Option<Option<Tao.Fullscreen>>,
    windowIcon: Option<Option<Tao.IconHandle>>,
    theme: Option<Option<Tao.Theme>>,
    parent: Option<ParentWindow>)

  const Unconfigured: WindowConfig :=
    WindowConfig(None, None, None, None, None, None, None, None, None, None)

  /** The targets on which a builder can be given a parent window. */
  predicate SupportsParentWindow(p: Platform) {
    p.MacOS? || p.Windows? || IsUnixFamily(p)
  }

  /** A native window together with the number the binding gave it. */
  datatype Window = Window(id: U64, inner: Tao.Window)

  /** `WindowBuilder`: a configuration that each setter replaces one attribute of. */
  class WindowBuilder {
    var config: WindowConfig

    constructor ()
      ensures config == Unconfigured
    {
      config := Unconfigured;
    }

    method SetTitle(title: string)
      modifies this
      ensures config == old(config).(title := Some(title))
    {
      config := config.(title := Some(title));
    }

    method SetInnerSize(size: Types.LogicalSize)
      modifies this
      ensures config == old(config).(innerSize := Some(Types.LogicalSizeToTao(size)))
    {
      config := config.(innerSize := Some(Tao.LogicalSize(size.width, size.height)));
    }

    method SetMinInnerSize(size: Types.LogicalSize)
      modifies this
      ensures config == old(config).(minInnerSize := Some(Types.LogicalSizeToTao(size)))
    {
      config := config.(minInnerSize := Some(Tao.LogicalSize(size.width, size.height)));
    }

    method SetDecorations(decorations: bool)
      modifies this
      ensures config == old(config).(decorations := Some(decorations))
    {
      config := config.(decorations := Some(decorations));
    }

    method SetResizable(resizable: bool)
      modifies this
      ensures config == old(config).(resizable := Some(resizable))
    {
      config := config.(resizable := Some(resizable));
    }

    method SetTransparent(transparent: bool)
      modifies this
      ensures config == old(config).(transparent := Some(transparent))
    {
      config := config.(transparent := Some(transparent));
    }

    method SetFullscreen(fullscreen: Option<Fullscreen>)
      modifies this
      ensures config == old(config).(fullscreen := Some(
        match fullscreen case None => None case Some(f) => Some(FullscreenToTao(f))))
      ensures fullscreen.Some? ==> FullscreenFromTao(config.fullscreen.value.value) == fullscreen.value
    {
      var native := match fullscreen case None => None case Some(f) => Some(FullscreenToTao(f));
      config := config.(fullscreen := Some(native));
    }

    method SetWindowIcon(icon: Option<Icon>)
      modifies this
      ensures config == old(config).(windowIcon := Some(match icon case None => None case Some(i) => Some(i.inner)))
    {
      var native := match icon case None => None case Some(i) => Some(i.inner);
      config := config.(windowIcon := Some(native));
    }

    method SetTheme(theme: Option<Types.Theme>)
      modifies this
      ensures config == old(config).(theme := Some(
        match theme case None => None case Some(t) => Some(Types.ThemeToTao(t))))
      ensures theme.Some? ==> Types.ThemeFromTao(config.theme.value.value) == theme.value
    {
      var native := match theme case None => None case Some(t) => Some(Types.ThemeToTao(t));
      config := config.(theme := Some(native));
    }

    /** Makes the new window a child of `parent` on macOS, Windows and the Unix family;
        elsewhere fails with `Unsupported` and leaves the configuration as it was. */
    method SetParentWindow(p: Platform, parent: Window) returns (r: Result<(), Types.TaoError>)
      modifies this
      ensures r.Ok? <==> SupportsParentWindow(p)
      ensures r.Err? ==> r.error == Types.Unsupported && config == old(config)
      ensures p.MacOS? ==> config == old(config).(parent := Some(NsWindowParent(parent.inner.nsWindow)))
      ensures p.Windows? ==> config == old(config).(parent := Some(HwndParent(parent.inner.hwnd)))
      ensures IsUnixFamily(p) ==> config == old(config).(parent := Some(TransientFor(parent.inner.gtkWindow)))
    {
      if p.MacOS? {
        config := config.(parent := Some(NsWindowParent(parent.inner.nsWindow)));
        return Ok(());
      }
      if p.Windows? {
        config := config.(parent := Some(HwndParent(parent.inner.hwnd)));
        return Ok(());
      }
      if IsUnixFamily(p) {
        config := config.(parent := Some(TransientFor(parent.inner.gtkWindow)));
        return Ok(());
      }
      return Err(Types.Unsupported);
    }

    /** A copy of the configuration, which stays as it is. */
    method CloneInner() returns (c: WindowConfig)
      ensures c == config
    {
      c := config;
    }
  }

  // ---- platform handle getters ----

  /** The value of a successful result, `None` for an error. */
  function OkValue<T>(r: Result<T, Types.TaoError>): (o: Option<T>)
    ensures o.Some? <==> r.Ok?
    ensures r.Ok? ==> o.value == r.value
  {
    match r
    case Ok(v) => Some(v)
    case Err(_) => None
  }

  function NsViewHandle(p: Platform, w: Window): (r: Result<U64, Types.TaoError>)
    ensures r.Ok? <==> p.MacOS?
    ensures r.Ok? ==> r.value == w.inner.nsView
    ensures r.Err? ==> r.error == Types.Unsupported
  {
    if p.MacOS? then Ok(w.inner.nsView) else Err(Types.Unsupported)
  }

  function NsWindowHandle(p: Platform, w: Window): (r: Result<U64, Types.TaoError>)
    ensures r.Ok? <==> p.MacOS?
    ensures r.Ok? ==> r.value == w.inner.nsWindow
    ensures r.Err? ==> r.error == Types.Unsupported
  {
    if p.MacOS? then Ok(w.inner.nsWindow) else Err(Types.Unsupported)
  }

  function HwndHandle(p: Platform, w: Window): (r: Result<U64, Types.TaoError>)
    ensures r.Ok? <==> p.Windows?
    ensures r.Ok? ==> r.value == w.inner.hwnd
    ensures r.Err? ==> r.error == Types.Unsupported
  {
    if p.Windows? then Ok(w.inner.hwnd) else Err(Types.Unsupported)
  }

  function HinstanceHandle(p: Platform, w: Window): (r: Result<U64, Types.TaoError>)
    ensures r.Ok? <==> p.Windows?
    ensures r.Ok? ==> r.value == w.inner.hinstance
    ensures r.Err? ==> r.error == Types.Unsupported
  {
    if p.Windows? then Ok(w.inner.hinstance) else Err(Types.Unsupported)
  }

  /** A Unix-family getter: the value the window reports, `Unsupported` when it reports
      none or the target is not in the Unix family. */
  function UnixHandle<T>(p: Platform, reported: Option<T>): (r: Result<T, Types.TaoError>)
    ensures r.Ok? <==> IsUnixFamily(p) && reported.Some?
    ensures r.Ok? ==> r.value == reported.value
    ensures r.Err? ==> r.error == Types.Unsupported
  {
    if IsUnixFamily(p) && reported.Some? then Ok(reported.value) else Err(Types.Unsupported)
  }

  function XlibWindowHandle(p: Platform, w: Window): (r: Result<U64, Types.TaoError>)
    ensures r.Ok? <==> IsUnixFamily(p) && w.inner.xlibWindow.Some?
    ensures r.Ok? ==> r.value == w.inner.xlibWindow.value
    ensures r.Err? ==> r.error == Types.Unsupported
  {
    UnixHandle(p, w.inner.xlibWindow)
  }

  function XlibDisplayHandle(p: Platform, w: Window): (r: Result<U64, Types.TaoError>)
    ensures r.Ok? <==> IsUnixFamily(p) && w.inner.xlibDisplay.Some?
    ensures r.Ok? ==> r.value == w.inner.xlibDisplay.value
    ensures r.Err? ==> r.error == Types.Unsupported
  {
    UnixHandle(p, w.inner.xlibDisplay)
  }

  function XlibScreenId(p: Platform, w: Window): (r: Result<I32, Types.TaoError>)
    ensures r.Ok? <==> IsUnixFamily(p) && w.inner.xlibScreenId.Some?
    ensures r.Ok? ==> r.value == w.inner.xlibScreenId.value
    ensures r.Err? ==> r.error == Types.Unsupported
  {
    UnixHandle(p, w.inner.xlibScreenId)
  }

  function WaylandSurfaceHandle(p: Platform, w: Window): (r: Result<U64, Types.TaoError>)
    ensures r.Ok? <==> IsUnixFamily(p) && w.inner.waylandSurface.Some?
    ensures r.Ok? ==> r.value == w.inner.waylandSurface.value
    ensures r.Err? ==> r.error == Types.Unsupported
  {
    UnixHandle(p, w.inner.waylandSurface)
  }

  function WaylandDisplayHandle(p: Platform, w: Window): (r: Result<U64, Types.TaoError>)
    ensures r.Ok? <==> IsUnixFamily(p) && w.inner.waylandDisplay.Some?
    ensures r.Ok? ==> r.value == w.inner.waylandDisplay.value
    ensures r.Err? ==> r.error == Types.Unsupported
  {
    UnixHandle(p, w.inner.waylandDisplay)
  }

  /** Each single-handle getter reports exactly the handle the raw window handle holds
      for any backend: a getter succeeds when the field is present, with its value, and
      fails when it is absent. */
  lemma GettersAgreeWithRawHandle(p: Platform, w: Window, backend: Graphics.GraphicsBackend)
    ensures var h := Graphics.Assembled(p, w.inner, backend);
      && OkValue(NsViewHandle(p, w)) == h.nsView
      && OkValue(NsWindowHandle(p, w)) == h.nsWindow
      && OkValue(HwndHandle(p, w)) == h.hwnd
      && OkValue(HinstanceHandle(p, w)) == h.hinstance
      && OkValue(XlibWindowHandle(p, w)) == h.xlibWindow
      && OkValue(XlibDisplayHandle(p, w)) == h.xlibDisplay
      && OkValue(XlibScreenId(p, w)) == h.xlibScreen
      && OkValue(WaylandSurfaceHandle(p, w)) == h.waylandSurface
      && OkValue(WaylandDisplayHandle(p, w)) == h.waylandDisplay
  {
  }

  // ---- debug text ----

  predicate AllDigits(s: string) {
    forall i :: 0 <= i < |s| ==> '0' <= s[i] <= '9'
  }

  function DecimalDigit(d: nat): (c: char)
    requires d < 10
    ensures '0' <= c <= '9' && c as int - '0' as int == d
  {
    ('0' as int + d) as char
  }

  /** The decimal numeral of `n`, as `{}` formats an unsigned integer: digits only, and
      a leading zero only for zero itself. */
  function Decimal(n: nat): (s: string)
    ensures |s| >= 1 && AllDigits(s)
    ensures s[0] == '0' <==> n == 0
    decreases n
  {
    if n < 10 then [DecimalDigit(n)] else Decimal(n / 10) + [DecimalDigit(n % 10)]
  }

  /** The number a string of decimal digits denotes. */
  function DecimalValue(s: string): nat
    requires AllDigits(s)
    decreases |s|
  {
    if s == [] then 0
    else DecimalValue(s[..|s| - 1]) * 10 + (s[|s| - 1] as int - '0' as int)
  }

  lemma {:induction false} DecimalRoundTrip(n: nat)
    ensures DecimalValue(Decimal(n)) == n
    decreases n
  {
    if n >= 10 {
      DecimalRoundTrip(n / 10);
      var s := Decimal(n);
      assert s[..|s| - 1] == Decimal(n / 10);
    }
  }

  const DEBUG_PREFIX: string := "Window(id="

  /** `debug_string`: `Window(id=<id>)` with the id in decimal. */
  function DebugString(w: Window): (s: string)
    ensures |s| == |DEBUG_PREFIX| + |Decimal(w.id)| + 1
    ensures s[..|DEBUG_PREFIX|] == DEBUG_PREFIX && s[|s| - 1] == ')'
    ensures s[|DEBUG_PREFIX|..|s| - 1] == Decimal(w.id)
  {
    DEBUG_PREFIX + Decimal(w.id) + ")"
  }

  /** The debug text tells windows with different numbers apart. */
  lemma DebugStringIdentifiesWindow(a: Window, b: Window)
    requires DebugString(a) == DebugString(b)
    ensures a.id == b.id
  {
    var s := DebugString(a);
    assert Decimal(a.id) == s[|DEBUG_PREFIX|..|s| - 1] == Decimal(b.id);
    DecimalRoundTrip(a.id);
    DecimalRoundTrip(b.id);
  }
}
