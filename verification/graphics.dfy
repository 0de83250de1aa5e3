/** Graphics backends and the raw window handle a renderer needs
    (taokt/src/main/rust/graphics.rs). */
module Graphics {
  import opened Base
  import opened Platforms
  import Tao
  import Types

  datatype GraphicsBackend = Metal | Vulkan | DirectX12 | OpenGL

  /** Whether a backend is available on the target. OpenGL is the fallback that is
      available everywhere; Metal belongs to Apple targets and DirectX 12 to Windows. */
  function IsSupported(p: Platform, b: GraphicsBackend): (s: bool)
    ensures b.OpenGL? ==> s
    ensures p.OtherTarget? ==> (s <==> b.OpenGL?)
    ensures s && b.Metal? ==> IsApple(p)
    ensures s && b.DirectX12? ==> p.Windows?
  {
    match b
    case Metal => IsApple(p)
    case Vulkan => IsUnixFamily(p) || p.Windows? || p.Android?
    case DirectX12 => p.Windows?
    case OpenGL => true
  }

  /** The recommended backend of a target; it is always one the target supports. */
  function DefaultForPlatform(p: Platform): (b: GraphicsBackend)
    ensures IsSupported(p, b)
    ensures b.Metal? <==> IsApple(p)
    ensures b.DirectX12? <==> p.Windows?
    ensures b.Vulkan? <==> IsUnixFamily(p) || p.Android?
    ensures b.OpenGL? <==> p.OtherTarget?
  {
    if IsApple(p) then Metal
    else if p.Windows? then DirectX12
    else if IsUnixFamily(p) || p.Android? then Vulkan
    else OpenGL
  }

  /** The backends every target supports are exactly OpenGL plus its own ones. */
  lemma SupportTable(p: Platform)
    ensures IsSupported(p, OpenGL)
    ensures IsSupported(p, Metal) <==> p.MacOS? || p.IOS?
    ensures IsSupported(p, DirectX12) <==> p.Windows?
    ensures IsSupported(p, Vulkan) <==> IsUnixFamily(p) || p.Windows? || p.Android?
    ensures !IsSupported(p, Metal) || !IsSupported(p, DirectX12)
  {
  }

  datatype RawWindowHandle = RawWindowHandle(
    backend: GraphicsBackend,
    nsView: Option<U64>,
    nsWindow: Option<U64>,
    uiView: Option<U64>,
    uiWindow: Option<U64>,
    hwnd: Option<U64>,
    hinstance: Option<U64>,
    xlibWindow: Option<U64>,
    xlibDisplay: Option<U64>,
    xlibVisualId: Option<U64>,
    xlibScreen: Option<I32>,
    waylandSurface: Option<U64>,
    waylandDisplay: Option<U64>,
    androidNativeWindow: Option<U64>,
    width: U32,
    height: U32,
    scaleFactor: F64)

  /** No platform handle is present. */
  predicate NoHandles(h: RawWindowHandle) {
    && h.nsView.None? && h.nsWindow.None? && h.uiView.None? && h.uiWindow.None?
    && h.hwnd.None? && h.hinstance.None?
    && h.xlibWindow.None? && h.xlibDisplay.None? && h.xlibVisualId.None? && h.xlibScreen.None?
    && h.waylandSurface.None? && h.waylandDisplay.None? && h.androidNativeWindow.None?
  }

  /** Whether the handle holds a surface the selected backend can draw on. */
  function IsValid(h: RawWindowHandle): (v: bool)
    ensures v ==> !NoHandles(h)
    ensures h.backend.DirectX12? ==> (v <==> h.hwnd.Some?)
  {
    match h.backend
    case Metal => h.nsView.Some? || h.uiView.Some?
    case DirectX12 => h.hwnd.Some?
    case Vulkan =>
      h.hwnd.Some? || h.xlibWindow.Some? || h.waylandSurface.Some? || h.androidNativeWindow.Some?
    case OpenGL =>
      h.nsView.Some? || h.hwnd.Some? || h.xlibWindow.Some? || h.waylandSurface.Some?
  }

  /** Whatever the backend, a handle without platform handles is never valid. */
  lemma NoHandlesNeverValid(h: RawWindowHandle)
    requires NoHandles(h)
    ensures !IsValid(h)
  {
  }

  /** The handle with nothing filled in: no platform handle, a 0 x 0 size, scale 1.0,
      and the target's default backend. */
  function Empty(p: Platform): (h: RawWindowHandle)
    ensures NoHandles(h) && !IsValid(h)
    ensures h.backend == DefaultForPlatform(p)
    ensures h.width == 0 && h.height == 0 && h.scaleFactor == ONE_F64
  {
    RawWindowHandle(
      DefaultForPlatform(p),
      None, None, None, None, None, None, None, None, None, None, None, None, None,
      0, 0, ONE_F64)
  }

  /** When `raw_window_handle_for_backend` succeeds on a target, as a closed formula:
      Apple targets draw with the backends that read `ns_view`/`ui_view`, Windows with
      any backend but Metal, the Unix family with Vulkan or OpenGL once the window has an
      X11 window or a Wayland surface, and other targets (Android included) never. */
  predicate HandleObtainable(p: Platform, w: Tao.Window, backend: GraphicsBackend) {
    if p.MacOS? then backend.Metal? || backend.OpenGL?
    else if p.IOS? then backend.Metal?
    else if p.Windows? then !backend.Metal?
    else if IsUnixFamily(p) then
      (backend.Vulkan? || backend.OpenGL?) && (w.xlibWindow.Some? || w.waylandSurface.Some?)
    else false
  }

  /** The handle `raw_window_handle_for_backend` assembles before checking it: the
      backend, the inner size and the scale factor, plus the handles the target
      provides. Android's native window is not read, so it is never present. */
  function Assembled(p: Platform, w: Tao.Window, backend: GraphicsBackend): (h: RawWindowHandle)
    ensures h.backend == backend && h.scaleFactor == w.scaleFactor
    ensures h.width == w.innerSize.width && h.height == w.innerSize.height
    ensures h.nsView == (if p.MacOS? then Some(w.nsView) else None)
    ensures h.nsWindow == (if p.MacOS? then Some(w.nsWindow) else None)
    ensures h.uiView == (if p.IOS? then Some(w.uiView) else None)
    ensures h.uiWindow == (if p.IOS? then Some(w.uiWindow) else None)
    ensures h.hwnd == (if p.Windows? then Some(w.hwnd) else None)
    ensures h.hinstance == (if p.Windows? then Some(w.hinstance) else None)
    ensures IsUnixFamily(p) ==> h.xlibWindow == w.xlibWindow && h.xlibDisplay == w.xlibDisplay
    ensures IsUnixFamily(p) ==> h.xlibScreen == w.xlibScreenId
    ensures IsUnixFamily(p) ==> h.waylandSurface == w.waylandSurface && h.waylandDisplay == w.waylandDisplay
    ensures !IsUnixFamily(p) ==> h.xlibWindow.None? && h.xlibDisplay.None? && h.xlibScreen.None?
    ensures !IsUnixFamily(p) ==> h.waylandSurface.None? && h.waylandDisplay.None?
    ensures h.androidNativeWindow.None? && h.xlibVisualId.None?
  {
    var unix := IsUnixFamily(p);
    RawWindowHandle(
      backend,
      if p.MacOS? then Some(w.nsView) else None,
      if p.MacOS? then Some(w.nsWindow) else None,
      if p.IOS? then Some(w.uiView) else None,
      if p.IOS? then Some(w.uiWindow) else None,
      if p.Windows? then Some(w.hwnd) else None,
      if p.Windows? then Some(w.hinstance) else None,
      if unix then w.xlibWindow else None,
      if unix then w.xlibDisplay else None,
      None,
      if unix then w.xlibScreenId else None,
      if unix then w.waylandSurface else None,
      if unix then w.waylandDisplay else None,
      None,
      w.innerSize.width, w.innerSize.height, w.scaleFactor)
  }

  /** The assembled handle is valid exactly when `HandleObtainable` says so, and then
      its backend is one the target supports. */
  lemma AssembledValidity(p: Platform, w: Tao.Window, backend: GraphicsBackend)
    ensures IsValid(Assembled(p, w, backend)) <==> HandleObtainable(p, w, backend)
    ensures IsValid(Assembled(p, w, backend)) ==> IsSupported(p, backend)
  {
  }

  /** Fills in the X11 and Wayland handles the window reports, one by one. */
  method FillUnixHandles(handle: RawWindowHandle, w: Tao.Window) returns (h: RawWindowHandle)
    ensures h == handle.(xlibWindow := if w.xlibWindow.Some? then w.xlibWindow else handle.xlibWindow,
                         xlibDisplay := if w.xlibDisplay.Some? then w.xlibDisplay else handle.xlibDisplay,
                         xlibScreen := if w.xlibScreenId.Some? then w.xlibScreenId else handle.xlibScreen,
                         waylandSurface := if w.waylandSurface.Some? then w.waylandSurface else handle.waylandSurface,
                         waylandDisplay := if w.waylandDisplay.Some? then w.waylandDisplay else handle.waylandDisplay)
  {
    h := handle;
    if w.xlibWindow.Some? {
      h := h.(xlibWindow := Some(w.xlibWindow.value));
    }
    if w.xlibDisplay.Some? {
      h := h.(xlibDisplay := Some(w.xlibDisplay.value));
    }
    if w.xlibScreenId.Some? {
      h := h.(xlibScreen := Some(w.xlibScreenId.value));
    }
    if w.waylandSurface.Some? {
      h := h.(waylandSurface := Some(w.waylandSurface.value));
    }
    if w.waylandDisplay.Some? {
      h := h.(waylandDisplay := Some(w.waylandDisplay.value));
    }
  }

  /** `raw_window_handle_for_backend`: starts from a handle with only the backend, the
      inner size and the scale factor, fills in the target's platform handles, and
      rejects the result with `Unsupported` when it is not valid for the backend. */
  method RawWindowHandleForBackend(p: Platform, w: Tao.Window, backend: GraphicsBackend)
    returns (r: Result<RawWindowHandle, Types.TaoError>)
    ensures r.Err? <==> !IsValid(Assembled(p, w, backend))
    ensures r.Err? ==> r.error == Types.Unsupported
    ensures r.Ok? ==> r.value == Assembled(p, w, backend)
    ensures r.Ok? <==> HandleObtainable(p, w, backend)
    ensures r.Ok? ==> IsValid(r.value) && IsSupported(p, backend)
  {
    var handle := RawWindowHandle(
      backend,
      None, None, None, None, None, None, None, None, None, None, None, None, None,
      w.innerSize.width, w.innerSize.height, w.scaleFactor);
    if p.MacOS? {
      handle := handle.(nsView := Some(w.nsView), nsWindow := Some(w.nsWindow));
    } else if p.IOS? {
      handle := handle.(uiView := Some(w.uiView), uiWindow := Some(w.uiWindow));
    } else if p.Windows? {
      handle := handle.(hwnd := Some(w.hwnd), hinstance := Some(w.hinstance));
    } else if IsUnixFamily(p) {
      handle := FillUnixHandles(handle, w);
    }
    // Android: the native window is not read, so the handle stays without one.
    assert handle == Assembled(p, w, backend);
    AssembledValidity(p, w, backend);
    if !IsValid(handle) {
      return Err(Types.Unsupported);
    }
    return Ok(handle);
  }

  /** `raw_window_handle`: the handle for the target's default backend. It is always
      obtainable on macOS, iOS and Windows, on the Unix family exactly when the window
      has an X11 window or a Wayland surface, and never on Android or other targets. */
  method RawWindowHandleDefault(p: Platform, w: Tao.Window)
    returns (r: Result<RawWindowHandle, Types.TaoError>)
    ensures r.Ok? ==> r.value == Assembled(p, w, DefaultForPlatform(p))
    ensures r.Ok? ==> r.value.backend == DefaultForPlatform(p) && IsValid(r.value)
    ensures r.Err? ==> r.error == Types.Unsupported
    ensures IsApple(p) || p.Windows? ==> r.Ok?
    ensures IsUnixFamily(p) ==> (r.Ok? <==> w.xlibWindow.Some? || w.waylandSurface.Some?)
    ensures p.Android? || p.OtherTarget? ==> r == Err(Types.Unsupported)
  {
    r := RawWindowHandleForBackend(p, w, DefaultForPlatform(p));
  }
}
