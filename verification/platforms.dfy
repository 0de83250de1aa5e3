/** The compilation target. The source selects behaviour with `#[cfg(target_os = ...)]`;
    here the target is an explicit parameter of every platform-dependent operation. */
module Platforms {

  datatype Platform =
    | MacOS
    | IOS
    | Windows
    | Linux
    | DragonFly
    | FreeBSD
    | NetBSD
    | OpenBSD
    | Android
    | OtherTarget

  /** The five targets the source groups as `linux`, `dragonfly`, `freebsd`, `netbsd`
      and `openbsd` (the GTK / X11 / Wayland family). */
  predicate IsUnixFamily(p: Platform) {
    p.Linux? || p.DragonFly? || p.FreeBSD? || p.NetBSD? || p.OpenBSD?
  }

  /** macOS or iOS. */
  predicate IsApple(p: Platform) {
    p.MacOS? || p.IOS?
  }
}
