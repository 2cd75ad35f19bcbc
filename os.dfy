/** What the library sees of the operating system: the platform it was built
    for, the outcome of running an external program, and raw bytes. */
module Os {
  import opened Wrappers

  /** The `target_os` the library was compiled for. */
  datatype Platform = Windows | MacOS | Linux | OtherOs

  newtype byte = x: int | 0 <= x < 256

  type Bytes = seq<byte>

  /** Outcome of `Command::status()` / `Command::output()`: the program could
      not be started, or it ran and exited successfully or not. */
  datatype Exec = SpawnFailed | Exited(success: bool)

  /** What the file system reports about one path: whether it is present, the
      size its metadata gives (`None` if the metadata cannot be read), and
      its contents (`None` if it cannot be read). */
  datatype FileProbe = FileProbe(present: bool, size: Option<nat>, content: Option<Bytes>)

  /** `get_current_platform`: the platform's name as the host application sees it. */
  function CurrentPlatformName(p: Platform): (r: string)
    ensures r in {"windows", "macos", "linux", "unknown"}
    ensures r == "unknown" <==> !IsPlatformSupported(p)
  {
    match p
    case Windows => "windows"
    case MacOS => "macos"
    case Linux => "linux"
    case OtherOs => "unknown"
  }

  /** `is_platform_supported`. */
  predicate IsPlatformSupported(p: Platform) {
    p != OtherOs
  }

  /** The platform name identifies the platform, and a platform is supported
      exactly when its name is not "unknown". */
  lemma PlatformNameInjective(p: Platform, q: Platform)
    ensures CurrentPlatformName(p) == CurrentPlatformName(q) <==> p == q
    ensures IsPlatformSupported(p) <==> CurrentPlatformName(p) != "unknown"
  {
  }
}
