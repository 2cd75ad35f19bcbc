/** The capture chain of `take_full_screenshot` (`take_full_screenshot.rs`):
    the platform's methods tried in a fixed order until one succeeds, the
    Linux command-line fallback and the checks on the memory-based method's
    output. Each capture method is an outcome given as data; the NirCmd,
    memory-based and Linux methods are modelled by their own checks. */
module Screenshot {
  import opened Wrappers
  import opened Os
  import opened Text
  import BundledAsset
  import NirCmd
  import WindowsEnvironment

  /** The capture methods of the chain. */
  datatype Capture =
    | NirCmdCapture | CrateCapture | MemoryCapture | DirectShowCapture | Win32Capture
    | PowerShellCapture | WmiCapture | FFmpegCapture | CSharpCapture | VBScriptCapture
    | LinuxToolCapture

  /** The Windows order, NirCmd first and VBScript last. */
  const WindowsOrder: seq<Capture> := [
    NirCmdCapture, CrateCapture, MemoryCapture, DirectShowCapture, Win32Capture,
    PowerShellCapture, WmiCapture, FFmpegCapture, CSharpCapture, VBScriptCapture]

  /** A chain's result and the methods it invoked, in order. */
  datatype Attempted = Attempted(result: Result<string>, tried: seq<Capture>)

  /** Invoke the methods in order and stop at the first success; the last
      method's result is the chain's result. */
  function FirstSuccess(methods: seq<Capture>, outcome: Capture -> Result<string>): (r: Attempted)
    requires methods != []
    ensures 1 <= |r.tried| <= |methods| && r.tried == methods[..|r.tried|]
    ensures r.result == outcome(r.tried[|r.tried| - 1])
    ensures forall i :: 0 <= i < |r.tried| - 1 ==> outcome(r.tried[i]).Err?
    ensures r.result.Err? ==> r.tried == methods
  {
    if |methods| == 1 || outcome(methods[0]).Ok? then Attempted(outcome(methods[0]), [methods[0]])
    else
      var rest := FirstSuccess(methods[1..], outcome);
      Attempted(rest.result, [methods[0]] + rest.tried)
  }

  /** The chain succeeds exactly when one of its methods does. */
  lemma FirstSuccessOk(methods: seq<Capture>, outcome: Capture -> Result<string>)
    requires methods != []
    ensures FirstSuccess(methods, outcome).result.Ok? <==> exists i :: 0 <= i < |methods| && outcome(methods[i]).Ok?
  {
    var r := FirstSuccess(methods, outcome);
    var n := |r.tried|;
    if r.result.Ok? {
      assert r.tried[n - 1] == methods[n - 1];
    } else {
      forall i | 0 <= i < |methods| ensures outcome(methods[i]).Err? {
        assert methods[i] == r.tried[i];
      }
    }
  }

  /** When the method at position `i` is the first that succeeds, the chain
      invokes exactly the methods up to it and returns its result. */
  lemma FirstSuccessStopsAt(methods: seq<Capture>, outcome: Capture -> Result<string>, i: nat)
    requires i < |methods| && outcome(methods[i]).Ok?
    requires forall j :: 0 <= j < i ==> outcome(methods[j]).Err?
    ensures FirstSuccess(methods, outcome).tried == methods[..i + 1]
    ensures FirstSuccess(methods, outcome).result == outcome(methods[i])
  {
  }

  // ---------------------------------------------------------------------
  // The Linux fallback

  /** The tools the fallback looks for with `sh -c "command -v ..."`. */
  const LinuxTools: seq<string> := ["gnome-screenshot", "import", "scrot"]

  const NoFallbackTools := "No fallback screenshot tools found (gnome-screenshot, import, or scrot)"
  const ReadFailed := "Failed to read screenshot file"

  /** The first tool whose lookup succeeds. A lookup whose shell cannot be
      started fails the whole fallback. */
  function ChooseTool(tools: seq<string>, lookup: string -> Exec): (r: Result<string>)
    ensures r.Ok? <==> (exists i :: 0 <= i < |tools| && lookup(tools[i]) == Exited(true)
                          && forall j :: 0 <= j < i ==> lookup(tools[j]) == Exited(false))
    ensures r.Ok? ==> exists i :: 0 <= i < |tools| && r.value == tools[i] && lookup(tools[i]) == Exited(true)
                          && forall j :: 0 <= j < i ==> lookup(tools[j]) == Exited(false)
    ensures r == Err(Message(NoFallbackTools)) <==> forall i :: 0 <= i < |tools| ==> lookup(tools[i]) == Exited(false)
    ensures r.Err? ==> r.error in {Message(NoFallbackTools), SpawnError("sh")}
  {
    if tools == [] then Err(Message(NoFallbackTools))
    else
      match lookup(tools[0])
      case SpawnFailed => Err(SpawnError("sh"))
      case Exited(true) => Ok(tools[0])
      case Exited(false) =>
        var rest := ChooseTool(tools[1..], lookup);
        assert forall i :: 1 <= i < |tools| ==> tools[i] == tools[1..][i - 1];
        assert rest.Ok? ==> (exists i :: 0 <= i < |tools| && rest.value == tools[i] && lookup(tools[i]) == Exited(true)
                               && forall j :: 0 <= j < i ==> lookup(tools[j]) == Exited(false)) by {
          if rest.Ok? {
            var i :| 0 <= i < |tools[1..]| && rest.value == tools[1..][i] && lookup(tools[1..][i]) == Exited(true)
              && forall j :: 0 <= j < i ==> lookup(tools[1..][j]) == Exited(false);
            assert rest.value == tools[i + 1] && lookup(tools[i + 1]) == Exited(true)
              && forall j :: 0 <= j < i + 1 ==> lookup(tools[j]) == Exited(false);
          }
        }
        rest
  }

  /** What the Linux fallback meets: the `command -v` lookups, the run of
      the chosen tool, and the file it wrote (`None` when unreadable). */
  datatype LinuxSystem = LinuxSystem(lookup: string -> Exec, run: string -> Exec, screenshot: Option<Bytes>)

  /** `take_screenshot_linux_fallback`: the first tool found is run; a tool
      that cannot be started or exits unsuccessfully fails the fallback, and
      otherwise the file is read and encoded, whatever its size. */
  function LinuxFallback(sys: LinuxSystem, encode: Bytes -> string): (r: Result<string>)
    ensures r.Ok? <==> (ChooseTool(LinuxTools, sys.lookup).Ok?
                        && sys.run(ChooseTool(LinuxTools, sys.lookup).value) == Exited(true) && sys.screenshot.Some?)
    ensures r.Ok? ==> r.value == encode(sys.screenshot.value)
    ensures ChooseTool(LinuxTools, sys.lookup).Err? ==> r == ChooseTool(LinuxTools, sys.lookup)
  {
    var choice := ChooseTool(LinuxTools, sys.lookup);
    if choice.Err? then choice
    else
      var tool := choice.value;
      match sys.run(tool)
      case SpawnFailed => Err(SpawnError(tool))
      case Exited(false) => Err(Message("Fallback screenshot command '" + tool + "' failed with status"))
      case Exited(true) =>
        if sys.screenshot.None? then Err(Message(ReadFailed)) else Ok(encode(sys.screenshot.value))
  }

  /** gnome-screenshot is preferred over import, and import over scrot;
      the run of a tool found later is never consulted. */
  lemma LinuxToolPreference(sys: LinuxSystem)
    ensures sys.lookup("gnome-screenshot") == Exited(true) ==> ChooseTool(LinuxTools, sys.lookup) == Ok("gnome-screenshot")
    ensures sys.lookup("gnome-screenshot") == Exited(false) && sys.lookup("import") == Exited(true) ==>
      ChooseTool(LinuxTools, sys.lookup) == Ok("import")
    ensures (sys.lookup("gnome-screenshot") == Exited(false) && sys.lookup("import") == Exited(false)
             && sys.lookup("scrot") == Exited(true)) ==> ChooseTool(LinuxTools, sys.lookup) == Ok("scrot")
  {
    assert LinuxTools[1..] == ["import", "scrot"];
    assert LinuxTools[1..][1..] == ["scrot"];
  }

  /** A chosen tool that exits unsuccessfully fails the fallback with a
      message naming it. */
  lemma LinuxToolFailureNamed(sys: LinuxSystem, encode: Bytes -> string)
    requires ChooseTool(LinuxTools, sys.lookup).Ok?
    requires sys.run(ChooseTool(LinuxTools, sys.lookup).value) == Exited(false)
    ensures LinuxFallback(sys, encode)
      == Err(Message("Fallback screenshot command '" + ChooseTool(LinuxTools, sys.lookup).value + "' failed with status"))
  {
  }

  // ---------------------------------------------------------------------
  // The memory-based method

  /** What the PowerShell run shows: its exit, its standard output (`None`
      when it is not UTF-8) and its standard error. */
  datatype PowerShellRun = PowerShellRun(exec: Exec, stdout: Option<string>, stderr: string)

  const MinImageSize := 1000
  const ParseFailed := "Failed to parse PowerShell output"
  const EmptyResult := "Memory screenshot returned empty result"
  const InvalidBase64 := "Invalid base64 result from memory screenshot"
  function TooSmall(size: nat): string {
    "Memory screenshot result too small to be valid: " + Decimal(size) + " bytes"
  }

  /** `take_screenshot_windows_memory` after the run: the trimmed standard
      output is the result once it is non-empty, decodes, and decodes to at
      least 1000 bytes. */
  function MemoryOutcome(run: PowerShellRun, decode: string -> Option<Bytes>): (r: Result<string>)
    ensures run.exec == SpawnFailed ==> r == Err(SpawnError("powershell"))
    ensures run.exec == Exited(false) ==> r == Err(Message("Failed to take memory-based screenshot: " + run.stderr))
    ensures run.exec == Exited(true) && run.stdout.None? ==> r == Err(Message(ParseFailed))
    ensures run.exec == Exited(true) && run.stdout.Some? && Trim(run.stdout.value) == [] ==> r == Err(Message(EmptyResult))
    ensures run.exec == Exited(true) && run.stdout.Some? && Trim(run.stdout.value) != [] ==>
      (decode(Trim(run.stdout.value)).None? ==> r == Err(Message(InvalidBase64))) &&
      (decode(Trim(run.stdout.value)).Some? && |decode(Trim(run.stdout.value)).value| < MinImageSize ==>
         r == Err(Message(TooSmall(|decode(Trim(run.stdout.value)).value|))))
    ensures r.Ok? <==> (run.exec == Exited(true) && run.stdout.Some? && Trim(run.stdout.value) != []
                        && decode(Trim(run.stdout.value)).Some? && |decode(Trim(run.stdout.value)).value| >= MinImageSize)
    ensures r.Ok? ==> r.value == Trim(run.stdout.value)
  {
    match run.exec
    case SpawnFailed => Err(SpawnError("powershell"))
    case Exited(false) => Err(Message("Failed to take memory-based screenshot: " + run.stderr))
    case Exited(true) =>
      if run.stdout.None? then Err(Message(ParseFailed))
      else
        var text := Trim(run.stdout.value);
        if text == [] then Err(Message(EmptyResult))
        else match decode(text)
          case None => Err(Message(InvalidBase64))
          case Some(bytes) => if |bytes| < MinImageSize then Err(Message(TooSmall(|bytes|))) else Ok(text)
  }

  /** What the memory-based method returns is a non-empty base64 text with
      no surrounding white space that decodes to at least 1000 bytes. */
  lemma MemoryResultValid(run: PowerShellRun, decode: string -> Option<Bytes>)
    requires MemoryOutcome(run, decode).Ok?
    ensures var text := MemoryOutcome(run, decode).value;
      text != [] && !IsWhiteSpace(text[0]) && !IsWhiteSpace(text[|text| - 1])
      && decode(text).Some? && |decode(text).value| >= MinImageSize
  {
  }

  // ---------------------------------------------------------------------
  // The whole chain

  /** Everything the chain meets: the platform, the Windows probes, the
      bundled-asset file system, NirCmd's attempts and output file, the
      memory-based run, the Linux tools, the outcomes of the remaining
      methods, and the base64 coder. */
  datatype World = World(
    platform: Platform,
    capabilities: WindowsEnvironment.Capabilities,
    assets: BundledAsset.ExtractEnv,
    nircmdProbe: nat -> NirCmd.PathProbe,
    nircmdOutput: FileProbe,
    memoryRun: PowerShellRun,
    linux: LinuxSystem,
    other: Capture -> Result<string>,
    encode: Bytes -> string,
    decode: string -> Option<Bytes>)

  /** Whether extracting the bundled NirCmd succeeds. */
  function Bundled(w: World): Result<string> {
    BundledAsset.ExtractionOf(w.assets).result
  }

  /** The outcome of invoking one method. */
  function Outcome(w: World, m: Capture): Result<string> {
    match m
    case NirCmdCapture => NirCmd.NirCmdOutcome(Bundled(w), w.nircmdProbe, w.nircmdOutput, w.encode)
    case MemoryCapture => MemoryOutcome(w.memoryRun, w.decode)
    case LinuxToolCapture => LinuxFallback(w.linux, w.encode)
    case _ => w.other(m)
  }

  const AllWindowsFailed := "All 10 Windows screenshot methods failed"
  const BothLinuxFailed := "Both primary and Linux fallback methods failed"
  const MacOsFailed := "Primary screenshot method failed on macOS - check permissions"
  const AllFailed := "All available screenshot methods failed"

  /** The Windows branch: the environment check, then the ten methods. */
  function WindowsChain(w: World): Attempted {
    var env := WindowsEnvironment.EnvironmentResult(w.capabilities, Bundled(w).Ok?);
    if env.Err? then Attempted(Err(env.error), [])
    else
      var a := FirstSuccess(WindowsOrder, (m: Capture) => Outcome(w, m));
      if a.result.Ok? then a else Attempted(Err(Context(AllWindowsFailed, a.result.error)), a.tried)
  }

  /** The other platforms: the screenshots crate, then on Linux the tool
      fallback; each platform wraps the final error in its own context. */
  function CrateChain(w: World): Attempted {
    var primary := Outcome(w, CrateCapture);
    if primary.Ok? then Attempted(primary, [CrateCapture])
    else if w.platform == Linux then
      var fallback := Outcome(w, LinuxToolCapture);
      Attempted(if fallback.Ok? then fallback else Err(Context(BothLinuxFailed, fallback.error)),
                [CrateCapture, LinuxToolCapture])
    else if w.platform == MacOS then Attempted(Err(Context(MacOsFailed, primary.error)), [CrateCapture])
    else Attempted(Err(Context(AllFailed, primary.error)), [CrateCapture])
  }

  /** `take_full_screenshot`: a successful result is the result of the last
      method invoked, and every method invoked before it failed. */
  function TakeFullScreenshot(w: World): (r: Attempted)
    ensures r.result.Ok? ==> |r.tried| >= 1 && r.result == Outcome(w, r.tried[|r.tried| - 1])
    ensures forall i :: 0 <= i < |r.tried| - 1 ==> Outcome(w, r.tried[i]).Err?
    ensures w.platform == Windows ==> |r.tried| <= |WindowsOrder| && r.tried == WindowsOrder[..|r.tried|]
    ensures w.platform != Windows ==> 1 <= |r.tried| && r.tried[0] == CrateCapture
  {
    if w.platform == Windows then WindowsChain(w) else CrateChain(w)
  }

  /** On Windows the environment check comes first: when it fails nothing
      is invoked and its error is the result. */
  lemma WindowsEnvironmentGate(w: World)
    requires w.platform == Windows
    requires WindowsEnvironment.EnvironmentResult(w.capabilities, Bundled(w).Ok?).Err?
    ensures TakeFullScreenshot(w).tried == []
    ensures TakeFullScreenshot(w).result == Err(WindowsEnvironment.EnvironmentResult(w.capabilities, Bundled(w).Ok?).error)
  {
  }

  /** On Windows, past the environment check, the chain succeeds exactly
      when some method does; it invokes the methods up to the first success
      and no later one; if all ten fail the VBScript error is returned in
      the context "All 10 Windows screenshot methods failed". */
  lemma WindowsChainCases(w: World)
    requires w.platform == Windows
    requires WindowsEnvironment.EnvironmentResult(w.capabilities, Bundled(w).Ok?).Ok?
    ensures TakeFullScreenshot(w).result.Ok? <==> exists i :: 0 <= i < |WindowsOrder| && Outcome(w, WindowsOrder[i]).Ok?
    ensures forall i :: (0 <= i < |WindowsOrder| && Outcome(w, WindowsOrder[i]).Ok?
                         && (forall j :: 0 <= j < i ==> Outcome(w, WindowsOrder[j]).Err?)) ==>
      TakeFullScreenshot(w).tried == WindowsOrder[..i + 1] && TakeFullScreenshot(w).result == Outcome(w, WindowsOrder[i])
    ensures TakeFullScreenshot(w).result.Err? ==>
      TakeFullScreenshot(w).tried == WindowsOrder
      && TakeFullScreenshot(w).result == Err(Context(AllWindowsFailed, Outcome(w, VBScriptCapture).error))
  {
    var outcome := (m: Capture) => Outcome(w, m);
    FirstSuccessOk(WindowsOrder, outcome);
    forall i | 0 <= i < |WindowsOrder| && Outcome(w, WindowsOrder[i]).Ok?
        && (forall j :: 0 <= j < i ==> Outcome(w, WindowsOrder[j]).Err?)
      ensures TakeFullScreenshot(w).tried == WindowsOrder[..i + 1]
      ensures TakeFullScreenshot(w).result == Outcome(w, WindowsOrder[i])
    {
      FirstSuccessStopsAt(WindowsOrder, outcome, i);
    }
    var a := FirstSuccess(WindowsOrder, outcome);
    if a.result.Err? {
      assert a.tried[|a.tried| - 1] == VBScriptCapture;
    }
  }

  /** A working NirCmd ends the Windows chain at once. */
  lemma NirCmdFirst(w: World)
    requires w.platform == Windows
    requires WindowsEnvironment.EnvironmentResult(w.capabilities, Bundled(w).Ok?).Ok?
    requires Outcome(w, NirCmdCapture).Ok?
    ensures TakeFullScreenshot(w).tried == [NirCmdCapture]
    ensures TakeFullScreenshot(w).result == Outcome(w, NirCmdCapture)
  {
  }

  /** Off Windows: a working screenshots crate ends the chain; otherwise
      Linux runs the tool fallback and wraps its error, and macOS and the
      other platforms wrap the crate's error. */
  lemma CrateChainCases(w: World)
    requires w.platform != Windows
    ensures Outcome(w, CrateCapture).Ok? ==>
      TakeFullScreenshot(w) == Attempted(Outcome(w, CrateCapture), [CrateCapture])
    ensures Outcome(w, CrateCapture).Err? && w.platform == Linux ==>
      TakeFullScreenshot(w).tried == [CrateCapture, LinuxToolCapture]
      && (TakeFullScreenshot(w).result.Ok? <==> LinuxFallback(w.linux, w.encode).Ok?)
      && (TakeFullScreenshot(w).result.Err? ==>
            TakeFullScreenshot(w).result == Err(Context(BothLinuxFailed, LinuxFallback(w.linux, w.encode).error)))
    ensures Outcome(w, CrateCapture).Err? && w.platform == MacOS ==>
      TakeFullScreenshot(w).result == Err(Context(MacOsFailed, Outcome(w, CrateCapture).error))
    ensures Outcome(w, CrateCapture).Err? && w.platform == OtherOs ==>
      TakeFullScreenshot(w).result == Err(Context(AllFailed, Outcome(w, CrateCapture).error))
  {
  }

  /** The Linux fallback accepts a file of any size, unlike the NirCmd and
      memory-based methods with their 1000-byte minimum. */
  lemma LinuxAcceptsSmallFile(sys: LinuxSystem, encode: Bytes -> string)
    requires ChooseTool(LinuxTools, sys.lookup).Ok?
    requires sys.run(ChooseTool(LinuxTools, sys.lookup).value) == Exited(true)
    requires sys.screenshot == Some([])
    ensures LinuxFallback(sys, encode) == Ok(encode([]))
  {
  }
}
