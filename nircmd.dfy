/** The NirCmd capture method (`take_screenshot_windows_nircmd` in
    `take_full_screenshot.rs`): the search for a NirCmd executable that
    writes the screenshot, and the validation of the file it writes. Each
    path's attempts are given as data, indexed by the path's position. */
module NirCmd {
  import opened Wrappers
  import opened Os
  import opened Text

  /** The system locations searched, in order. */
  const SystemPaths: seq<string> := [
    "nircmd", "nircmd.exe", "C:\\Windows\\nircmd.exe", "C:\\Windows\\System32\\nircmd.exe",
    "C:\\Program Files\\NirCmd\\nircmd.exe", "C:\\Program Files (x86)\\NirCmd\\nircmd.exe",
    ".\\tools\\nircmd.exe", ".\\nircmd.exe"]

  /** The search list: an extracted bundled copy, when extraction succeeded,
      goes in front of every system location. */
  function SearchPaths(extracted: Result<string>): (r: seq<string>)
    ensures extracted.Ok? ==> |r| == |SystemPaths| + 1 && r[0] == extracted.value && r[1..] == SystemPaths
    ensures extracted.Err? ==> r == SystemPaths
  {
    if extracted.Ok? then [extracted.value] + SystemPaths else SystemPaths
  }

  /** What trying one path shows: the outcome of `savescreenshot`, of the
      `cmdwait 1000 savescreenshot` retry, and the temporary file's size
      after both (`None` when no file is there; an unreadable size counts
      as 0). */
  datatype PathProbe = PathProbe(primary: Exec, alternate: Exec, leftover: Option<nat>)

  /** A path is accepted when `savescreenshot` exits successfully, or when
      it ran but failed and then either the retry succeeded or a file of
      more than 1000 bytes was left behind. A path that cannot be started
      is skipped without a retry. */
  predicate PathWorks(p: PathProbe) {
    || p.primary == Exited(true)
    || (p.primary == Exited(false)
        && (p.alternate == Exited(true) || (p.leftover.Some? && p.leftover.value > 1000)))
  }

  /** What the search does to the system, by path position: run the plain
      command, run the retry, remove a too-small leftover file. */
  datatype Action = SaveScreenshot(index: nat) | RetryWithWait(index: nat) | RemoveLeftover(index: nat)

  /** The effects of trying the path at position `i`. */
  function PathActions(i: nat, p: PathProbe): (r: seq<Action>)
    ensures |r| >= 1 && r[0] == SaveScreenshot(i)
    ensures forall a :: a in r ==> a.index == i
    ensures p.primary != Exited(false) ==> |r| == 1
  {
    if p.primary != Exited(false) then [SaveScreenshot(i)]
    else if p.alternate == Exited(true) then [SaveScreenshot(i), RetryWithWait(i)]
    else if p.leftover.Some? && p.leftover.value <= 1000 then [SaveScreenshot(i), RetryWithWait(i), RemoveLeftover(i)]
    else [SaveScreenshot(i), RetryWithWait(i)]
  }

  /** The first working path at position `i` or later, below `n`. */
  function FirstWorkingFrom(probe: nat -> PathProbe, n: nat, i: nat): (r: Option<nat>)
    ensures r.Some? ==> i <= r.value < n && PathWorks(probe(r.value))
    ensures r.Some? ==> forall j :: i <= j < r.value ==> !PathWorks(probe(j))
    ensures r.None? <==> forall j :: i <= j < n ==> !PathWorks(probe(j))
    decreases n - i
  {
    if i >= n then None
    else if PathWorks(probe(i)) then Some(i)
    else FirstWorkingFrom(probe, n, i + 1)
  }

  /** Everything the search does from position `i` on: each path in turn
      until one works. */
  function SearchTrace(probe: nat -> PathProbe, n: nat, i: nat): seq<Action>
    decreases n - i
  {
    if i >= n then []
    else PathActions(i, probe(i)) + (if PathWorks(probe(i)) then [] else SearchTrace(probe, n, i + 1))
  }

  /** The search touches only the paths up to the first working one: no
      later path is ever run. */
  lemma {:induction false} SearchStopsAtFirstWorking(probe: nat -> PathProbe, n: nat, i: nat)
    ensures forall a :: a in SearchTrace(probe, n, i) ==> i <= a.index < n
    ensures FirstWorkingFrom(probe, n, i).Some? ==>
      forall a :: a in SearchTrace(probe, n, i) ==> a.index <= FirstWorkingFrom(probe, n, i).value
    ensures FirstWorkingFrom(probe, n, i).Some? ==>
      SaveScreenshot(FirstWorkingFrom(probe, n, i).value) in SearchTrace(probe, n, i)
    decreases n - i
  {
    if i < n && !PathWorks(probe(i)) {
      SearchStopsAtFirstWorking(probe, n, i + 1);
    }
  }

  /** The path loop: try each path in order and stop at the first that
      works, recording which path was used. */
  method FindWorkingNirCmd(paths: seq<string>, probe: nat -> PathProbe)
    returns (success: bool, usedPath: string, actions: seq<Action>)
    ensures success <==> exists i :: 0 <= i < |paths| && PathWorks(probe(i))
    ensures success <==> FirstWorkingFrom(probe, |paths|, 0).Some?
    ensures success ==> usedPath == paths[FirstWorkingFrom(probe, |paths|, 0).value]
    ensures !success ==> usedPath == ""
    ensures actions == SearchTrace(probe, |paths|, 0)
  {
    success := false;
    usedPath := "";
    actions := [];
    var i := 0;
    while i < |paths|
      invariant 0 <= i <= |paths|
      invariant FirstWorkingFrom(probe, |paths|, i) == FirstWorkingFrom(probe, |paths|, 0)
      invariant actions + SearchTrace(probe, |paths|, i) == SearchTrace(probe, |paths|, 0)
      decreases |paths| - i
    {
      var p := probe(i);
      actions := actions + PathActions(i, p);
      if PathWorks(p) {
        success := true;
        usedPath := paths[i];
        assert actions == SearchTrace(probe, |paths|, 0);
        return;
      }
      assert actions + SearchTrace(probe, |paths|, i + 1) == SearchTrace(probe, |paths|, 0);
      i := i + 1;
    }
  }

  const NoInstallation := "Failed to take screenshot using NirCmd - no working installation found"
  const FileNotCreated := "NirCmd did not create screenshot file"
  const MetadataFailed := "Failed to get screenshot file metadata"
  function FileTooSmall(size: nat): string {
    "NirCmd screenshot file too small: " + Decimal(size) + " bytes - check NirCmd parameters or permissions"
  }
  const ReadFailed := "Failed to read screenshot file"

  /** The eight bytes every PNG file starts with. */
  const PngSignature: Bytes := [0x89, 0x50, 0x4E, 0x47, 0x0D, 0x0A, 0x1A, 0x0A]

  predicate HasPngSignature(data: Bytes) {
    |data| >= 8 && data[..8] == PngSignature
  }

  /** The result of validating the screenshot file, whether the file was
      removed, and whether the format warning was given. */
  datatype Validation = Validation(result: Result<string>, removed: bool, formatWarning: bool)

  /** The checks on the written file, in order: present, metadata readable,
      at least 1000 bytes (a smaller file is removed), contents readable.
      The contents are then encoded whatever their signature; a missing PNG
      signature only gives a warning. The file is removed after reading. */
  function ValidateScreenshot(f: FileProbe, encode: Bytes -> string): (r: Validation)
    ensures r.result.Ok? <==> f.present && f.size.Some? && f.size.value >= 1000 && f.content.Some?
    ensures r.result.Ok? ==> r.result.value == encode(f.content.value)
    ensures !f.present ==> r.result == Err(Message(FileNotCreated)) && !r.removed
    ensures f.present && f.size.None? ==> r.result == Err(Message(MetadataFailed)) && !r.removed
    ensures f.present && f.size.Some? && f.size.value < 1000 ==> r.result == Err(Message(FileTooSmall(f.size.value))) && r.removed
    ensures f.present && f.size.Some? && f.size.value >= 1000 && f.content.None? ==>
      r.result == Err(Message(ReadFailed)) && !r.removed
    ensures r.formatWarning <==> r.result.Ok? && !HasPngSignature(f.content.value)
  {
    if !f.present then Validation(Err(Message(FileNotCreated)), false, false)
    else if f.size.None? then Validation(Err(Message(MetadataFailed)), false, false)
    else if f.size.value < 1000 then Validation(Err(Message(FileTooSmall(f.size.value))), true, false)
    else if f.content.None? then Validation(Err(Message(ReadFailed)), false, false)
    else Validation(Ok(encode(f.content.value)), true, !HasPngSignature(f.content.value))
  }

  /** A large enough file without the PNG signature is still accepted; the
      signature decides only the warning. */
  lemma NonPngAccepted(f: FileProbe, g: FileProbe, encode: Bytes -> string)
    requires f.present && f.size.Some? && f.size.value >= 1000 && f.content.Some?
    requires g.present == f.present && g.size == f.size && g.content.Some?
    requires HasPngSignature(f.content.value) && !HasPngSignature(g.content.value)
    ensures ValidateScreenshot(f, encode).result.Ok? && ValidateScreenshot(g, encode).result.Ok?
    ensures !ValidateScreenshot(f, encode).formatWarning && ValidateScreenshot(g, encode).formatWarning
  {
  }

  /** The outcome of the NirCmd method: the search over the paths, then the
      validation of the file the working path wrote. */
  function NirCmdOutcome(extracted: Result<string>, probe: nat -> PathProbe, output: FileProbe,
                         encode: Bytes -> string): Result<string>
  {
    if FirstWorkingFrom(probe, |SearchPaths(extracted)|, 0).None? then Err(Message(NoInstallation))
    else ValidateScreenshot(output, encode).result
  }

  /** The method succeeds exactly when some path works and the file it
      wrote passes validation. */
  lemma NirCmdOutcomeCases(extracted: Result<string>, probe: nat -> PathProbe, output: FileProbe,
                           encode: Bytes -> string)
    ensures NirCmdOutcome(extracted, probe, output, encode).Ok?
      <==> (exists i :: 0 <= i < |SearchPaths(extracted)| && PathWorks(probe(i)))
           && ValidateScreenshot(output, encode).result.Ok?
    ensures (forall i :: 0 <= i < |SearchPaths(extracted)| ==> !PathWorks(probe(i))) ==>
      NirCmdOutcome(extracted, probe, output, encode) == Err(Message(NoInstallation))
  {
    var n := |SearchPaths(extracted)|;
    if FirstWorkingFrom(probe, n, 0).Some? {
      var k := FirstWorkingFrom(probe, n, 0).value;
      assert 0 <= k < n && PathWorks(probe(k));
    }
  }

  /** `take_screenshot_windows_nircmd` with the extraction result given: the
      search list, the path loop, and the validation. A working extracted
      copy is the path used. */
  method TakeScreenshotNirCmd(extracted: Result<string>, probe: nat -> PathProbe, output: FileProbe,
                              encode: Bytes -> string)
    returns (r: Result<string>, usedPath: string, actions: seq<Action>)
    ensures r == NirCmdOutcome(extracted, probe, output, encode)
    ensures actions == SearchTrace(probe, |SearchPaths(extracted)|, 0)
    ensures extracted.Ok? && PathWorks(probe(0)) ==>
      usedPath == extracted.value && actions == PathActions(0, probe(0))
    ensures r.Ok? ==> usedPath in SearchPaths(extracted)
  {
    var paths := SearchPaths(extracted);
    var success;
    success, usedPath, actions := FindWorkingNirCmd(paths, probe);
    if !success {
      return Err(Message(NoInstallation)), usedPath, actions;
    }
    r := ValidateScreenshot(output, encode).result;
  }
}
