/** `extract_bundled_nircmd` (`take_full_screenshot.rs`): find the NirCmd
    executable shipped with the application's assets and copy it into a
    tools directory under the temporary directory, reusing an earlier copy of
    the same size. The file system is a snapshot given as data. */
module BundledAsset {
  import opened Wrappers
  import opened Os

  const MinAssetSize := 10000
  const MaxAssetSize := 5000000

  /** The two bytes of a DOS executable header, "MZ". */
  predicate StartsWithMz(data: Bytes) {
    |data| >= 2 && data[0] == 0x4D && data[1] == 0x5A
  }

  /** The checks a candidate must pass, in the order they are made. */
  predicate Qualifies(f: FileProbe) {
    && f.present
    && f.size.Some? && MinAssetSize < f.size.value < MaxAssetSize
    && f.content.Some? && |f.content.value| >= 64 && StartsWithMz(f.content.value)
  }

  datatype Candidate = Candidate(path: string, name: string)

  /** The eight asset locations, in search order: under the executable's
      directory (release, debug and plain layouts), then relative. */
  function AssetCandidates(exeDir: string): (r: seq<Candidate>)
    ensures |r| == 8
    ensures forall i :: 0 <= i < 8 ==> r[i].name == (if i % 2 == 0 then "nircmd.exe" else "nircmdc.exe")
  {
    [ Candidate(exeDir + "\\data\\flutter_assets\\assets\\nircmd.exe", "nircmd.exe"),
      Candidate(exeDir + "\\data\\flutter_assets\\assets\\nircmdc.exe", "nircmdc.exe"),
      Candidate(exeDir + "\\flutter_assets\\assets\\nircmd.exe", "nircmd.exe"),
      Candidate(exeDir + "\\flutter_assets\\assets\\nircmdc.exe", "nircmdc.exe"),
      Candidate(exeDir + "\\assets\\nircmd.exe", "nircmd.exe"),
      Candidate(exeDir + "\\assets\\nircmdc.exe", "nircmdc.exe"),
      Candidate("assets\\nircmd.exe", "nircmd.exe"),
      Candidate("assets\\nircmdc.exe", "nircmdc.exe") ]
  }

  /** The first qualifying candidate, if any. */
  function FirstQualifying(cands: seq<Candidate>, files: string -> FileProbe): (r: Option<nat>)
    ensures r.Some? ==> (r.value < |cands| && Qualifies(files(cands[r.value].path)) &&
                         forall j :: 0 <= j < r.value ==> !Qualifies(files(cands[j].path)))
    ensures r.None? ==> forall j :: 0 <= j < |cands| ==> !Qualifies(files(cands[j].path))
  {
    if cands == [] then None
    else if Qualifies(files(cands[0].path)) then Some(0)
    else match FirstQualifying(cands[1..], files)
      case Some(k) => Some(k + 1)
      case None => None
  }

  /** The search loop, which stops at the first qualifying candidate. */
  method SelectAsset(cands: seq<Candidate>, files: string -> FileProbe) returns (source: Option<Candidate>)
    ensures source.None? <==> FirstQualifying(cands, files).None?
    ensures source.Some? ==> source.value == cands[FirstQualifying(cands, files).value]
  {
    source := None;
    var i := 0;
    while i < |cands|
      invariant 0 <= i <= |cands|
      invariant forall j :: 0 <= j < i ==> !Qualifies(files(cands[j].path))
    {
      if Qualifies(files(cands[i].path)) {
        FirstQualifyingAt(cands, files, i);
        return Some(cands[i]);
      }
      i := i + 1;
    }
    FirstQualifyingNone(cands, files);
  }

  lemma {:induction false} FirstQualifyingAt(cands: seq<Candidate>, files: string -> FileProbe, i: nat)
    requires i < |cands| && Qualifies(files(cands[i].path))
    requires forall j :: 0 <= j < i ==> !Qualifies(files(cands[j].path))
    ensures FirstQualifying(cands, files) == Some(i)
  {
    if i > 0 {
      FirstQualifyingAt(cands[1..], files, i - 1);
    }
  }

  lemma FirstQualifyingNone(cands: seq<Candidate>, files: string -> FileProbe)
    requires forall j :: 0 <= j < |cands| ==> !Qualifies(files(cands[j].path))
    ensures FirstQualifying(cands, files) == None
  {
  }

  /** The file system as the extraction sees it. `existingCopy` is the size
      of an earlier extracted copy (`None` if there is none or its metadata
      cannot be read); `copiedSize` is the size of the new copy (`None` if
      its metadata cannot be read). */
  datatype ExtractEnv = ExtractEnv(
    exeDir: Result<string>, tempDir: string, files: string -> FileProbe,
    toolsDirExists: bool, createDirOk: bool, existingCopy: Option<nat>,
    copyOk: bool, copiedSize: Option<nat>)

  datatype FsAction = CreateDir(path: string) | Copy(from: string, to: string) | Remove(path: string)

  /** The extraction's result and the changes it made to the file system. */
  datatype Extraction = Extraction(result: Result<string>, actions: seq<FsAction>)

  const NotFound := "Bundled NirCmd asset not found"
  const CreateDirFailed := "Failed to create tools directory"
  const CopyFailed := "Failed to extract NirCmd asset"
  const VerifyFailed := "Failed to verify extracted file"
  const SizeMismatch := "Extraction verification failed: size mismatch"

  function ToolsDir(env: ExtractEnv): string {
    env.tempDir + "\\taskwatch_tools"
  }

  function ExtractedPath(env: ExtractEnv, name: string): string {
    ToolsDir(env) + "\\" + name
  }

  /** Everything after the search: the tools directory, the cache check,
      the copy and its verification against the source's size. */
  function ExtractFrom(env: ExtractEnv, source: Candidate, sourceSize: nat): Extraction {
    var dest := ExtractedPath(env, source.name);
    var mk := if env.toolsDirExists then [] else [CreateDir(ToolsDir(env))];
    if !env.toolsDirExists && !env.createDirOk then Extraction(Err(Message(CreateDirFailed)), mk)
    else if env.existingCopy == Some(sourceSize) then Extraction(Ok(dest), mk)
    else if !env.copyOk then Extraction(Err(Message(CopyFailed)), mk + [Copy(source.path, dest)])
    else if env.copiedSize.None? then Extraction(Err(Message(VerifyFailed)), mk + [Copy(source.path, dest)])
    else if env.copiedSize.value != sourceSize then
      Extraction(Err(Message(SizeMismatch)), mk + [Copy(source.path, dest), Remove(dest)])
    else Extraction(Ok(dest), mk + [Copy(source.path, dest)])
  }

  /** What `extract_bundled_nircmd` does in the environment `env`. */
  function ExtractionOf(env: ExtractEnv): Extraction {
    match env.exeDir
    case Err(e) => Extraction(Err(e), [])
    case Ok(dir) =>
      var cands := AssetCandidates(dir);
      match FirstQualifying(cands, env.files)
      case None => Extraction(Err(Message(NotFound)), [])
      case Some(i) => ExtractFrom(env, cands[i], env.files(cands[i].path).size.value)
  }

  /** `extract_bundled_nircmd`, with its search loop. */
  method ExtractBundledNirCmd(env: ExtractEnv) returns (r: Extraction)
    ensures r == ExtractionOf(env)
  {
    if env.exeDir.Err? {
      return Extraction(Err(env.exeDir.error), []);
    }
    var cands := AssetCandidates(env.exeDir.value);
    var source := SelectAsset(cands, env.files);
    if source.None? {
      return Extraction(Err(Message(NotFound)), []);
    }
    var size := env.files(source.value.path).size.value;
    r := ExtractFrom(env, source.value, size);
  }

  /** The asset is reported missing exactly when no candidate passes every
      check; otherwise the first one that does is the one copied. */
  lemma ExtractionSource(env: ExtractEnv)
    requires env.exeDir.Ok?
    ensures ExtractionOf(env).result == Err(Message(NotFound)) <==>
      forall j :: 0 <= j < 8 ==> !Qualifies(env.files(AssetCandidates(env.exeDir.value)[j].path))
    ensures forall c :: Copy(c, ExtractedPath(env, "nircmd.exe")) in ExtractionOf(env).actions ||
                        Copy(c, ExtractedPath(env, "nircmdc.exe")) in ExtractionOf(env).actions ==>
      exists i :: 0 <= i < 8 && c == AssetCandidates(env.exeDir.value)[i].path &&
        Qualifies(env.files(c)) &&
        forall j :: 0 <= j < i ==> !Qualifies(env.files(AssetCandidates(env.exeDir.value)[j].path))
  {
    var cands := AssetCandidates(env.exeDir.value);
    var f := FirstQualifying(cands, env.files);
    if f.Some? {
      var src := cands[f.value];
      var x := ExtractFrom(env, src, env.files(src.path).size.value);
      assert x.result != Err(Message(NotFound));
      forall c | Copy(c, ExtractedPath(env, "nircmd.exe")) in x.actions ||
                 Copy(c, ExtractedPath(env, "nircmdc.exe")) in x.actions
        ensures c == src.path
      {
      }
    }
  }

  /** A copy of the right size already in place is reused: nothing is
      copied and its path is returned. */
  lemma CacheReused(env: ExtractEnv)
    requires env.exeDir.Ok?
    requires var cands := AssetCandidates(env.exeDir.value);
      var f := FirstQualifying(cands, env.files);
      f.Some? && (env.toolsDirExists || env.createDirOk) &&
      env.existingCopy == env.files(cands[f.value].path).size
    ensures ExtractionOf(env).result.Ok?
    ensures forall a :: a in ExtractionOf(env).actions ==> !a.Copy?
  {
  }

  /** A successful extraction leaves a file of the source's size at the
      returned path: either the reused copy or the verified new one. A copy
      of the wrong size is removed again. */
  lemma ExtractionVerified(env: ExtractEnv)
    requires env.exeDir.Ok?
    ensures var cands := AssetCandidates(env.exeDir.value);
      var f := FirstQualifying(cands, env.files);
      var x := ExtractionOf(env);
      f.Some? ==>
        var src := cands[f.value];
        var size := env.files(src.path).size.value;
        (x.result.Ok? ==> (x.result.value == ExtractedPath(env, src.name) &&
                           (env.existingCopy == Some(size) || env.copiedSize == Some(size)))) &&
        (x.result == Err(Message(SizeMismatch)) ==>
           x.actions[|x.actions| - 1] == Remove(ExtractedPath(env, src.name)))
  {
  }
}
