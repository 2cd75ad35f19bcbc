/** `check_windows_environment` (`take_full_screenshot.rs`): which capture
    methods the system supports, and the reliability score they add up to.
    Each probe of the system is given as a boolean. */
module WindowsEnvironment {
  import opened Wrappers

  /** The outcomes of the probes: the two session variables, a NirCmd
      installation, PowerShell, System.Windows.Forms, wmic, ffmpeg (either
      location), csc (on the path or in the .NET folder), and cscript. */
  datatype Capabilities = Capabilities(
    sessionName: bool, userName: bool, nircmdInstalled: bool, powershell: bool, forms: bool,
    wmi: bool, ffmpeg: bool, csc: bool, vbscript: bool)

  /** The methods the assessment can list. */
  datatype Technique =
    | NirCmd | MemoryBased | DirectShow | Win32Api | PowerShellStandard
    | Wmi | FFmpeg | CSharpCompiler | CSharpPowerShell | VBScript

  /** The name the assessment lists for a method. */
  function Label(t: Technique): string {
    match t
    case NirCmd => "NirCmd"
    case MemoryBased => "Memory-based"
    case DirectShow => "DirectShow"
    case Win32Api => "Win32 API"
    case PowerShellStandard => "PowerShell Standard"
    case Wmi => "WMI"
    case FFmpeg => "FFmpeg"
    case CSharpCompiler => "C# Compiler"
    case CSharpPowerShell => "C# PowerShell"
    case VBScript => "VBScript"
  }

  /** The points each method adds to the score. */
  function Points(t: Technique): nat {
    match t
    case NirCmd => 25
    case MemoryBased => 20
    case DirectShow => 16
    case Win32Api => 15
    case PowerShellStandard => 14
    case Wmi => 12
    case FFmpeg => 10
    case CSharpCompiler => 8
    case CSharpPowerShell => 6
    case VBScript => 4
  }

  function TotalPoints(methods: seq<Technique>): nat {
    if methods == [] then 0 else TotalPoints(methods[..|methods| - 1]) + Points(methods[|methods| - 1])
  }

  /** Nine probes can succeed at once; with the native C# compiler they are
      worth 124 points. */
  const MaxScore := 124

  predicate Interactive(c: Capabilities) {
    c.sessionName || c.userName
  }

  /** Some method is available: any probe besides the session variables. */
  predicate AnyMethod(c: Capabilities, bundled: bool) {
    c.nircmdInstalled || bundled || c.powershell || c.forms || c.wmi || c.ffmpeg || c.csc || c.vbscript
  }

  predicate Everything(c: Capabilities, bundled: bool) {
    c.nircmdInstalled && bundled && c.powershell && c.forms && c.wmi && c.ffmpeg && c.csc && c.vbscript
  }

  datatype Rating = Poor | Fair | Good | VeryGood | Excellent

  /** The rating bands as the score `match` writes them: 90 to 100 is
      excellent, and everything else not in a lower band is poor. */
  function RatingAsWritten(score: nat): Rating {
    if 90 <= score <= 100 then Excellent
    else if 70 <= score <= 89 then VeryGood
    else if 50 <= score <= 69 then Good
    else if 30 <= score <= 49 then Fair
    else Poor
  }

  /** Scores above 100 can be reached, and the written bands rate them poor. */
  lemma TopScoresRatedPoor()
    ensures RatingAsWritten(100) == Excellent && RatingAsWritten(101) == Poor
    ensures RatingAsWritten(MaxScore) == Poor
  {
  }

  function Rank(r: Rating): nat {
    match r
    case Poor => 0
    case Fair => 1
    case Good => 2
    case VeryGood => 3
    case Excellent => 4
  }

  /** The evidently intended bands: 90 and above is excellent. */
  function RatingOf(score: nat): (r: Rating)
    ensures score <= 100 ==> r == RatingAsWritten(score)
  {
    if score >= 90 then Excellent
    else if score >= 70 then VeryGood
    else if score >= 50 then Good
    else if score >= 30 then Fair
    else Poor
  }

  /** A higher score never gets a worse rating. */
  lemma RatingMonotone(a: nat, b: nat)
    requires a <= b
    ensures Rank(RatingOf(a)) <= Rank(RatingOf(b))
  {
  }

  lemma TotalPointsAppend(methods: seq<Technique>, m: Technique)
    ensures TotalPoints(methods + [m]) == TotalPoints(methods) + Points(m)
  {
    assert (methods + [m])[..|methods|] == methods;
  }

  /** The probing order: NirCmd and the PowerShell-based methods, then the
      external tools, then the compilers and script hosts. */
  const CoreProbes: seq<Technique> := [NirCmd, MemoryBased, DirectShow, Win32Api, PowerShellStandard]
  const ToolProbes: seq<Technique> := CoreProbes + [Wmi, FFmpeg]
  const ProbeOrder: seq<Technique> := ToolProbes + [CSharpCompiler, CSharpPowerShell, VBScript]

  /** The probe that makes a method available. The PowerShell variant of C#
      is the `else if` after the native compiler. */
  predicate Probed(c: Capabilities, bundled: bool, t: Technique) {
    match t
    case NirCmd => c.nircmdInstalled || bundled
    case MemoryBased => c.powershell
    case DirectShow => c.powershell
    case Win32Api => c.powershell
    case PowerShellStandard => c.forms
    case Wmi => c.wmi
    case FFmpeg => c.ffmpeg
    case CSharpCompiler => c.csc
    case CSharpPowerShell => !c.csc && c.powershell
    case VBScript => c.vbscript
  }

  /** The methods of `ts` whose probe succeeded, in the order of `ts`. */
  function Listed(ts: seq<Technique>, c: Capabilities, bundled: bool): seq<Technique> {
    if ts == [] then []
    else
      var last := ts[|ts| - 1];
      Listed(ts[..|ts| - 1], c, bundled) + (if Probed(c, bundled, last) then [last] else [])
  }

  /** Probing one more method lists it after the others when its probe succeeded. */
  lemma ListedSnoc(ts: seq<Technique>, m: Technique, c: Capabilities, bundled: bool)
    ensures Listed(ts + [m], c, bundled) == Listed(ts, c, bundled) + (if Probed(c, bundled, m) then [m] else [])
  {
    assert (ts + [m])[..|ts + [m]| - 1] == ts;
  }

  /** A method is listed exactly when it is probed and its probe succeeded. */
  lemma {:induction false} ListedMembers(ts: seq<Technique>, c: Capabilities, bundled: bool)
    ensures forall t :: t in Listed(ts, c, bundled) <==> t in ts && Probed(c, bundled, t)
  {
    if ts != [] {
      var init := ts[..|ts| - 1];
      ListedMembers(init, c, bundled);
      assert ts == init + [ts[|ts| - 1]];
    }
  }

  /** Every method has its place in the probing order. */
  lemma ProbeOrderComplete(t: Technique)
    ensures t in ProbeOrder
  {
    match t
    case NirCmd => assert ProbeOrder[0] == t;
    case MemoryBased => assert ProbeOrder[1] == t;
    case DirectShow => assert ProbeOrder[2] == t;
    case Win32Api => assert ProbeOrder[3] == t;
    case PowerShellStandard => assert ProbeOrder[4] == t;
    case Wmi => assert ProbeOrder[5] == t;
    case FFmpeg => assert ProbeOrder[6] == t;
    case CSharpCompiler => assert ProbeOrder[7] == t;
    case CSharpPowerShell => assert ProbeOrder[8] == t;
    case VBScript => assert ProbeOrder[9] == t;
  }

  /** Over the whole probing order, a method is listed exactly when its
      probe succeeded, and the list is empty exactly when no probe did. */
  lemma ListedProbeOrder(c: Capabilities, bundled: bool)
    ensures forall t :: t in Listed(ProbeOrder, c, bundled) <==> Probed(c, bundled, t)
    ensures Listed(ProbeOrder, c, bundled) != [] <==> AnyMethod(c, bundled)
  {
    ListedMembers(ProbeOrder, c, bundled);
    forall t ensures t in Listed(ProbeOrder, c, bundled) <==> Probed(c, bundled, t) {
      ProbeOrderComplete(t);
    }
    var l := Listed(ProbeOrder, c, bundled);
    if l != [] {
      assert Probed(c, bundled, l[0]);
    } else {
      assert !Probed(c, bundled, NirCmd) && !Probed(c, bundled, MemoryBased) && !Probed(c, bundled, PowerShellStandard)
        && !Probed(c, bundled, Wmi) && !Probed(c, bundled, FFmpeg) && !Probed(c, bundled, CSharpCompiler)
        && !Probed(c, bundled, VBScript);
    }
  }

  /** One probe, after those of `done`: the method is listed and its points
      added when its probe succeeded. */
  method Include(methods: seq<Technique>, score: nat, c: Capabilities, bundled: bool,
                 ghost done: seq<Technique>, m: Technique)
    returns (methods': seq<Technique>, score': nat)
    requires score == TotalPoints(methods)
    requires methods == Listed(done, c, bundled)
    ensures methods' == Listed(done + [m], c, bundled)
    ensures score' == TotalPoints(methods')
    ensures score' == score + (if Probed(c, bundled, m) then Points(m) else 0)
  {
    ListedSnoc(done, m, c, bundled);
    if Probed(c, bundled, m) {
      TotalPointsAppend(methods, m);
      methods' := methods + [m];
      score' := score + Points(m);
    } else {
      methods', score' := methods, score;
    }
  }

  /** The first five probes: NirCmd and the four PowerShell-based methods. */
  method ProbeCoreMethods(c: Capabilities, bundled: bool) returns (methods: seq<Technique>, score: nat)
    ensures methods == Listed(CoreProbes, c, bundled)
    ensures score == TotalPoints(methods) && score <= 90
    ensures Everything(c, bundled) ==> score == 90
  {
    ghost var all := Everything(c, bundled);
    ghost var done: seq<Technique> := [];
    methods, score := Include([], 0, c, bundled, done, NirCmd);
    done := done + [NirCmd];
    assert score <= 25 && (all ==> score == 25);
    methods, score := Include(methods, score, c, bundled, done, MemoryBased);
    done := done + [MemoryBased];
    assert score <= 45 && (all ==> score == 45);
    methods, score := Include(methods, score, c, bundled, done, DirectShow);
    done := done + [DirectShow];
    assert score <= 61 && (all ==> score == 61);
    methods, score := Include(methods, score, c, bundled, done, Win32Api);
    done := done + [Win32Api];
    assert score <= 76 && (all ==> score == 76);
    methods, score := Include(methods, score, c, bundled, done, PowerShellStandard);
    done := done + [PowerShellStandard];
    assert done == CoreProbes;
  }

  /** The next two probes: wmic and ffmpeg. */
  method ProbeExternalTools(methods: seq<Technique>, score: nat, c: Capabilities, bundled: bool)
    returns (methods': seq<Technique>, score': nat)
    requires methods == Listed(CoreProbes, c, bundled) && score == TotalPoints(methods)
    ensures methods' == Listed(ToolProbes, c, bundled)
    ensures score' == TotalPoints(methods') && score' <= score + 22
    ensures Everything(c, bundled) ==> score' == score + 22
  {
    ghost var all := Everything(c, bundled);
    methods', score' := Include(methods, score, c, bundled, CoreProbes, Wmi);
    assert score' <= score + 12 && (all ==> score' == score + 12);
    methods', score' := Include(methods', score', c, bundled, CoreProbes + [Wmi], FFmpeg);
    assert CoreProbes + [Wmi] + [FFmpeg] == ToolProbes;
  }

  /** The last probes: one of the two C# methods (the PowerShell variant only
      without csc), then cscript; together they add at most 12 points. */
  method ProbeCompilers(methods: seq<Technique>, score: nat, c: Capabilities, bundled: bool)
    returns (methods': seq<Technique>, score': nat)
    requires methods == Listed(ToolProbes, c, bundled) && score == TotalPoints(methods)
    ensures methods' == Listed(ProbeOrder, c, bundled)
    ensures score' == TotalPoints(methods') && score' <= score + 12
    ensures Everything(c, bundled) ==> score' == score + 12
  {
    ghost var all := Everything(c, bundled);
    ghost var done := ToolProbes;
    methods', score' := Include(methods, score, c, bundled, done, CSharpCompiler);
    done := done + [CSharpCompiler];
    methods', score' := Include(methods', score', c, bundled, done, CSharpPowerShell);
    done := done + [CSharpPowerShell];
    assert score' <= score + 8 && (all ==> score' == score + 8);
    methods', score' := Include(methods', score', c, bundled, done, VBScript);
    done := done + [VBScript];
    assert done == ProbeOrder;
  }

  const NotInteractive := "Not running in an interactive user session"
  const NoMethods := "No screenshot methods available on this system"

  /** The verdict of the assessment: a non-interactive session fails first,
      then a system where no probe succeeded. */
  function EnvironmentResult(c: Capabilities, bundled: bool): (r: Result<()>)
    ensures r.Ok? <==> Interactive(c) && AnyMethod(c, bundled)
    ensures !Interactive(c) ==> r == Err(Message(NotInteractive))
    ensures Interactive(c) && !AnyMethod(c, bundled) ==> r == Err(Message(NoMethods))
  {
    if !Interactive(c) then Err(Message(NotInteractive))
    else if !AnyMethod(c, bundled) then Err(Message(NoMethods))
    else Ok(())
  }

  /** The assessment: the methods available in probing order, the score
      they sum to, and the rating given to the score. Each method is listed
      exactly when its probe succeeded, and an interactive session passes
      when some method is available. */
  method CheckWindowsEnvironment(c: Capabilities, bundled: bool)
    returns (result: Result<()>, methods: seq<Technique>, score: nat, rating: Rating)
    ensures result == EnvironmentResult(c, bundled)
    ensures !Interactive(c) ==> methods == []
    ensures Interactive(c) ==> methods == Listed(ProbeOrder, c, bundled)
    ensures Interactive(c) ==> forall t :: t in methods <==> Probed(c, bundled, t)
    ensures score == TotalPoints(methods) && score <= MaxScore && rating == RatingOf(score)
    ensures Interactive(c) && Everything(c, bundled) ==> score == MaxScore
  {
    if !Interactive(c) {
      return Err(Message(NotInteractive)), [], 0, RatingOf(0);
    }
    methods, score := ProbeCoreMethods(c, bundled);
    methods, score := ProbeExternalTools(methods, score, c, bundled);
    methods, score := ProbeCompilers(methods, score, c, bundled);
    ListedProbeOrder(c, bundled);
    rating := RatingOf(score);
    if methods == [] {
      result := Err(Message(NoMethods));
    } else {
      result := Ok(());
    }
  }
}
