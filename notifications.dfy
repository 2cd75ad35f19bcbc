/** Desktop notifications (`desktop_notification.rs`): the two escapers, the
    urgency mapping, and the per-platform chains of notification tools. Every
    external program is a `Command`; what running it does is the parameter
    `run`, and whether `notify_rust` showed the notification is `shown`. */
module Notifications {
  import opened Wrappers
  import opened Os
  import opened Text

  // ---------------------------------------------------------------- escapers

  /** `escape_powershell_string`: four replacements applied in turn. */
  function EscapePowerShell(s: string): string {
    ReplaceChar(ReplaceChar(ReplaceChar(ReplaceChar(s, '\'', "''"), '`', "``"), '"', "`\""), '$', "`$")
  }

  /** What a single character becomes under `escape_powershell_string`. */
  function PsEscapeChar(c: char): string {
    if c == '\'' then "''"
    else if c == '`' then "``"
    else if c == '"' then "`\""
    else if c == '$' then "`$"
    else [c]
  }

  lemma ReplaceCharSingle(x: char, c: char, w: string)
    ensures ReplaceChar([x], c, w) == if x == c then w else [x]
  {
    assert [x][1..] == [];
  }

  /** The four passes never touch what an earlier pass inserted, so the
      escaper works character by character. */
  lemma {:induction false} EscapePowerShellCons(c: char, s: string)
    ensures EscapePowerShell([c] + s) == PsEscapeChar(c) + EscapePowerShell(s)
  {
    var s1 := ReplaceChar([c], '\'', "''");
    ReplaceCharAppend([c], s, '\'', "''");
    ReplaceCharSingle(c, '\'', "''");
    var t1 := ReplaceChar(s, '\'', "''");
    ReplaceCharAppend(s1, t1, '`', "``");
    var s2 := ReplaceChar(s1, '`', "``");
    var t2 := ReplaceChar(t1, '`', "``");
    ReplaceCharAppend(s2, t2, '"', "`\"");
    var s3 := ReplaceChar(s2, '"', "`\"");
    var t3 := ReplaceChar(t2, '"', "`\"");
    ReplaceCharAppend(s3, t3, '$', "`$");
    var s4 := ReplaceChar(s3, '$', "`$");
    if c == '\'' {
      ReplaceCharAbsent(s1, '`', "``");
      ReplaceCharAbsent(s2, '"', "`\"");
      ReplaceCharAbsent(s3, '$', "`$");
    } else if c == '`' {
      ReplaceCharSingle(c, '`', "``");
      ReplaceCharAbsent(s2, '"', "`\"");
      ReplaceCharAbsent(s3, '$', "`$");
    } else if c == '"' {
      ReplaceCharSingle(c, '`', "``");
      ReplaceCharSingle(c, '"', "`\"");
      ReplaceCharAbsent(s3, '$', "`$");
    } else {
      ReplaceCharSingle(c, '`', "``");
      ReplaceCharSingle(c, '"', "`\"");
      ReplaceCharSingle(c, '$', "`$");
    }
  }

  /** A string without any of the four special characters is unchanged. */
  lemma EscapePowerShellPlain(s: string)
    requires '\'' !in s && '`' !in s && '"' !in s && '$' !in s
    ensures EscapePowerShell(s) == s
  {
    ReplaceCharAbsent(s, '\'', "''");
    ReplaceCharAbsent(s, '`', "``");
    ReplaceCharAbsent(s, '"', "`\"");
    ReplaceCharAbsent(s, '$', "`$");
  }

  /** `escape_applescript_string`: quotes first, then backslashes. */
  function EscapeAppleScriptAsWritten(s: string): string {
    ReplaceChar(ReplaceChar(s, '"', "\\\""), '\\', "\\\\")
  }

  /** The second pass doubles the backslash the first pass put before a
      quote: a quote becomes two backslashes and a quote. */
  lemma EscapeAppleScriptAsWrittenSingle(c: char)
    ensures EscapeAppleScriptAsWritten([c]) ==
      if c == '"' then "\\\\\"" else if c == '\\' then "\\\\" else [c]
  {
    ReplaceCharSingle(c, '"', "\\\"");
    if c == '"' {
      assert "\\\"" == ['\\'] + ['"'];
      ReplaceCharAppend(['\\'], ['"'], '\\', "\\\\");
      ReplaceCharSingle('\\', '\\', "\\\\");
      ReplaceCharSingle('"', '\\', "\\\\");
    } else {
      ReplaceCharSingle(c, '\\', "\\\\");
    }
  }

  lemma EscapeAppleScriptAsWrittenCons(c: char, s: string)
    ensures EscapeAppleScriptAsWritten([c] + s) ==
      (if c == '"' then "\\\\\"" else if c == '\\' then "\\\\" else [c]) + EscapeAppleScriptAsWritten(s)
  {
    ReplaceCharAppend([c], s, '"', "\\\"");
    ReplaceCharAppend(ReplaceChar([c], '"', "\\\""), ReplaceChar(s, '"', "\\\""), '\\', "\\\\");
    EscapeAppleScriptAsWrittenSingle(c);
  }

  /** The escaper with the evidently intended order: backslashes first, then
      quotes, so that every special character gets exactly one backslash. */
  function EscapeAppleScript(s: string): string {
    ReplaceChar(ReplaceChar(s, '\\', "\\\\"), '"', "\\\"")
  }

  lemma {:induction false} EscapeAppleScriptCons(c: char, s: string)
    ensures EscapeAppleScript([c] + s) ==
      (if c == '"' then "\\\"" else if c == '\\' then "\\\\" else [c]) + EscapeAppleScript(s)
  {
    ReplaceCharAppend([c], s, '\\', "\\\\");
    ReplaceCharSingle(c, '\\', "\\\\");
    var s1 := ReplaceChar([c], '\\', "\\\\");
    ReplaceCharAppend(s1, ReplaceChar(s, '\\', "\\\\"), '"', "\\\"");
    if c == '\\' {
      ReplaceCharAbsent(s1, '"', "\\\"");
    } else {
      ReplaceCharSingle(c, '"', "\\\"");
    }
  }

  function Prepend(c: char, o: Option<string>): Option<string> {
    match o
    case Some(v) => Some([c] + v)
    case None => None
  }

  /** The text an AppleScript string literal denotes, given what stands
      between its quotes; `None` when an unescaped quote ends the literal
      early or an escape is not one AppleScript knows. */
  function AppleScriptLiteralValue(body: string): Option<string>
    decreases |body|
  {
    if body == [] then Some([])
    else if body[0] == '"' then None
    else if body[0] == '\\' then
      if |body| < 2 then None
      else if body[1] == '"' || body[1] == '\\' then Prepend(body[1], AppleScriptLiteralValue(body[2..]))
      else if body[1] == 'n' then Prepend('\n', AppleScriptLiteralValue(body[2..]))
      else if body[1] == 't' then Prepend('\t', AppleScriptLiteralValue(body[2..]))
      else if body[1] == 'r' then Prepend('\r', AppleScriptLiteralValue(body[2..]))
      else None
    else Prepend(body[0], AppleScriptLiteralValue(body[1..]))
  }

  /** As written, a message holding one quote no longer forms a literal. */
  lemma AppleScriptQuoteBreaksLiteral()
    ensures EscapeAppleScriptAsWritten("\"") == "\\\\\""
    ensures AppleScriptLiteralValue(EscapeAppleScriptAsWritten("\"")) == None
  {
    EscapeAppleScriptAsWrittenCons('"', []);
    assert "\"" == ['"'] + [];
    var body := "\\\\\"";
    assert body[2..] == "\"";
  }

  /** With backslashes escaped first, the literal always denotes the input. */
  lemma {:induction false} AppleScriptRoundTrip(s: string)
    ensures AppleScriptLiteralValue(EscapeAppleScript(s)) == Some(s)
  {
    if s != [] {
      assert s == [s[0]] + s[1..];
      EscapeAppleScriptCons(s[0], s[1..]);
      AppleScriptRoundTrip(s[1..]);
      var e := EscapeAppleScript(s);
      var rest := EscapeAppleScript(s[1..]);
      if s[0] == '"' || s[0] == '\\' {
        assert e[2..] == rest;
      } else {
        assert e[1..] == rest;
      }
    }
  }

  /** The characters PowerShell accepts as a single quote: the apostrophe
      and the four typographic single quotes U+2018 to U+201B. */
  predicate IsPsSingleQuote(c: char) {
    c == '\'' || c == '\U{2018}' || c == '\U{2019}' || c == '\U{201A}' || c == '\U{201B}'
  }

  /** The text a single-quoted PowerShell string denotes, given what stands
      between its quotes: two single quotes in a row stand for the second,
      a lone single quote would end the string (`None`), everything else is
      literal. */
  function PsSingleQuotedValue(body: string): Option<string>
    decreases |body|
  {
    if body == [] then Some([])
    else if IsPsSingleQuote(body[0]) then
      if |body| >= 2 && IsPsSingleQuote(body[1]) then Prepend(body[1], PsSingleQuotedValue(body[2..])) else None
    else Prepend(body[0], PsSingleQuotedValue(body[1..]))
  }

  /** Inside the single-quoted strings of the balloon and message-box
      scripts, the backtick the escaper puts before `$` stays visible. */
  lemma PowerShellDollarShowsBacktick()
    ensures EscapePowerShell("$") == "`$"
    ensures PsSingleQuotedValue(EscapePowerShell("$")) == Some("`$")
  {
    EscapePowerShellCons('$', []);
    assert "$" == ['$'] + [];
    assert EscapePowerShell([]) == [];
    var body := "`$";
    assert body[1..] == "$";
    assert "$"[1..] == [];
    assert PsSingleQuotedValue("$") == Prepend('$', PsSingleQuotedValue([])) == Some("$");
    assert !IsPsSingleQuote(body[0]);
    assert PsSingleQuotedValue(body) == Prepend('`', PsSingleQuotedValue("$"));
    assert ['`'] + "$" == body;
  }

  /** The escaper leaves a typographic apostrophe alone, so in a
      single-quoted string it ends the string early. */
  lemma PowerShellTypographicQuoteBreaksLiteral()
    ensures EscapePowerShell("\U{2019}") == "\U{2019}"
    ensures PsSingleQuotedValue(EscapePowerShell("\U{2019}")) == None
  {
    EscapePowerShellCons('\U{2019}', []);
    assert "\U{2019}" == ['\U{2019}'] + [];
    assert EscapePowerShell([]) == [];
  }

  /** The escaping a single-quoted PowerShell string needs: double each of
      the five single-quote characters. */
  function EscapePowerShellSingleQuoted(s: string): string
    decreases |s|
  {
    if s == [] then []
    else (if IsPsSingleQuote(s[0]) then [s[0], s[0]] else [s[0]]) + EscapePowerShellSingleQuoted(s[1..])
  }

  lemma {:induction false} PowerShellSingleQuotedRoundTrip(s: string)
    ensures PsSingleQuotedValue(EscapePowerShellSingleQuoted(s)) == Some(s)
    decreases |s|
  {
    if s != [] {
      PowerShellSingleQuotedRoundTrip(s[1..]);
      var e := EscapePowerShellSingleQuoted(s);
      var rest := EscapePowerShellSingleQuoted(s[1..]);
      assert s == [s[0]] + s[1..];
      if IsPsSingleQuote(s[0]) {
        assert e == [s[0], s[0]] + rest;
        assert e[0] == s[0] && e[1] == s[0] && e[2..] == rest;
        assert PsSingleQuotedValue(e) == Prepend(s[0], PsSingleQuotedValue(rest));
      } else {
        assert e == [s[0]] + rest;
        assert e[0] == s[0] && e[1..] == rest;
        assert PsSingleQuotedValue(e) == Prepend(s[0], PsSingleQuotedValue(rest));
      }
    }
  }

  // ---------------------------------------------------------------- urgency

  datatype Urgency = Low | Normal | Critical

  /** The urgency mapping of `send_notification_with_options`. */
  function UrgencyOf(level: Option<int>): (r: Option<Urgency>)
    ensures r.None? <==> level.None?
    ensures r == Some(Low) <==> level == Some(0)
    ensures r == Some(Normal) <==> level == Some(1)
    ensures r == Some(Critical) <==> level.Some? && level.value != 0 && level.value != 1
  {
    match level
    case None => None
    case Some(l) => Some(if l == 0 then Low else if l == 1 then Normal else Critical)
  }

  // ---------------------------------------------------------------- chains

  /** The PowerShell scripts, each with the texts it embeds (already
      escaped); the rest of each script is fixed text. The toast puts its
      texts into an XML template inside a here-string `@'...'@`; the balloon
      and the message box put theirs between single quotes. */
  datatype PsScript =
    | ToastScript(title: string, message: string)
    | BalloonScript(title: string, message: string)
    | MessageBoxScript(text: string, caption: string)

  /** An external program with its arguments; `PowerShell(s)` stands for
      `powershell -Command` with the text of script `s`. */
  datatype Command =
    | Command(program: string, args: seq<string>)
    | PowerShell(script: PsScript)

  function ProgramOf(c: Command): string {
    match c
    case Command(p, _) => p
    case PowerShell(_) => "powershell"
  }

  /** `sh -c "command -v <tool>"`: is the tool on the path. */
  function Probe(tool: string): Command {
    Command("sh", ["-c", "command -v " + tool])
  }

  /** One attempt of a chain: an optional probe that must succeed, the
      command itself, and whether a failure to start it ends the whole chain
      with an error (`status()?`) instead of falling through (`if let Ok`). */
  datatype Step = Step(probe: Option<Command>, command: Command, spawnAborts: bool)

  datatype Verdict = Declined | Delivered | Aborted(error: Error)

  /** Whether the step's probe lets its command run. */
  predicate Admitted(s: Step, run: Command -> Exec) {
    s.probe.None? || run(s.probe.value) == Exited(true)
  }

  function StepVerdict(s: Step, run: Command -> Exec): (v: Verdict)
    ensures v == Delivered <==> Admitted(s, run) && run(s.command) == Exited(true)
    ensures v.Aborted? <==> Admitted(s, run) && run(s.command) == SpawnFailed && s.spawnAborts
  {
    if !Admitted(s, run) then Declined
    else match run(s.command)
      case SpawnFailed => if s.spawnAborts then Aborted(SpawnError(ProgramOf(s.command))) else Declined
      case Exited(ok) => if ok then Delivered else Declined
  }

  /** The commands a step starts: its probe, then its command if admitted. */
  function StepInvoked(s: Step, run: Command -> Exec): seq<Command> {
    (if s.probe.Some? then [s.probe.value] else []) + (if Admitted(s, run) then [s.command] else [])
  }

  /** The result of a chain, and every command it started, in order. */
  datatype Delivery = Delivery(result: Result<()>, invoked: seq<Command>)

  function VerdictResult(v: Verdict): Result<()>
    requires !v.Declined?
  {
    if v.Delivered? then Ok(()) else Err(v.error)
  }

  /** Step `i` is the first whose verdict is not `Declined`. */
  predicate DecidedAt(steps: seq<Step>, run: Command -> Exec, i: nat) {
    i < |steps| && !StepVerdict(steps[i], run).Declined? &&
    forall j :: 0 <= j < i ==> StepVerdict(steps[j], run).Declined?
  }

  /** After a first attempt that falls through, the deciding attempt of the
      chain is the deciding attempt of the rest. */
  lemma DecidedAtShift(steps: seq<Step>, run: Command -> Exec, i: nat)
    requires steps != [] && StepVerdict(steps[0], run).Declined? && DecidedAt(steps, run, i)
    ensures i > 0 && DecidedAt(steps[1..], run, i - 1)
  {
    forall j | 0 <= j < i - 1 ensures StepVerdict(steps[1..][j], run).Declined? {
      assert steps[1..][j] == steps[j + 1];
    }
  }

  /** Every command the given attempts start, in order. */
  function Invocations(steps: seq<Step>, run: Command -> Exec): seq<Command>
    decreases |steps|
  {
    if steps == [] then [] else StepInvoked(steps[0], run) + Invocations(steps[1..], run)
  }

  /** The commands up to attempt `i` are those of the first attempt, then
      those of the rest up to attempt `i - 1`. */
  lemma InvocationsPrefixShift(steps: seq<Step>, run: Command -> Exec, i: nat)
    requires i < |steps|
    ensures Invocations(steps[..i + 1], run) == StepInvoked(steps[0], run) + Invocations(steps[1..][..i], run)
  {
    assert steps[..i + 1][0] == steps[0];
    assert steps[..i + 1][1..] == steps[1..][..i];
  }

  /** When the first attempt falls through, every deciding attempt is one
      of the rest's, and a chain falling through entirely leaves its rest
      falling through too. */
  lemma DeclinedFirstShift(steps: seq<Step>, run: Command -> Exec)
    requires steps != [] && StepVerdict(steps[0], run).Declined?
    ensures forall i: nat :: DecidedAt(steps, run, i) ==> i > 0 && DecidedAt(steps[1..], run, i - 1)
    ensures (forall i :: 0 <= i < |steps| ==> StepVerdict(steps[i], run).Declined?) ==>
      forall i :: 0 <= i < |steps[1..]| ==> StepVerdict(steps[1..][i], run).Declined?
  {
    forall i: nat | DecidedAt(steps, run, i) ensures i > 0 && DecidedAt(steps[1..], run, i - 1) {
      DecidedAtShift(steps, run, i);
    }
    forall i | 0 <= i < |steps[1..]| ensures steps[1..][i] == steps[i + 1] {}
  }

  /** The attempts of a chain in order: the first delivered or aborted
      attempt decides, and nothing after it is started; when every attempt
      falls through the chain fails with `exhausted`. */
  function RunChain(steps: seq<Step>, exhausted: string, run: Command -> Exec): (r: Delivery)
    ensures forall i: nat :: DecidedAt(steps, run, i) ==>
      r.result == VerdictResult(StepVerdict(steps[i], run)) &&
      |r.invoked| > 0 && r.invoked[|r.invoked| - 1] == steps[i].command
    ensures (forall i :: 0 <= i < |steps| ==> StepVerdict(steps[i], run).Declined?) ==>
      r.result == Err(Message(exhausted))
    decreases |steps|
  {
    if steps == [] then Delivery(Err(Message(exhausted)), [])
    else
      var v := StepVerdict(steps[0], run);
      var inv := StepInvoked(steps[0], run);
      if v.Declined? then
        var rest := RunChain(steps[1..], exhausted, run);
        DeclinedFirstShift(steps, run);
        Delivery(rest.result, inv + rest.invoked)
      else
        assert forall i: nat :: DecidedAt(steps, run, i) ==> i == 0;
        Delivery(VerdictResult(v), inv)
  }

  /** The commands a chain starts are exactly those of its attempts up to
      the deciding one (each attempt's probe, then its command if the probe
      let it run), or those of all its attempts when every one falls
      through. */
  lemma {:induction false} ChainInvocations(steps: seq<Step>, exhausted: string, run: Command -> Exec)
    ensures forall i: nat :: DecidedAt(steps, run, i) ==>
      RunChain(steps, exhausted, run).invoked == Invocations(steps[..i + 1], run)
    ensures (forall i :: 0 <= i < |steps| ==> StepVerdict(steps[i], run).Declined?) ==>
      RunChain(steps, exhausted, run).invoked == Invocations(steps, run)
    decreases |steps|
  {
    if steps != [] {
      var inv := StepInvoked(steps[0], run);
      if StepVerdict(steps[0], run).Declined? {
        ChainInvocations(steps[1..], exhausted, run);
        var rest := RunChain(steps[1..], exhausted, run);
        assert RunChain(steps, exhausted, run).invoked == inv + rest.invoked;
        forall i: nat | DecidedAt(steps, run, i)
          ensures RunChain(steps, exhausted, run).invoked == Invocations(steps[..i + 1], run)
        {
          DecidedAtShift(steps, run, i);
          InvocationsPrefixShift(steps, run, i);
          assert steps[1..][..i - 1 + 1] == steps[1..][..i];
        }
        if forall i :: 0 <= i < |steps| ==> StepVerdict(steps[i], run).Declined? {
          forall i | 0 <= i < |steps[1..]| ensures StepVerdict(steps[1..][i], run).Declined? {
            assert steps[1..][i] == steps[i + 1];
          }
        }
      } else {
        assert forall i: nat :: DecidedAt(steps, run, i) ==> i == 0;
        InvocationsPrefixShift(steps, run, 0);
        assert steps[1..][..0] == [];
        assert inv + [] == inv;
      }
    }
  }

  /** Either some attempt decides the chain or every attempt fell through. */
  lemma {:induction false} ChainDecidedOrExhausted(steps: seq<Step>, run: Command -> Exec)
    ensures (exists i: nat :: DecidedAt(steps, run, i)) ||
      forall i :: 0 <= i < |steps| ==> StepVerdict(steps[i], run).Declined?
    decreases |steps|
  {
    if steps != [] {
      if StepVerdict(steps[0], run).Declined? {
        ChainDecidedOrExhausted(steps[1..], run);
        if exists i: nat :: DecidedAt(steps[1..], run, i) {
          var i: nat :| DecidedAt(steps[1..], run, i);
          assert DecidedAt(steps, run, i + 1);
        }
      } else {
        assert DecidedAt(steps, run, 0);
      }
    }
  }

  /** A chain succeeds exactly when its first deciding attempt delivered. */
  lemma ChainOk(steps: seq<Step>, exhausted: string, run: Command -> Exec)
    ensures RunChain(steps, exhausted, run).result.Ok? <==>
      exists i: nat :: DecidedAt(steps, run, i) && StepVerdict(steps[i], run) == Delivered
  {
    ChainDecidedOrExhausted(steps, run);
  }

  /** Falling off the end of a chain is the only way to get its final error. */
  lemma ChainExhausted(steps: seq<Step>, exhausted: string, run: Command -> Exec)
    ensures RunChain(steps, exhausted, run).result == Err(Message(exhausted)) <==>
      forall i :: 0 <= i < |steps| ==> StepVerdict(steps[i], run).Declined?
  {
    ChainDecidedOrExhausted(steps, run);
    if exists i: nat :: DecidedAt(steps, run, i) {
      var i: nat :| DecidedAt(steps, run, i);
      assert !StepVerdict(steps[i], run).Declined?;
    }
  }

  const WindowsFailed := "Failed to show notification on Windows"
  const MacOsFailed := "Failed to show notification on macOS"
  const LinuxFailed := "No supported notification system found on Linux"
  const UnsupportedPlatform := "Notifications not supported on this platform"

  /** The three Windows attempts, with `escape` applied to the texts each
      script embeds: toast, balloon, message box. */
  function WindowsStepsWith(escape: string -> string, title: string, message: string): (r: seq<Step>)
    ensures |r| == 3 && forall i :: 0 <= i < 3 ==> r[i].probe.None? && ProgramOf(r[i].command) == "powershell"
    ensures !r[0].spawnAborts && r[1].spawnAborts && r[2].spawnAborts
    ensures r[0].command == PowerShell(ToastScript(escape(title), escape(message)))
    ensures r[1].command == PowerShell(BalloonScript(escape(title), escape(message)))
    ensures r[2].command == PowerShell(MessageBoxScript(escape(message), escape(title)))
  {
    var t := escape(title);
    var m := escape(message);
    [ Step(None, PowerShell(ToastScript(t, m)), false),
      Step(None, PowerShell(BalloonScript(t, m)), true),
      Step(None, PowerShell(MessageBoxScript(m, t)), true) ]
  }

  /** `send_notification_windows`, with `escape_powershell_string` as written. */
  function WindowsSteps(title: string, message: string): seq<Step> {
    WindowsStepsWith(EscapePowerShell, title, message)
  }

  /** The Windows attempts with every single quote doubled, as the
      single-quoted strings of the balloon and the message box need. The
      toast is not one of them: its texts stand in a here-string. */
  function WindowsStepsIntended(title: string, message: string): seq<Step> {
    WindowsStepsWith(EscapePowerShellSingleQuoted, title, message)
  }

  /** The balloon and the message box of `send_notification_windows` embed
      their texts in single-quoted strings. There a message `$` shows as a
      backtick followed by `$`, and a title `’` ends the string early; with
      every single quote doubled instead, each text reads back as given. */
  lemma BalloonTexts(title: string, message: string)
    ensures WindowsSteps(title, "$")[1].command.script.message == "`$"
    ensures PsSingleQuotedValue(WindowsSteps(title, "$")[1].command.script.message) == Some("`$")
    ensures PsSingleQuotedValue(WindowsSteps(title, "$")[2].command.script.text) == Some("`$")
    ensures PsSingleQuotedValue(WindowsSteps("\U{2019}", message)[1].command.script.title) == None
    ensures PsSingleQuotedValue(WindowsSteps("\U{2019}", message)[2].command.script.caption) == None
    ensures PsSingleQuotedValue(WindowsStepsIntended(title, message)[1].command.script.title) == Some(title)
    ensures PsSingleQuotedValue(WindowsStepsIntended(title, message)[1].command.script.message) == Some(message)
    ensures PsSingleQuotedValue(WindowsStepsIntended(title, message)[2].command.script.text) == Some(message)
    ensures PsSingleQuotedValue(WindowsStepsIntended(title, message)[2].command.script.caption) == Some(title)
  {
    PowerShellDollarShowsBacktick();
    PowerShellTypographicQuoteBreaksLiteral();
    PowerShellSingleQuotedRoundTrip(title);
    PowerShellSingleQuotedRoundTrip(message);
  }

  function OptionalArgs(flag: string, icon: Option<string>): seq<string> {
    if icon.Some? then [flag, icon.value] else []
  }

  /** The AppleScript `display notification` statement, given the texts as
      they stand between its quotes. */
  function DisplayScript(message: string, title: string): string {
    "display notification \"" + message + "\" with title \"" + title + "\""
  }

  /** The two macOS attempts, with `escape` applied to the texts the
      AppleScript statement embeds: terminal-notifier if installed, then
      osascript. */
  function MacStepsWith(escape: string -> string, title: string, message: string, icon: Option<string>)
    : (r: seq<Step>)
    ensures |r| == 2 && r[0].spawnAborts && r[1].spawnAborts
    ensures r[0].probe == Some(Probe("terminal-notifier"))
    ensures r[0].command == Command("terminal-notifier", ["-title", title, "-message", message] +
                                    (if icon.Some? then ["-appIcon", icon.value] else []))
    ensures r[1].probe.None?
    ensures r[1].command == Command("osascript", ["-e", DisplayScript(escape(message), escape(title))])
  {
    [ Step(Some(Probe("terminal-notifier")),
           Command("terminal-notifier", ["-title", title, "-message", message] + OptionalArgs("-appIcon", icon)),
           true),
      Step(None, Command("osascript", ["-e", DisplayScript(escape(message), escape(title))]), true) ]
  }

  /** `send_notification_macos`, with `escape_applescript_string` as written. */
  function MacSteps(title: string, message: string, icon: Option<string>): seq<Step> {
    MacStepsWith(EscapeAppleScriptAsWritten, title, message, icon)
  }

  /** The macOS attempts with backslashes escaped before quotes. */
  function MacStepsIntended(title: string, message: string, icon: Option<string>): seq<Step> {
    MacStepsWith(EscapeAppleScript, title, message, icon)
  }

  /** osascript receives a title `"` as two backslashes and a quote, which
      ends the AppleScript literal early; with backslashes escaped first
      every title and message stands for itself. */
  lemma OsascriptTexts(title: string, message: string, icon: Option<string>)
    ensures MacSteps("\"", message, icon)[1].command.args[1]
      == DisplayScript(EscapeAppleScriptAsWritten(message), "\\\\\"")
    ensures AppleScriptLiteralValue(EscapeAppleScriptAsWritten("\"")) == None
    ensures AppleScriptLiteralValue(EscapeAppleScript(title)) == Some(title)
    ensures AppleScriptLiteralValue(EscapeAppleScript(message)) == Some(message)
    ensures MacStepsIntended(title, message, icon)[1].command.args[1]
      == DisplayScript(EscapeAppleScript(message), EscapeAppleScript(title))
  {
    AppleScriptQuoteBreaksLiteral();
    AppleScriptRoundTrip(title);
    AppleScriptRoundTrip(message);
  }

  /** `send_notification_linux`: four tools, each only if installed. */
  function LinuxSteps(title: string, message: string, icon: Option<string>): (r: seq<Step>)
    ensures |r| == 4
    ensures forall i :: 0 <= i < 4 ==>
      r[i].probe == Some(Probe(ProgramOf(r[i].command))) && r[i].spawnAborts
    ensures r[0].command == Command("notify-send", [title, message] +
                                    (if icon.Some? then ["--icon", icon.value] else []))
    ensures r[1].command == Command("kdialog", ["--title", title, "--passivepopup", message, "5"])
    ensures r[2].command == Command("zenity", ["--notification", "--text", title + ": " + message])
    ensures r[3].command == Command("xmessage", ["-center", title + "\n\n" + message])
  {
    [ Step(Some(Probe("notify-send")),
           Command("notify-send", [title, message] + OptionalArgs("--icon", icon)), true),
      Step(Some(Probe("kdialog")),
           Command("kdialog", ["--title", title, "--passivepopup", message, "5"]), true),
      Step(Some(Probe("zenity")),
           Command("zenity", ["--notification", "--text", title + ": " + message]), true),
      Step(Some(Probe("xmessage")),
           Command("xmessage", ["-center", title + "\n\n" + message]), true) ]
  }

  /** `fallback_send_notification`: the chain of the platform built for. */
  function FallbackSendNotification(p: Platform, title: string, message: string, icon: Option<string>,
                                    run: Command -> Exec): (r: Delivery)
    ensures p == OtherOs ==> r == Delivery(Err(Message(UnsupportedPlatform)), [])
  {
    match p
    case Windows => RunChain(WindowsSteps(title, message), WindowsFailed, run)
    case MacOS => RunChain(MacSteps(title, message, icon), MacOsFailed, run)
    case Linux => RunChain(LinuxSteps(title, message, icon), LinuxFailed, run)
    case OtherOs => Delivery(Err(Message(UnsupportedPlatform)), [])
  }

  /** `send_notification`: `notify_rust` first (an absent icon is passed as
      the empty path), the platform fallback only when it fails. */
  function SendNotification(p: Platform, shown: (string, string, string) -> bool,
                            title: string, message: string, icon: Option<string>,
                            run: Command -> Exec): (r: Delivery)
    ensures shown(title, message, icon.GetOr("")) ==> r == Delivery(Ok(()), [])
    ensures !shown(title, message, icon.GetOr("")) ==> r == FallbackSendNotification(p, title, message, icon, run)
  {
    if shown(title, message, icon.GetOr("")) then Delivery(Ok(()), [])
    else FallbackSendNotification(p, title, message, icon, run)
  }

  /** On Windows the fallback fails only when the balloon cannot be started,
      or when it fails and the message box then fails too. */
  lemma WindowsFallbackFails(title: string, message: string, run: Command -> Exec)
    ensures var steps := WindowsSteps(title, message);
      FallbackSendNotification(Windows, title, message, None, run).result.Err? <==>
        run(steps[0].command) != Exited(true) &&
        (run(steps[1].command) == SpawnFailed ||
         (run(steps[1].command) == Exited(false) && run(steps[2].command) != Exited(true)))
  {
    var steps := WindowsSteps(title, message);
    ChainDecidedOrExhausted(steps, run);
    if exists i: nat :: DecidedAt(steps, run, i) {
      var i: nat :| DecidedAt(steps, run, i);
      assert i == 0 || i == 1 || i == 2;
    }
  }

  /** On macOS the fallback fails with its own message exactly when
      terminal-notifier is missing or exits unsuccessfully and osascript then
      exits unsuccessfully. A terminal-notifier that is found but cannot be
      started, or an osascript that cannot be started, fails the fallback
      with that spawn error. */
  lemma MacFallbackOutcome(title: string, message: string, icon: Option<string>, run: Command -> Exec)
    ensures var steps := MacSteps(title, message, icon);
      var found := run(Probe("terminal-notifier")) == Exited(true);
      var r := FallbackSendNotification(MacOS, title, message, icon, run);
      (r.result == Err(Message(MacOsFailed)) <==>
        (!found || run(steps[0].command) == Exited(false)) && run(steps[1].command) == Exited(false)) &&
      (r.result.Err? <==>
        (found && run(steps[0].command) == SpawnFailed) ||
        ((!found || run(steps[0].command) == Exited(false)) && run(steps[1].command) != Exited(true))) &&
      (found && run(steps[0].command) == SpawnFailed ==> r.result == Err(SpawnError("terminal-notifier")))
  {
    var steps := MacSteps(title, message, icon);
    ChainExhausted(steps, MacOsFailed, run);
    if !StepVerdict(steps[0], run).Declined? {
      assert DecidedAt(steps, run, 0);
    } else if !StepVerdict(steps[1], run).Declined? {
      assert DecidedAt(steps, run, 1);
    }
  }

  /** On Linux the fallback gives up exactly when every tool is missing or
      exits unsuccessfully; the first tool that is installed and succeeds is
      the last command started. */
  lemma LinuxFallbackOutcome(title: string, message: string, icon: Option<string>, run: Command -> Exec)
    ensures var steps := LinuxSteps(title, message, icon);
      var r := FallbackSendNotification(Linux, title, message, icon, run);
      (r.result == Err(Message(LinuxFailed)) <==>
        forall i :: 0 <= i < 4 ==>
          run(steps[i].probe.value) != Exited(true) || run(steps[i].command) == Exited(false)) &&
      (forall i: nat :: DecidedAt(steps, run, i) && run(steps[i].command) == Exited(true) ==>
        r.result.Ok? && r.invoked[|r.invoked| - 1] == steps[i].command)
  {
    var steps := LinuxSteps(title, message, icon);
    ChainExhausted(steps, LinuxFailed, run);
  }

  /** The options a notification can carry; only title, message and icon
      reach the platform. */
  datatype NotificationBuilder = NotificationBuilder(
    title: string, message: string, iconPath: Option<string>, timeout: Option<nat>,
    urgency: Option<Urgency>, actions: seq<(string, string)>)

  /** `NotificationBuilder::send`. */
  function BuilderSend(b: NotificationBuilder, p: Platform, shown: (string, string, string) -> bool,
                       run: Command -> Exec): Delivery
  {
    SendNotification(p, shown, b.title, b.message, b.iconPath, run)
  }

  /** `send_notification_with_options`. */
  function SendNotificationWithOptions(p: Platform, shown: (string, string, string) -> bool,
                                       run: Command -> Exec, title: string, message: string,
                                       icon: Option<string>, timeout: Option<nat>, level: Option<int>): Delivery
  {
    BuilderSend(NotificationBuilder(title, message, icon, timeout, UrgencyOf(level), []), p, shown, run)
  }

  /** Timeout and urgency change nothing about the delivery. */
  lemma OptionsIgnored(p: Platform, shown: (string, string, string) -> bool, run: Command -> Exec,
                       title: string, message: string, icon: Option<string>,
                       t1: Option<nat>, t2: Option<nat>, l1: Option<int>, l2: Option<int>)
    ensures SendNotificationWithOptions(p, shown, run, title, message, icon, t1, l1) ==
            SendNotificationWithOptions(p, shown, run, title, message, icon, t2, l2)
    ensures SendNotificationWithOptions(p, shown, run, title, message, icon, t1, l1) ==
            SendNotification(p, shown, title, message, icon, run)
  {
  }
}
