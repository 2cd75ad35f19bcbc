# pi-task-watch core, modelled in Dafny

This project models the decision logic of the Rust library behind the
pi-task-watch desktop agent. Every call into the operating system or a crate
is a value or a function parameter: a program's exit, a file's presence,
size and contents, a window query, a key or button poll, and the base64
coder. The model covers:

- **Screenshots** (`take_full_screenshot.rs`).
  - The per-platform chain of capture methods: the first success wins, and
    otherwise the final error is wrapped in the platform's context.
  - The NirCmd method: the path search, with a bundled copy tried first and
    the `cmdwait` retry, then the checks on the written file.
  - Extraction of the bundled NirCmd: candidate selection by existence,
    size range and "MZ" header, then reuse of a cached copy, the copy itself
    and its size check.
  - The checks on the memory-based method's output.
  - The Linux command-line fallback.
  - The Windows environment assessment and its reliability score.
- **Window listener** (`active_window_listener.rs`).
  - The id-to-running-flag registry, a class with a monotonic id counter.
  - The poll loop, as a class over the shared running flag.
  - The window conversion and the icon lookup.
- **Keyboard and mouse listeners** (`keyboard_listener.rs`,
  `mouse_listener.rs`).
  - One poll step each: presses for new keys or buttons, then releases for
    vanished ones, over unordered sets.
  - The mouse-button classifier.
- **Notifications** (`desktop_notification.rs`).
  - The two escapers.
  - The urgency mapping.
  - `send_notification` and the per-platform fallback chains of notification
    tools.
- **Processes** (`get_all_process_list.rs`).
  - Name filtering and kill-by-pid over a process table given as data.
  - The access-information messages.

Modules:

| Module | Contents |
|---|---|
| `Wrappers` | `Option`, `Result` and `Error`. `Error` holds a message, a spawn failure, or an `anyhow` context around a cause. |
| `Os` | The platform, the outcome of running a program, and a file probe. |
| `Text` | Lower-casing, substring search, one-character replace and trim. |
| `Processes`, `Mouse`, `Keyboard`, `WindowListener`, `Notifications` | One module per source file. |
| `BundledAsset`, `NirCmd`, `WindowsEnvironment`, `Screenshot` | The parts of `take_full_screenshot.rs`. |

## Model

| member | source | states |
|---|---|---|
| Os.CurrentPlatformName | rust/src/api/active_window_listener.rs:105-115 | The name is one of "windows", "macos", "linux" or "unknown". It is "unknown" exactly for an unsupported platform. |
| Os.PlatformNameInjective | rust/src/api/active_window_listener.rs:98-115 | Different platforms get different names. A platform is supported exactly when its name is not "unknown". |
| Processes.FindProcessByName | rust/src/api/get_all_process_list.rs:75-80 | A process is in the result exactly when it is in the table and its lowercased name contains the lowercased query. The result is a subsequence of the table, so table order is kept. |
| Processes.EmptyQueryKeepsAll | rust/src/api/get_all_process_list.rs:76-79 | The empty query returns the whole table. |
| Processes.QueryCaseInsensitive | rust/src/api/get_all_process_list.rs:78 | Lowercasing the query first does not change the result. |
| Processes.FindIdempotent | rust/src/api/get_all_process_list.rs:75-80 | Filtering the result again with the same query changes nothing. |
| Processes.KillProcess | rust/src/api/get_all_process_list.rs:84-95 | The result is true exactly when the pid is in the table and the kill signal succeeds. A missing pid gives false. |
| Processes.CanAccessProcesses | rust/src/api/get_all_process_list.rs:68-72 | True exactly when the table has some process. |
| Processes.ProcessAccessInfo | rust/src/api/get_all_process_list.rs:57-64 | The message is one of the four fixed texts. It is the default text exactly when the OS is not "macos", "linux" or "windows". |
| Processes.AccessInfoDistinguishesKnownOs | rust/src/api/get_all_process_list.rs:57-64 | Each of the three known systems has a message no other OS name gets. |
| Mouse.ClassifyButton | rust/src/api/mouse_listener.rs:18-29 | The left flag is set iff the lowercased input contains "left". The right flag is set iff it contains "right" but not "left". Both are never set together. The name is "left" when the lowercased input contains "left", else "right" when it contains "right", else "middle" when it contains "middle", else the lowercased input itself. |
| Mouse.ReleaseFlags | rust/src/api/mouse_listener.rs:75-80 | The recomputed release flags are never both true. |
| Mouse.ReleaseFlagsAgree | rust/src/api/mouse_listener.rs:75-80 | For every name the classifier produces, the release flags equal the flags the press carried. |
| Mouse.FriendlyNameFacts | rust/src/api/mouse_listener.rs:20-25 | The three friendly names are their own lowercase forms. "right" does not contain "left". "middle" contains neither "left" nor "right". |
| Mouse.ClassifyIdempotent | rust/src/api/mouse_listener.rs:18-29 | Classifying the friendly name again gives the same name and flags. |
| Mouse.PressEvents | rust/src/api/mouse_listener.rs:60-71 | There is at most one press event per pressed button. |
| Mouse.PressEventsCharacterized | rust/src/api/mouse_listener.rs:60-71 | The press events name exactly the current names that were not previously pressed. Each is a press with this poll's coordinates and the classifier's flags. |
| Mouse.CurrentNames | rust/src/api/mouse_listener.rs:52-55 | The current set is the set of friendly names of the pressed buttons. |
| Mouse.EmitPresses | rust/src/api/mouse_listener.rs:60-71 | The loop emits exactly the press events, in button order. |
| Mouse.EmitReleases | rust/src/api/mouse_listener.rs:74-89 | In whatever order the set yields, the loop emits one release per vanished name, no name twice. Each carries this poll's coordinates and flags recomputed from the name. |
| Mouse.MouseStep | rust/src/api/mouse_listener.rs:39-91 | All presses come first, in button order, then the releases of previous minus current. The new previous set is the current name set. |
| Keyboard.KeyNames | rust/src/api/keyboard_listener.rs:24-28 | Every tracked key name is lowercase. |
| Keyboard.EmitAll | rust/src/api/keyboard_listener.rs:31-47 | The loop emits one event per key of the set, each key exactly once, all with the given press flag. |
| Keyboard.KeyboardStep | rust/src/api/keyboard_listener.rs:22-49 | The events are the presses of current minus previous, then the releases of previous minus current. A key held in both polls gets no event. The new previous set is the current key set. |
| Keyboard.StepBalance | rust/src/api/keyboard_listener.rs:31-49 | In one step, presses minus releases of a key is 1 if it was pressed, -1 if it was released, and 0 otherwise. |
| Keyboard.AppendStep | rust/src/api/keyboard_listener.rs:31-49 | Appending one step's events keeps the balance invariant: each key has a net count of 1 exactly while it is held. |
| Keyboard.Listen | rust/src/api/keyboard_listener.rs:16-52 | After any number of polls, the previous set is the last poll's key set and every event key is lowercase. Every key's presses minus releases is 1 if it is held now and 0 otherwise. |
| WindowListener.ConvertWindowInfo | rust/src/api/active_window_listener.rs:28-44 | All eleven fields are copied unchanged: the source window is recovered from the details. |
| WindowListener.ConvertInjective | rust/src/api/active_window_listener.rs:28-44 | Two windows convert to the same details exactly when they are equal. |
| WindowListener.GetActiveWindowInfo | rust/src/api/active_window_listener.rs:47-52 | The result is Ok exactly when the query succeeds, and then holds the converted active window. Otherwise it is the fixed active-window error. |
| WindowListener.ConvertAll | rust/src/api/active_window_listener.rs:58-60 | The result has the same length, and each entry is the conversion of the window at that position. |
| WindowListener.GetOpenWindowsInfo | rust/src/api/active_window_listener.rs:55-65 | The result is Ok exactly when the query succeeds, and then holds every window converted, in order. Otherwise it is the fixed open-windows error. |
| WindowListener.FirstWithId | rust/src/api/active_window_listener.rs:80-88 | The result is the position of the first window with the id, or None when no window has it. |
| WindowListener.IconLookupCases | rust/src/api/active_window_listener.rs:68-95 | A matching active window's icon is used first. Otherwise the icon of the first open window with the id is used. "Window not found" comes back exactly when both queries succeed and neither has the id. |
| WindowListener.GetWindowIconData | rust/src/api/active_window_listener.rs:68-95 | The lookup method with its loop over the open windows computes the icon lookup. |
| WindowListener.FirstWithIdUnique | rust/src/api/active_window_listener.rs:80-87 | A window with the id, with none before it, is the one found. |
| WindowListener.FirstWithIdNone | rust/src/api/active_window_listener.rs:80-88 | When no window has the id, none is found. |
| WindowListener.PollStep | rust/src/api/active_window_listener.rs:141-153 | A window is emitted exactly when the query succeeds with an id different from the last one, and the last id becomes that id. Otherwise the last id is unchanged. |
| WindowListener.PollStepIdempotent | rust/src/api/active_window_listener.rs:143-147 | Repeating the same query right after a step emits nothing. |
| WindowListener.LastIdIsLastEmitted | rust/src/api/active_window_listener.rs:140-155 | After a run of polls the remembered id is the id of the last window emitted. When nothing was emitted it is the starting id. |
| WindowListener.EmissionsChange | rust/src/api/active_window_listener.rs:140-155 | In a run of polls, consecutive emitted windows always have different ids, and the first differs from the starting last id. |
| WindowListener.RunningFlag.constructor | rust/src/api/active_window_listener.rs:119 | A new flag is running. |
| WindowListener.Registry.constructor | rust/src/api/active_window_listener.rs:11-13 | The registry starts empty, with the counter at 1. |
| WindowListener.Registry.Start | rust/src/api/active_window_listener.rs:118-126 | Returns the counter's old value as a fresh id and increments the counter by one. Registers a fresh running flag under that id and keeps the other entries. |
| WindowListener.Registry.Stop | rust/src/api/active_window_listener.rs:168-179 | Returns true exactly when the id was registered. The entry is removed and its flag cleared; nothing else changes. |
| WindowListener.Registry.StopTwice | rust/src/api/active_window_listener.rs:168-179 | Two stops of a registered id: the first returns true and clears its flag, the second returns false. Only that entry is removed. |
| WindowListener.Poller.constructor | rust/src/api/active_window_listener.rs:129 | The last id starts at 0. |
| WindowListener.Poller.Run | rust/src/api/active_window_listener.rs:140-155 | While the flag is running, the loop emits exactly the windows whose id changed, and the remembered id ends as the id of the last window emitted. With the flag cleared it emits nothing and keeps the last id. |
| WindowListener.StartPollStop | rust/src/api/active_window_listener.rs:118-179 | Start, poll, stop, then stop again: the first stop succeeds and the second returns false. The stopped listener emits nothing more. Afterwards the registry holds exactly the listeners it held before, and the id counter has advanced by one. |
| Notifications.EscapePowerShellCons | rust/src/api/desktop_notification.rs:266-271 | The four chained replacements act on each character independently: `'` becomes `''`, a backtick is doubled, `"` and `$` get a backtick prefix. |
| Notifications.EscapePowerShellPlain | rust/src/api/desktop_notification.rs:266-271 | A string without any of the four special characters is returned unchanged. |
| Notifications.EscapeAppleScriptAsWrittenCons | rust/src/api/desktop_notification.rs:275-278 | As written, a quote becomes backslash, backslash, quote, and a backslash is doubled. |
| Notifications.AppleScriptQuoteBreaksLiteral | rust/src/api/desktop_notification.rs:275-278 | The as-written escape of a single quote character does not read back as an AppleScript string literal. |
| Notifications.EscapeAppleScriptCons | rust/src/api/desktop_notification.rs:275-278 | Corrected order, backslash first: a quote becomes backslash, quote, and a backslash is doubled. |
| Notifications.AppleScriptRoundTrip | rust/src/api/desktop_notification.rs:275-278 | The corrected escape of any string reads back as that string inside an AppleScript literal. |
| Notifications.PowerShellDollarShowsBacktick | rust/src/api/desktop_notification.rs:266-271 | In the single-quoted strings where the scripts use it, the escape of `$` displays as a backtick followed by `$`. |
| Notifications.PowerShellTypographicQuoteBreaksLiteral | rust/src/api/desktop_notification.rs:266-271 | The escaper leaves the typographic apostrophe U+2019 unchanged, and in a single-quoted string that character alone ends the string. |
| Notifications.PowerShellSingleQuotedRoundTrip | rust/src/api/desktop_notification.rs:266-271 | Doubling each of the five PowerShell single-quote characters (`'` and U+2018 to U+201B) escapes any string for a single-quoted literal, which then reads back as the string. |
| Notifications.UrgencyOf | rust/src/api/desktop_notification.rs:297-301 | None maps to None, 0 to Low and 1 to Normal; every other level maps to Critical. Each is an if-and-only-if. |
| Notifications.StepVerdict | rust/src/api/desktop_notification.rs:194-212 | An attempt delivers exactly when its probe succeeds and its command exits successfully. It aborts the chain exactly when the probe succeeds, the command cannot be started, and the call used `?`. |
| Notifications.RunChain | rust/src/api/desktop_notification.rs:192-261 | The first attempt that delivers or aborts decides the result and is the last command started. When every attempt falls through, the chain's own error is the result. |
| Notifications.ChainInvocations | rust/src/api/desktop_notification.rs:192-261 | The commands started are exactly those of the attempts up to the deciding one: each probe, then the command when the probe let it run. When every attempt falls through, they are those of all attempts. |
| Notifications.ChainDecidedOrExhausted | rust/src/api/desktop_notification.rs:192-261 | Either some attempt decides the chain or every attempt falls through. |
| Notifications.ChainOk | rust/src/api/desktop_notification.rs:192-261 | A chain succeeds exactly when its deciding attempt delivered. |
| Notifications.ChainExhausted | rust/src/api/desktop_notification.rs:246-261 | The chain's final error comes back exactly when every attempt fell through. |
| Notifications.WindowsStepsWith | rust/src/api/desktop_notification.rs:70-148 | Three unprobed PowerShell attempts: toast, balloon, message box. A toast that cannot be started falls through; the other two abort the chain. Each script embeds the given escape of title and message, and the message box takes the message first. `WindowsSteps` passes `escape_powershell_string` as written. |
| Notifications.BalloonTexts | rust/src/api/desktop_notification.rs:109-138 | In the balloon and the message box of the chain as written, a message `$` shows as `` `$ ``, and a title `’` does not read back. With every single quote doubled instead, both scripts read back title and message unchanged. |
| Notifications.MacStepsWith | rust/src/api/desktop_notification.rs:152-188 | Two attempts: terminal-notifier, gated by its `command -v` probe, then osascript without a probe. A failure to start either aborts the chain. terminal-notifier gets `-title`, `-message` and, when an icon is given, `-appIcon`. The osascript line is `display notification` with the given escape of message and title. `MacSteps` passes `escape_applescript_string` as written. |
| Notifications.OsascriptTexts | rust/src/api/desktop_notification.rs:176-177 | The macOS chain as written turns the title `"` into `\\"`, which ends the AppleScript literal early. With backslashes escaped first, title and message read back unchanged. |
| Notifications.LinuxSteps | rust/src/api/desktop_notification.rs:192-261 | notify-send, kdialog, zenity and xmessage, in that order. Each is gated by its own `command -v` probe, and each aborts the chain if it cannot be started. Each gets the argument list of the source: notify-send title, message and an optional `--icon`; kdialog a 5-second passive popup; zenity "title: message"; xmessage title and message separated by a blank line. |
| Notifications.FallbackSendNotification | rust/src/api/desktop_notification.rs:50-67 | An unsupported platform fails with its fixed message and starts nothing. |
| Notifications.SendNotification | rust/src/api/desktop_notification.rs:37-48 | When notify_rust shows the notification the result is Ok and nothing else is started. Otherwise the result is the platform fallback's. |
| Notifications.WindowsFallbackFails | rust/src/api/desktop_notification.rs:70-148 | Once the toast has not succeeded, the Windows fallback fails exactly when the balloon cannot be started, or when the balloon fails and the message box fails too. |
| Notifications.MacFallbackOutcome | rust/src/api/desktop_notification.rs:150-188 | The macOS fallback fails with its own message exactly when terminal-notifier is missing or exits unsuccessfully and osascript then exits unsuccessfully. A found terminal-notifier that cannot be started fails with its spawn error, as does an osascript that cannot be started. |
| Notifications.LinuxFallbackOutcome | rust/src/api/desktop_notification.rs:192-261 | The Linux fallback gives up exactly when every tool is missing or exits unsuccessfully. The first installed tool that succeeds gives Ok and is the last command started. |
| Notifications.OptionsIgnored | rust/src/api/desktop_notification.rs:290-337 | Timeout and urgency change nothing. Sending with options is sending title, message and icon. |
| BundledAsset.AssetCandidates | rust/src/api/take_full_screenshot.rs:1917-1926 | Eight candidates, alternating nircmd.exe and nircmdc.exe. |
| BundledAsset.FirstQualifying | rust/src/api/take_full_screenshot.rs:1949-1972 | The position found is the first candidate that exists, has size strictly between 10000 and 5000000, is readable with at least 64 bytes, and starts with "MZ". None means no candidate qualifies. |
| BundledAsset.SelectAsset | rust/src/api/take_full_screenshot.rs:1945-1977 | The search loop returns exactly that first qualifying candidate. |
| BundledAsset.FirstQualifyingAt | rust/src/api/take_full_screenshot.rs:1949-1972 | A qualifying candidate with none qualifying before it is the one found. |
| BundledAsset.FirstQualifyingNone | rust/src/api/take_full_screenshot.rs:1974-1977 | When no candidate qualifies, none is found. |
| BundledAsset.ExtractBundledNirCmd | rust/src/api/take_full_screenshot.rs:1905-2032 | The extraction method computes the extraction's result and file-system actions. |
| BundledAsset.ExtractionSource | rust/src/api/take_full_screenshot.rs:1949-2012 | "Asset not found" comes back exactly when no candidate qualifies. Any copy made is taken from the first qualifying candidate. |
| BundledAsset.CacheReused | rust/src/api/take_full_screenshot.rs:1992-2006 | An existing copy with the source's size is returned, and nothing is copied. |
| BundledAsset.ExtractionVerified | rust/src/api/take_full_screenshot.rs:2014-2031 | A successful extraction returns the extracted path with a file of the source's size there. A size mismatch removes the copy. |
| NirCmd.SearchPaths | rust/src/api/take_full_screenshot.rs:697-717 | A successfully extracted path is put at index 0, before all eight system paths. Without one, the list is the system paths. |
| NirCmd.PathActions | rust/src/api/take_full_screenshot.rs:744-820 | Trying a path always runs `savescreenshot` first, and everything it does concerns that path. The retry runs only after a started command fails. |
| NirCmd.FirstWorkingFrom | rust/src/api/take_full_screenshot.rs:723-826 | The position found is the first path that works. None means no path works. |
| NirCmd.SearchStopsAtFirstWorking | rust/src/api/take_full_screenshot.rs:723-826 | The search acts only on paths up to the first working one: no later path is run. The working path's command is among those run. |
| NirCmd.FindWorkingNirCmd | rust/src/api/take_full_screenshot.rs:719-826 | The loop succeeds exactly when some path works, and then uses the first working path. Its actions are the search trace. |
| NirCmd.ValidateScreenshot | rust/src/api/take_full_screenshot.rs:842-926 | The checks, in order, each give their own error: the file is missing; its metadata is unreadable; it is under 1000 bytes (the file is then removed, and the message gives the size in decimal); it is unreadable. Otherwise the result is the encoded contents. A missing PNG signature only sets the warning. |
| NirCmd.NonPngAccepted | rust/src/api/take_full_screenshot.rs:910-914 | Two files that differ only in the PNG signature are both accepted. Only the one without the signature gets the warning. |
| NirCmd.NirCmdOutcomeCases | rust/src/api/take_full_screenshot.rs:828-834 | The method succeeds exactly when some path works and the written file passes validation. With no working path it fails with the no-installation error. |
| NirCmd.TakeScreenshotNirCmd | rust/src/api/take_full_screenshot.rs:675-945 | The method computes the NirCmd outcome. A working extracted copy is the path used, and it is the only path tried. |
| WindowsEnvironment.TopScoresRatedPoor | rust/src/api/take_full_screenshot.rs:605-621 | The bands as written rate 100 Excellent, but 101 and the reachable 124 Poor. |
| WindowsEnvironment.RatingOf | rust/src/api/take_full_screenshot.rs:605-621 | The corrected bands agree with the written ones on every score up to 100. |
| WindowsEnvironment.RatingMonotone | rust/src/api/take_full_screenshot.rs:605-621 | Under the corrected bands, a higher score never gets a worse rating. |
| WindowsEnvironment.ListedMembers | rust/src/api/take_full_screenshot.rs:463-590 | A method is listed exactly when it is probed and its probe succeeded. |
| WindowsEnvironment.ListedProbeOrder | rust/src/api/take_full_screenshot.rs:463-590 | Over all ten probes, a method is listed iff its probe succeeded. The list is empty iff no probe succeeded. |
| WindowsEnvironment.Include | rust/src/api/take_full_screenshot.rs:463-590 | One probe appends its method exactly when it succeeded and adds that method's points. The score remains the sum over the listed methods. |
| WindowsEnvironment.ProbeCoreMethods | rust/src/api/take_full_screenshot.rs:463-533 | NirCmd and the four PowerShell methods contribute at most 90 points, and exactly 90 when everything is present. |
| WindowsEnvironment.ProbeExternalTools | rust/src/api/take_full_screenshot.rs:535-556 | WMI and FFmpeg add at most 22 points. |
| WindowsEnvironment.ProbeCompilers | rust/src/api/take_full_screenshot.rs:558-590 | The C# pair and VBScript add at most 12 points: only one of the two C# methods counts. |
| WindowsEnvironment.EnvironmentResult | rust/src/api/take_full_screenshot.rs:447-649 | The check passes exactly in an interactive session where some probe succeeded. The session error takes precedence over the no-methods error. |
| WindowsEnvironment.CheckWindowsEnvironment | rust/src/api/take_full_screenshot.rs:447-649 | The result is the check's verdict. Each method is listed iff its probe succeeded, and the score is their sum. The score never exceeds 124 and is exactly 124 on a fully capable system. |
| Screenshot.FirstSuccess | rust/src/api/take_full_screenshot.rs:129-256 | The methods invoked are a prefix of the order, and every one before the last failed. The result is the last one's, and a failure means all were invoked. |
| Screenshot.FirstSuccessOk | rust/src/api/take_full_screenshot.rs:129-256 | The chain succeeds exactly when one of its methods does. |
| Screenshot.FirstSuccessStopsAt | rust/src/api/take_full_screenshot.rs:129-252 | The first succeeding method is the last one invoked, and its result is the chain's. |
| Screenshot.ChooseTool | rust/src/api/take_full_screenshot.rs:394-402 | The chosen tool is the first whose lookup succeeded, with every earlier lookup failing. "No fallback tools" comes back exactly when every lookup fails. A lookup that cannot be started is a spawn error. |
| Screenshot.LinuxFallback | rust/src/api/take_full_screenshot.rs:385-433 | The fallback succeeds exactly when a tool is found, it exits successfully and the file reads. The result is then the encoded file. A tool-choice error is passed through. |
| Screenshot.LinuxToolPreference | rust/src/api/take_full_screenshot.rs:394-402 | gnome-screenshot is preferred over import, and import over scrot. |
| Screenshot.LinuxToolFailureNamed | rust/src/api/take_full_screenshot.rs:404-406 | A chosen tool that exits unsuccessfully fails with a message naming that tool. |
| Screenshot.MemoryOutcome | rust/src/api/take_full_screenshot.rs:1849-1899 | The result is Ok exactly when PowerShell succeeds, its output is UTF-8, and the trimmed output is non-empty and decodes to at least 1000 bytes. The trimmed text is returned. Each earlier failure has its own error: an empty trimmed output, output that does not decode, and a decoded image under 1000 bytes, whose message gives the size. |
| Screenshot.MemoryResultValid | rust/src/api/take_full_screenshot.rs:1868-1899 | An accepted result has no surrounding white space and decodes to at least 1000 bytes. |
| Screenshot.TakeFullScreenshot | rust/src/api/take_full_screenshot.rs:65-319 | A success is the result of the last method invoked, and every method before it failed. On Windows the methods invoked are a prefix of the Windows order; elsewhere the screenshots crate goes first. |
| Screenshot.WindowsEnvironmentGate | rust/src/api/take_full_screenshot.rs:106-109 | When the Windows environment check fails, nothing is invoked and its error is returned. |
| Screenshot.WindowsChainCases | rust/src/api/take_full_screenshot.rs:129-256 | Windows succeeds iff one of the ten methods does, and stops at the first that does. If all ten fail, the VBScript error is returned under "All 10 Windows screenshot methods failed". |
| Screenshot.NirCmdFirst | rust/src/api/take_full_screenshot.rs:129-150 | A working NirCmd is the only method invoked on Windows. |
| Screenshot.CrateChainCases | rust/src/api/take_full_screenshot.rs:274-317 | Off Windows a working crate ends the chain. Otherwise Linux runs the tool fallback and wraps its error; macOS and the other platforms wrap the crate's error in their own context. |
| Screenshot.LinuxAcceptsSmallFile | rust/src/api/take_full_screenshot.rs:412-433 | The Linux fallback accepts even an empty file. |

## Left out

- Threads, the infinite poll loops, polling intervals, sleeps and `StreamSink` delivery. The poll step is modelled instead. A run of polls is a finite sequence of query results, and the registry is a sequential table.
- `Registry.Start`: the id counter is unbounded. u64 wrap-around is not modelled, because 2^64 starts are out of any reach.
- All `println!` output and the banners.
- The PowerShell, VBScript, C#, WMI, FFmpeg and DirectShow script texts and their capture methods. Their outcomes are opaque data (`World.other`), as is the toast XML.
- The screenshots crate, PNG encoding and base64 (standard alphabet with padding, section 4 of RFC 4648). These are opaque functions `encode` and `decode`.
- The failure of `SystemTime::duration_since` when naming temporary files. It cannot happen on a clock past 1970.
- Exit codes, OS error texts and decode error texts inside error messages. Where such a `{}` part is filled from an `io::Error`, an exit status or a decode error, the message keeps its fixed text and drops that part together with its framing. The two too-small messages keep their byte count, written in decimal. The memory method's stderr is kept.
- Re-reading the source's metadata during extraction ("Failed to get source metadata"). The file system is a static snapshot, so its size is the one read while selecting.
- Repeated extraction. Extraction is a function of that snapshot, so the environment check and the NirCmd method see the same result.
- The unused current-directory candidate list in `extract_bundled_nircmd`.
- `check_linux_environment`. It returns `Ok` on every path, so the Linux branch has no gate.
- `has_screen_recording_permission` only changes logging.
- `is_nircmd_available` is the `nircmdInstalled` probe.
- The diagnostic helpers (`test_*`, `test_all_available_methods`, `init_app`).
- `cpu_usage` and the success-rate percentage, because they are floats.
- `get_all_processes` beyond its result: the table is the input.
- The toast's reading of its texts. The toast puts them into an XML template inside a here-string `@'...'@`, where PowerShell unescapes nothing, so whatever either escaper adds shows up in the toast (`'` as written shows as `''`), and XML markup in a text is read as markup. Neither the here-string nor the XML is modelled; the corrected escaper covers only the balloon and the message box.
- `Screenshot.MemoryOutcome`: the PNG-header check on the decoded bytes only logs, so it is not modelled. The output is trimmed of ASCII white space only, while Rust's `trim` also strips Unicode white space; PowerShell's base64 output is ASCII, so the difference does not show on real output.
- `Text.ToLower`: folds only the ASCII letters A to Z. Rust's `to_lowercase` folds every Unicode letter, so the model leaves "É" unchanged where the source gives "é".
- `Text.Trim`: strips only ASCII white space (space, tab, line feed, carriage return, vertical tab, form feed). Rust's `trim` strips every Unicode white-space character.
- `Processes.FindProcessByName`: the comparison uses ASCII case folding only. A process named "ÉCRAN.exe" with the query "écran" is found by the source but not by the model.
- `Mouse.ClassifyButton`: lowercases with ASCII case folding only, as `Text.ToLower` does.
- `WindowsEnvironment.CheckWindowsEnvironment`: the source only prints the rating. The model returns the corrected band next to the result.
- `Screenshot.LinuxFallback`: unlike the NirCmd and memory methods, the Linux fallback puts no minimum size on the file, even though the design describes a 1000-byte minimum for every method. The model follows the code.
- `generate_fastforge_configs.py`, `lib.rs` and `mod.rs`: configuration and module declarations only.

## Findings

| source | as written | input that shows it | evidently intended | confidence | as-written member | corrected member |
|---|---|---|---|---|---|---|
| rust/src/api/desktop_notification.rs:275-278 | `escape_applescript_string` escapes `"` before `\`. The backslash added for a quote is then doubled, so `"` becomes `\\"`. | A title or message `"`. The osascript literal then ends after `\\`, and the rest is a syntax error. | Escape `\` first, then `"`. The literal then reads back as the input. | not executed | Notifications.AppleScriptQuoteBreaksLiteral | Notifications.AppleScriptRoundTrip |
| rust/src/api/desktop_notification.rs:266-271 | `escape_powershell_string` adds backtick escapes for `` ` ``, `"` and `$`. The scripts embed its output in single-quoted strings, where backticks are literal. | A message `$5`. The notification shows `` `$5 ``. | In a single-quoted string only the single-quote characters need escaping, each by doubling. | not executed | Notifications.PowerShellDollarShowsBacktick | Notifications.PowerShellSingleQuotedRoundTrip |
| rust/src/api/desktop_notification.rs:266-271 | `escape_powershell_string` doubles only the ASCII `'`. PowerShell also ends a single-quoted string at the typographic single quotes U+2018 to U+201B. | A title containing `’`, as in `don’t`. The balloon literal ends at `’`, and the script fails to parse. | Double every single-quote character, the typographic ones too. | not executed | Notifications.PowerShellTypographicQuoteBreaksLiteral | Notifications.PowerShellSingleQuotedRoundTrip |
| rust/src/api/take_full_screenshot.rs:605-621 | The score bands are `90..=100`, `70..=89` and so on. The catch-all arm rates everything else POOR, but the probes can add up to 124. | A fully capable system with csc present scores 124 and is rated POOR. | 90 and above is excellent. | not executed | WindowsEnvironment.TopScoresRatedPoor | WindowsEnvironment.RatingMonotone |

The notification chains `WindowsSteps` and `MacSteps` embed the escapers as written, so `BalloonTexts` and `OsascriptTexts` show each discrepancy in the command the chain starts. The single-quote reader `PsSingleQuotedValue` follows the grammar of single-quoted strings in the PowerShell language specification, where a single-quote character is any of `'`, U+2018, U+2019, U+201A and U+201B. `WindowsStepsIntended` and `MacStepsIntended` build the same chains with the corrected escapers, and the same two lemmas show that their literals read back as the input.
