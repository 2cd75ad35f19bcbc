/** Process listing, search and termination (`get_all_process_list.rs`) over a
    process table given as data: the snapshot `sysinfo` would produce. */
module Processes {
  import opened Text

  /** One row of the process table, without its floating-point CPU usage. */
  datatype ProcessInfo = ProcessInfo(pid: nat, name: string, cmd: seq<string>, memoryUsage: nat)

  /** The name filter of `find_process_by_name`: case-insensitive substring match. */
  predicate NameMatches(p: ProcessInfo, query: string) {
    Contains(ToLower(p.name), ToLower(query))
  }

  /** `a` is `b` with some elements dropped and the rest kept in order. */
  predicate IsSubsequence<T(==)>(a: seq<T>, b: seq<T>)
    decreases |b|
  {
    if a == [] then true
    else if b == [] then false
    else if a[0] == b[0] then IsSubsequence(a[1..], b[1..])
    else IsSubsequence(a, b[1..])
  }

  /** `find_process_by_name`: the processes of `table` whose lowercased name
      contains the lowercased query, in table order. */
  function FindProcessByName(table: seq<ProcessInfo>, query: string): (r: seq<ProcessInfo>)
    ensures forall p :: p in r <==> p in table && NameMatches(p, query)
    ensures IsSubsequence(r, table)
    ensures |r| <= |table|
  {
    if table == [] then []
    else if NameMatches(table[0], query) then [table[0]] + FindProcessByName(table[1..], query)
    else FindProcessByName(table[1..], query)
  }

  /** An empty query matches every process, so the whole table is returned. */
  lemma {:induction false} EmptyQueryKeepsAll(table: seq<ProcessInfo>)
    ensures FindProcessByName(table, "") == table
  {
    if table != [] {
      ContainsSelf(ToLower(table[0].name));
      EmptyQueryKeepsAll(table[1..]);
    }
  }

  /** Filtering is insensitive to the case of the query. */
  lemma {:induction false} QueryCaseInsensitive(table: seq<ProcessInfo>, query: string)
    ensures FindProcessByName(table, ToLower(query)) == FindProcessByName(table, query)
  {
    ToLowerIdempotent(query);
    if table != [] {
      QueryCaseInsensitive(table[1..], query);
    }
  }

  /** Filtering twice with the same query changes nothing more. */
  lemma {:induction false} FindIdempotent(table: seq<ProcessInfo>, query: string)
    ensures FindProcessByName(FindProcessByName(table, query), query) == FindProcessByName(table, query)
  {
    if table != [] {
      FindIdempotent(table[1..], query);
    }
  }

  predicate HasPid(table: seq<ProcessInfo>, pid: nat) {
    exists p :: p in table && p.pid == pid
  }

  /** `kill_process`: look the pid up in the snapshot; a missing pid is false,
      otherwise the outcome of sending the kill signal (`signal`). */
  function KillProcess(table: seq<ProcessInfo>, pid: nat, signal: nat -> bool): (killed: bool)
    ensures killed <==> HasPid(table, pid) && signal(pid)
    ensures !HasPid(table, pid) ==> !killed
  {
    if HasPid(table, pid) then signal(pid) else false
  }

  /** `can_access_processes`: the refreshed table is not empty. */
  function CanAccessProcesses(table: seq<ProcessInfo>): (r: bool)
    ensures r <==> exists p :: p in table
  {
    assert |table| > 0 ==> table[0] in table;
    |table| > 0
  }

  const MacOsAccessInfo := "On macOS, accessing process information may require running as an administrator or adjusting privacy settings."
  const LinuxAccessInfo := "On Linux, some process information may require elevated privileges."
  const WindowsAccessInfo := "On Windows, some process information may require administrator rights."
  const DefaultAccessInfo := "Access to process information may be restricted on this platform."

  /** `get_process_access_info`, keyed by `std::env::consts::OS`. */
  function ProcessAccessInfo(os: string): (r: string)
    ensures r in {MacOsAccessInfo, LinuxAccessInfo, WindowsAccessInfo, DefaultAccessInfo}
    ensures r == DefaultAccessInfo <==> os !in {"macos", "linux", "windows"}
  {
    match os
    case "macos" => MacOsAccessInfo
    case "linux" => LinuxAccessInfo
    case "windows" => WindowsAccessInfo
    case _ => DefaultAccessInfo
  }

  /** Different known operating systems get different messages. */
  lemma AccessInfoDistinguishesKnownOs(a: string, b: string)
    requires a in {"macos", "linux", "windows"}
    ensures ProcessAccessInfo(a) == ProcessAccessInfo(b) <==> a == b
  {
  }
}
