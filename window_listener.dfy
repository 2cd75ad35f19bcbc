/** The active-window listener (`active_window_listener.rs`): the registry of
    running listeners, the change-detecting poll loop, the conversion of
    `x_win`'s window record, and the icon lookup. Window queries are given as
    data: `None` stands for an `XWinError`. */
module WindowListener {
  import opened Wrappers

  datatype Position = Position(x: int, y: int, width: int, height: int, isFullScreen: bool)

  datatype ProcessData = ProcessData(name: string, path: string, processId: nat)

  /** The window record `x_win` returns. */
  datatype WindowInfo = WindowInfo(id: nat, os: string, title: string, position: Position, info: ProcessData)

  /** The flattened record the library hands to the host application. */
  datatype WindowDetails = WindowDetails(
    id: nat, title: string, position: (int, int, int, int), isFullScreen: bool,
    processName: string, processPath: string, processId: nat, os: string)

  /** Rebuilds the `x_win` record from the flattened one. */
  function WindowOf(d: WindowDetails): WindowInfo {
    WindowInfo(d.id, d.os, d.title,
               Position(d.position.0, d.position.1, d.position.2, d.position.3, d.isFullScreen),
               ProcessData(d.processName, d.processPath, d.processId))
  }

  /** `convert_window_info`: nothing of the window record is lost or altered. */
  function ConvertWindowInfo(w: WindowInfo): (d: WindowDetails)
    ensures WindowOf(d) == w
    ensures d.id == w.id
  {
    WindowDetails(w.id, w.title,
                  (w.position.x, w.position.y, w.position.width, w.position.height),
                  w.position.isFullScreen, w.info.name, w.info.path, w.info.processId, w.os)
  }

  /** Two windows convert to the same details only if they are the same window. */
  lemma ConvertInjective(a: WindowInfo, b: WindowInfo)
    ensures ConvertWindowInfo(a) == ConvertWindowInfo(b) <==> a == b
  {
    assert WindowOf(ConvertWindowInfo(a)) == a;
    assert WindowOf(ConvertWindowInfo(b)) == b;
  }

  const ActiveWindowError := "Error occurred while getting active window"
  const OpenWindowsError := "Error occurred while getting open windows"
  const ActiveIconError := "Error occurred while getting window icon"
  const OpenIconError := "Error getting window icon"
  const WindowNotFound := "Window not found"

  /** `get_active_window_info`. */
  function GetActiveWindowInfo(active: Option<WindowInfo>): (r: Result<WindowDetails>)
    ensures r.Ok? <==> active.Some?
    ensures r.Ok? ==> WindowOf(r.value) == active.value
    ensures r.Err? ==> r.error == Message(ActiveWindowError)
  {
    match active
    case Some(w) => Ok(ConvertWindowInfo(w))
    case None => Err(Message(ActiveWindowError))
  }

  function ConvertAll(windows: seq<WindowInfo>): (r: seq<WindowDetails>)
    ensures |r| == |windows|
    ensures forall i :: 0 <= i < |r| ==> WindowOf(r[i]) == windows[i]
  {
    if windows == [] then [] else [ConvertWindowInfo(windows[0])] + ConvertAll(windows[1..])
  }

  /** `get_open_windows_info`: every open window converted, in order. */
  function GetOpenWindowsInfo(open: Option<seq<WindowInfo>>): (r: Result<seq<WindowDetails>>)
    ensures r.Ok? <==> open.Some?
    ensures r.Ok? ==> (|r.value| == |open.value| &&
                       forall i :: 0 <= i < |r.value| ==> WindowOf(r.value[i]) == open.value[i])
    ensures r.Err? ==> r.error == Message(OpenWindowsError)
  {
    match open
    case Some(ws) => Ok(ConvertAll(ws))
    case None => Err(Message(OpenWindowsError))
  }

  /** The first window of `ws` with the given id, if any. */
  function FirstWithId(ws: seq<WindowInfo>, id: nat): (r: Option<nat>)
    ensures r.Some? ==> (r.value < |ws| && ws[r.value].id == id &&
                         forall j :: 0 <= j < r.value ==> ws[j].id != id)
    ensures r.None? ==> forall j :: 0 <= j < |ws| ==> ws[j].id != id
  {
    if ws == [] then None
    else if ws[0].id == id then Some(0)
    else match FirstWithId(ws[1..], id)
      case Some(k) => Some(k + 1)
      case None => None
  }

  /** What `get_window_icon_data` returns, given the active-window query, the
      open-windows query and the icon query (`icon`, `None` for an error). */
  function IconLookup(windowId: nat, active: Option<WindowInfo>, open: Option<seq<WindowInfo>>,
                      icon: WindowInfo -> Option<string>): Result<string>
  {
    match active
    case None => Err(Message(ActiveWindowError))
    case Some(a) =>
      if a.id == windowId then
        (match icon(a) case Some(data) => Ok(data) case None => Err(Message(ActiveIconError)))
      else match open
        case None => Err(Message(OpenWindowsError))
        case Some(ws) =>
          match FirstWithId(ws, windowId)
          case None => Err(Message(WindowNotFound))
          case Some(k) =>
            match icon(ws[k]) case Some(data) => Ok(data) case None => Err(Message(OpenIconError))
  }

  /** The lookup prefers the active window, then the first open window with
      the id, and reports "Window not found" exactly when neither has it. */
  lemma IconLookupCases(windowId: nat, active: Option<WindowInfo>, open: Option<seq<WindowInfo>>,
                        icon: WindowInfo -> Option<string>)
    ensures active.Some? && active.value.id == windowId && icon(active.value).Some? ==>
      IconLookup(windowId, active, open, icon) == Ok(icon(active.value).value)
    ensures forall k ::
      (active.Some? && active.value.id != windowId && open.Some? &&
       0 <= k < |open.value| && open.value[k].id == windowId &&
       (forall j :: 0 <= j < k ==> open.value[j].id != windowId)) ==>
        IconLookup(windowId, active, open, icon) ==
          (match icon(open.value[k]) case Some(data) => Ok(data) case None => Err(Message(OpenIconError)))
    ensures IconLookup(windowId, active, open, icon) == Err(Message(WindowNotFound)) <==>
      active.Some? && active.value.id != windowId && open.Some? &&
      forall j :: 0 <= j < |open.value| ==> open.value[j].id != windowId
  {
    if active.Some? && active.value.id != windowId && open.Some? {
      var f := FirstWithId(open.value, windowId);
      if f.Some? {
        forall k | 0 <= k < |open.value| && open.value[k].id == windowId &&
          (forall j :: 0 <= j < k ==> open.value[j].id != windowId)
          ensures k == f.value
        {
        }
      }
    }
  }

  /** `get_window_icon_data`, with its loop over the open windows. */
  method GetWindowIconData(windowId: nat, active: Option<WindowInfo>, open: Option<seq<WindowInfo>>,
                           icon: WindowInfo -> Option<string>) returns (r: Result<string>)
    ensures r == IconLookup(windowId, active, open, icon)
  {
    if active.None? {
      return Err(Message(ActiveWindowError));
    }
    var a := active.value;
    if a.id == windowId {
      match icon(a) {
        case Some(data) => return Ok(data);
        case None => return Err(Message(ActiveIconError));
      }
    }
    if open.None? {
      return Err(Message(OpenWindowsError));
    }
    var ws := open.value;
    var i := 0;
    while i < |ws|
      invariant 0 <= i <= |ws|
      invariant forall j :: 0 <= j < i ==> ws[j].id != windowId
    {
      if ws[i].id == windowId {
        assert FirstWithId(ws, windowId) == Some(i) by {
          FirstWithIdUnique(ws, windowId, i);
        }
        match icon(ws[i]) {
          case Some(data) => return Ok(data);
          case None => return Err(Message(OpenIconError));
        }
      }
      i := i + 1;
    }
    FirstWithIdNone(ws, windowId);
    return Err(Message(WindowNotFound));
  }

  lemma {:induction false} FirstWithIdUnique(ws: seq<WindowInfo>, id: nat, i: nat)
    requires i < |ws| && ws[i].id == id
    requires forall j :: 0 <= j < i ==> ws[j].id != id
    ensures FirstWithId(ws, id) == Some(i)
  {
    if i > 0 {
      FirstWithIdUnique(ws[1..], id, i - 1);
    }
  }

  lemma FirstWithIdNone(ws: seq<WindowInfo>, id: nat)
    requires forall j :: 0 <= j < |ws| ==> ws[j].id != id
    ensures FirstWithId(ws, id) == None
  {
  }

  /** One iteration of the poll loop: a successful query whose id differs
      from the last emitted id is emitted and becomes the last id; anything
      else emits nothing and keeps the last id. */
  function PollStep(lastId: nat, query: Option<WindowInfo>): (r: (Option<WindowDetails>, nat))
    ensures r.0.Some? <==> query.Some? && query.value.id != lastId
    ensures r.0.Some? ==> WindowOf(r.0.value) == query.value && r.1 == query.value.id
    ensures r.0.None? ==> r.1 == lastId
  {
    match query
    case None => (None, lastId)
    case Some(w) => if w.id != lastId then (Some(ConvertWindowInfo(w)), w.id) else (None, lastId)
  }

  /** Polling the same window twice in a row emits it at most once. */
  lemma PollStepIdempotent(lastId: nat, query: Option<WindowInfo>)
    ensures PollStep(PollStep(lastId, query).1, query).0 == None
  {
  }

  /** The windows a running poll loop emits for a run of queries. */
  function Emissions(lastId: nat, queries: seq<Option<WindowInfo>>): seq<WindowDetails>
    decreases |queries|
  {
    if queries == [] then []
    else
      var (e, next) := PollStep(lastId, queries[0]);
      (if e.Some? then [e.value] else []) + Emissions(next, queries[1..])
  }

  /** The id the loop remembers after a run of queries. */
  function LastId(lastId: nat, queries: seq<Option<WindowInfo>>): nat
    decreases |queries|
  {
    if queries == [] then lastId else LastId(PollStep(lastId, queries[0]).1, queries[1..])
  }

  /** The remembered id is the id of the last window emitted, or the
      starting id when nothing was emitted. */
  lemma {:induction false} LastIdIsLastEmitted(lastId: nat, queries: seq<Option<WindowInfo>>)
    ensures var es := Emissions(lastId, queries);
      (es == [] ==> LastId(lastId, queries) == lastId) &&
      (es != [] ==> LastId(lastId, queries) == es[|es| - 1].id)
    decreases |queries|
  {
    if queries != [] {
      var (e, next) := PollStep(lastId, queries[0]);
      LastIdIsLastEmitted(next, queries[1..]);
      var tail := Emissions(next, queries[1..]);
      var es := (if e.Some? then [e.value] else []) + tail;
      assert Emissions(lastId, queries) == es;
      if tail != [] {
        assert es[|es| - 1] == tail[|tail| - 1];
      }
    }
  }

  /** Polling query `i` extends the emissions and the remembered id of the
      queries before it by those of the queries from `i + 1` on. */
  lemma RunStep(lastId: nat, queries: seq<Option<WindowInfo>>, i: nat)
    requires i < |queries|
    ensures var (e, next) := PollStep(lastId, queries[i]);
      Emissions(lastId, queries[i..]) == (if e.Some? then [e.value] else []) + Emissions(next, queries[i + 1..]) &&
      LastId(lastId, queries[i..]) == LastId(next, queries[i + 1..])
  {
    assert queries[i..][0] == queries[i];
    assert queries[i..][1..] == queries[i + 1..];
  }

  /** The loop never emits the same window twice in a row, and the first
      emission differs from the starting id (0, so a window with id 0 is
      never the first thing reported). */
  lemma {:induction false} EmissionsChange(lastId: nat, queries: seq<Option<WindowInfo>>)
    ensures var es := Emissions(lastId, queries);
      (es != [] ==> es[0].id != lastId) &&
      forall i :: 0 <= i < |es| - 1 ==> es[i].id != es[i + 1].id
    decreases |queries|
  {
    if queries != [] {
      var (e, next) := PollStep(lastId, queries[0]);
      EmissionsChange(next, queries[1..]);
      var tail := Emissions(next, queries[1..]);
      if e.Some? {
        var es := [e.value] + tail;
        forall i | 0 <= i < |es| - 1 ensures es[i].id != es[i + 1].id {
          if i > 0 {
            assert es[i] == tail[i - 1] && es[i + 1] == tail[i];
          }
        }
      }
    }
  }

  /** The shared `Arc<Mutex<bool>>` a listener thread polls. */
  class RunningFlag {
    var running: bool

    constructor ()
      ensures running
    {
      running := true;
    }
  }

  /** `WINDOW_LISTENERS` together with `NEXT_LISTENER_ID`. */
  class Registry {
    var listeners: map<nat, RunningFlag>
    var nextId: nat

    /** Ids are drawn from a counter starting at 1, every registered id was
        drawn already, registered listeners are running, and no two ids share
        a flag. */
    ghost predicate Valid()
      reads this, listeners.Values
    {
      && nextId >= 1
      && (forall id :: id in listeners ==> 1 <= id < nextId)
      && (forall id :: id in listeners ==> listeners[id].running)
      && (forall a, b :: a in listeners && b in listeners && a != b ==> listeners[a] != listeners[b])
    }

    constructor ()
      ensures Valid()
      ensures listeners == map[] && nextId == 1
    {
      listeners := map[];
      nextId := 1;
    }

    /** `start_window_listener_stream`: a fresh running flag under the next id. */
    method Start() returns (id: nat, flag: RunningFlag)
      requires Valid()
      modifies this
      ensures Valid()
      ensures fresh(flag) && flag.running
      ensures id == old(nextId) && nextId == old(nextId) + 1
      ensures id !in old(listeners)
      ensures listeners == old(listeners)[id := flag]
    {
      flag := new RunningFlag();
      id := nextId;
      nextId := nextId + 1;
      listeners := listeners[id := flag];
    }

    /** `stop_window_listener`: true exactly when the id was registered; then
        the entry is removed and its flag cleared, otherwise nothing changes. */
    method Stop(id: nat) returns (stopped: bool)
      requires Valid()
      modifies this, if id in listeners then {listeners[id]} else {}
      ensures Valid()
      ensures stopped <==> id in old(listeners)
      ensures listeners == old(listeners) - {id}
      ensures nextId == old(nextId)
      ensures stopped ==> !old(listeners)[id].running
    {
      if id in listeners {
        var flag := listeners[id];
        listeners := listeners - {id};
        flag.running := false;
        stopped := true;
      } else {
        stopped := false;
      }
    }

    /** Two stops of the same registered id: the first succeeds and clears
        its flag, the second finds nothing. */
    method StopTwice(id: nat) returns (first: bool, second: bool)
      requires Valid() && id in listeners
      modifies this, listeners[id]
      ensures Valid()
      ensures first && !second && !old(listeners)[id].running
      ensures listeners == old(listeners) - {id} && nextId == old(nextId)
    {
      first := Stop(id);
      second := Stop(id);
    }
  }

  /** The state of one listener thread: its last emitted id and its flag. */
  class Poller {
    var lastWindowId: nat
    const flag: RunningFlag

    constructor (flag: RunningFlag)
      ensures lastWindowId == 0 && this.flag == flag
    {
      lastWindowId := 0;
      this.flag := flag;
    }

    /** Runs the loop of `start_window_listener_stream` over `queries` for
        as long as the flag is set. */
    method Run(queries: seq<Option<WindowInfo>>) returns (emitted: seq<WindowDetails>)
      modifies this
      ensures flag.running ==> emitted == Emissions(old(lastWindowId), queries)
      ensures flag.running ==> lastWindowId == LastId(old(lastWindowId), queries)
      ensures !flag.running ==> emitted == [] && lastWindowId == old(lastWindowId)
    {
      emitted := [];
      var i := 0;
      while i < |queries| && flag.running
        invariant 0 <= i <= |queries|
        invariant flag.running ==>
          emitted + Emissions(lastWindowId, queries[i..]) == Emissions(old(lastWindowId), queries)
        invariant flag.running ==> LastId(lastWindowId, queries[i..]) == LastId(old(lastWindowId), queries)
        invariant !flag.running ==> emitted == [] && lastWindowId == old(lastWindowId)
      {
        RunStep(lastWindowId, queries, i);
        var (e, next) := PollStep(lastWindowId, queries[i]);
        if e.Some? {
          assert (emitted + [e.value]) + Emissions(next, queries[i + 1..])
            == emitted + ([e.value] + Emissions(next, queries[i + 1..]));
          emitted := emitted + [e.value];
        } else {
          assert [] + Emissions(next, queries[i + 1..]) == Emissions(next, queries[i + 1..]);
        }
        lastWindowId := next;
        i := i + 1;
      }
      if flag.running {
        assert queries[i..] == [];
      }
    }
  }

  lemma AddThenRemove<K, V>(m: map<K, V>, k: K, v: V)
    requires k !in m
    ensures m[k := v] - {k} == m
  {
  }

  /** A listener emits while it runs; stopping it succeeds once, a second
      stop of the same id fails, and the stopped loop emits nothing more. */
  method StartPollStop(r: Registry, queries: seq<Option<WindowInfo>>)
    returns (id: nat, emitted: seq<WindowDetails>, firstStop: bool, secondStop: bool,
             afterStop: seq<WindowDetails>)
    requires r.Valid()
    modifies r
    ensures r.Valid()
    ensures id == old(r.nextId) && id !in r.listeners
    ensures r.listeners == old(r.listeners) && r.nextId == old(r.nextId) + 1
    ensures emitted == Emissions(0, queries)
    ensures firstStop && !secondStop && afterStop == []
  {
    ghost var before := r.listeners;
    var flag;
    id, flag := r.Start();
    var poller := new Poller(flag);
    emitted := poller.Run(queries);
    firstStop, secondStop := r.StopTwice(id);
    AddThenRemove(before, id, flag);
    afterStop := poller.Run(queries);
  }
}
