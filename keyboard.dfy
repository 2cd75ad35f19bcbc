/** The keyboard listener (`keyboard_listener.rs`): each poll's key set is
    compared with the previous poll's; new keys are reported as presses,
    vanished keys as releases. The keys arrive as the `Debug` strings of
    `device_query`'s key codes; the thread, the sink and the sleep are not
    modelled, and a run of the loop is a finite sequence of polls. */
module Keyboard {
  import opened Text

  datatype KeyboardEvent = KeyboardEvent(key: string, isKeyPress: bool)

  /** The lowercased key names of one poll, as a set. */
  function KeyNames(codes: seq<string>): (r: set<string>)
    ensures forall k :: k in r ==> ToLower(k) == k
  {
    forall c | c in codes ensures ToLower(ToLower(c)) == ToLower(c) {
      ToLowerIdempotent(c);
    }
    set c | c in codes :: ToLower(c)
  }

  predicate Distinct<T(==)>(s: seq<T>) {
    forall i, j :: 0 <= i < j < |s| ==> s[i] != s[j]
  }

  /** One loop over `a.difference(&b)`: one event per key of `keys`, all with
      the same direction, in whatever order the set yields them. */
  predicate IsBatch(keys: set<string>, press: bool, events: seq<KeyboardEvent>) {
    && (forall e :: e in events ==> e.key in keys && e.isKeyPress == press)
    && (forall k :: k in keys ==> KeyboardEvent(k, press) in events)
    && Distinct(events)
  }

  /** Emits one event per key, choosing the keys in an unspecified order. */
  method EmitAll(keys: set<string>, press: bool) returns (events: seq<KeyboardEvent>)
    ensures IsBatch(keys, press, events)
    ensures |events| == |keys|
  {
    events := [];
    var rest := keys;
    while rest != {}
      invariant rest <= keys
      invariant |events| + |rest| == |keys|
      invariant forall e :: e in events ==> e.key in keys - rest && e.isKeyPress == press
      invariant forall k :: k in keys - rest ==> KeyboardEvent(k, press) in events
      invariant Distinct(events)
      decreases rest
    {
      var key :| key in rest;
      events := events + [KeyboardEvent(key, press)];
      rest := rest - {key};
    }
  }

  /** One pass of the loop body of `start_keyboard_listener`: the presses of
      the keys that appeared, then the releases of the keys that vanished;
      the new previous set is this poll's key set. */
  method KeyboardStep(previous: set<string>, codes: seq<string>)
    returns (events: seq<KeyboardEvent>, current: set<string>)
    ensures current == KeyNames(codes)
    ensures |events| == |current - previous| + |previous - current|
    ensures IsBatch(current - previous, true, events[..|current - previous|])
    ensures IsBatch(previous - current, false, events[|current - previous|..])
  {
    current := KeyNames(codes);
    var presses := EmitAll(current - previous, true);
    var releases := EmitAll(previous - current, false);
    events := presses + releases;
    assert events[..|presses|] == presses;
    assert events[|presses|..] == releases;
  }

  /** In a sequence without repetitions every element occurs at most once. */
  lemma {:induction false} DistinctCount<T>(s: seq<T>, x: T)
    requires Distinct(s)
    ensures multiset(s)[x] == if x in s then 1 else 0
  {
    if s != [] {
      assert s == [s[0]] + s[1..];
      assert Distinct(s[1..]) by {
        forall i, j | 0 <= i < j < |s[1..]| ensures s[1..][i] != s[1..][j] {
          assert s[1..][i] == s[i + 1] && s[1..][j] == s[j + 1];
        }
      }
      DistinctCount(s[1..], x);
      if s[0] == x {
        assert x !in s[1..] by {
          forall k | 0 <= k < |s[1..]| ensures s[1..][k] != x {
            assert s[1..][k] == s[k + 1];
          }
        }
      }
    }
  }

  /** How many more presses than releases of `k` the events hold. */
  function Net(events: seq<KeyboardEvent>, k: string): int {
    multiset(events)[KeyboardEvent(k, true)] as int - multiset(events)[KeyboardEvent(k, false)] as int
  }

  /** The events of one step move each key's press-minus-release count from
      "down in the previous poll" to "down in this poll". */
  lemma StepBalance(previous: set<string>, current: set<string>, events: seq<KeyboardEvent>, n: nat, k: string)
    requires n <= |events|
    requires IsBatch(current - previous, true, events[..n])
    requires IsBatch(previous - current, false, events[n..])
    ensures Net(events, k) == (if k in current then 1 else 0) - (if k in previous then 1 else 0)
  {
    assert events == events[..n] + events[n..];
    DistinctCount(events[..n], KeyboardEvent(k, true));
    DistinctCount(events[..n], KeyboardEvent(k, false));
    DistinctCount(events[n..], KeyboardEvent(k, true));
    DistinctCount(events[n..], KeyboardEvent(k, false));
  }

  /** Every key of the set is lowercase. */
  ghost predicate LowercaseKeys(keys: set<string>) {
    forall k :: k in keys ==> ToLower(k) == k
  }

  /** Every reported key is lowercase. */
  ghost predicate LowercaseEvents(events: seq<KeyboardEvent>) {
    forall e :: e in events ==> ToLower(e.key) == e.key
  }

  /** Each key of `down` is pressed once more than released; every other
      key as often as released. */
  ghost predicate Balanced(events: seq<KeyboardEvent>, down: set<string>) {
    forall k :: Net(events, k) == if k in down then 1 else 0
  }

  /** Appending one step's events carries the balance from the previous
      key set to the current one and reports only lowercase keys. */
  lemma AppendStep(events: seq<KeyboardEvent>, previous: set<string>, current: set<string>,
                   batch: seq<KeyboardEvent>, n: nat)
    requires n <= |batch|
    requires IsBatch(current - previous, true, batch[..n])
    requires IsBatch(previous - current, false, batch[n..])
    requires LowercaseKeys(previous) && LowercaseKeys(current)
    requires LowercaseEvents(events)
    requires Balanced(events, previous)
    ensures LowercaseEvents(events + batch)
    ensures Balanced(events + batch, current)
  {
    assert multiset(events + batch) == multiset(events) + multiset(batch);
    forall k ensures Net(events + batch, k) == if k in current then 1 else 0 {
      StepBalance(previous, current, batch, n, k);
    }
    assert batch == batch[..n] + batch[n..];
    forall e | e in events + batch ensures ToLower(e.key) == e.key {
      if e !in events {
        assert e in batch[..n] || e in batch[n..];
      }
    }
  }

  /** The listener loop over a finite run of polls, starting from no keys.
      Afterwards the previous set is the last poll's key set, every reported
      key is lowercase, and each key has been pressed exactly once more than
      released if it is down, and as often as released otherwise. */
  method Listen(polls: seq<seq<string>>) returns (events: seq<KeyboardEvent>, previous: set<string>)
    ensures previous == if polls == [] then {} else KeyNames(polls[|polls| - 1])
    ensures forall e :: e in events ==> ToLower(e.key) == e.key
    ensures forall k :: Net(events, k) == if k in previous then 1 else 0
  {
    events := [];
    previous := {};
    var i := 0;
    while i < |polls|
      invariant 0 <= i <= |polls|
      invariant i == 0 ==> previous == {}
      invariant i > 0 ==> previous == KeyNames(polls[i - 1])
      invariant LowercaseKeys(previous) && LowercaseEvents(events) && Balanced(events, previous)
    {
      var batch, current := KeyboardStep(previous, polls[i]);
      AppendStep(events, previous, current, batch, |current - previous|);
      events := events + batch;
      previous := current;
      i := i + 1;
    }
  }
}
