/** The mouse listener (`mouse_listener.rs`): the button classifier and one
    step of the polling loop. The pressed buttons arrive as the `Debug`
    strings `device_query` yields for them; the thread and the sleep are not
    modelled. */
module Mouse {
  import opened Text

  /** The friendly name and the two flags the classifier derives. */
  datatype ButtonData = ButtonData(name: string, isLeft: bool, isRight: bool)

  datatype MouseEvent = MouseEvent(button: string, isButtonPress: bool, coords: (int, int),
                                   isLeftClick: bool, isRightClick: bool)

  /** `mouse_button_to_event_data_from_str`. */
  function ClassifyButton(s: string): (r: ButtonData)
    ensures !(r.isLeft && r.isRight)
    ensures r.isLeft <==> Contains(ToLower(s), "left")
    ensures r.isRight <==> !Contains(ToLower(s), "left") && Contains(ToLower(s), "right")
    ensures r.name == (if Contains(ToLower(s), "left") then "left"
                       else if Contains(ToLower(s), "right") then "right"
                       else if Contains(ToLower(s), "middle") then "middle"
                       else ToLower(s))
  {
    var lower := ToLower(s);
    if Contains(lower, "left") then ButtonData("left", true, false)
    else if Contains(lower, "right") then ButtonData("right", false, true)
    else if Contains(lower, "middle") then ButtonData("middle", false, false)
    else ButtonData(lower, false, false)
  }

  /** The flags a release event recomputes from a button name. */
  function ReleaseFlags(name: string): (r: (bool, bool))
    ensures !(r.0 && r.1)
  {
    match name
    case "left" => (true, false)
    case "right" => (false, true)
    case "middle" => (false, false)
    case _ => (false, false)
  }

  /** A release recomputes exactly the flags the press carried: for every
      name the classifier produces, the release flags are the classifier's. */
  lemma ReleaseFlagsAgree(s: string)
    ensures ReleaseFlags(ClassifyButton(s).name) == (ClassifyButton(s).isLeft, ClassifyButton(s).isRight)
  {
    var lower := ToLower(s);
    ContainsSelf(lower);
  }

  /** The three friendly names are their own lowercase forms and contain
      none of the other names the classifier looks for before them. */
  lemma FriendlyNameFacts()
    ensures ToLower("left") == "left" && ToLower("right") == "right" && ToLower("middle") == "middle"
    ensures !Contains("right", "left")
    ensures !Contains("middle", "left") && !Contains("middle", "right")
  {
    ToLowerNoCapitals("left");
    ToLowerNoCapitals("right");
    ToLowerNoCapitals("middle");
    MissingCharNotContained("right", "left", 0);
    MissingCharNotContained("middle", "left", 2);
    MissingCharNotContained("middle", "right", 0);
  }

  /** Classifying a friendly name gives the same result again. */
  lemma ClassifyIdempotent(s: string)
    ensures ClassifyButton(ClassifyButton(s).name) == ClassifyButton(s)
  {
    var lower := ToLower(s);
    FriendlyNameFacts();
    if Contains(lower, "left") {
      ContainsSelf("left");
      assert ClassifyButton("left") == ButtonData("left", true, false);
    } else if Contains(lower, "right") {
      ContainsSelf("right");
      assert ClassifyButton("right") == ButtonData("right", false, true);
    } else if Contains(lower, "middle") {
      ContainsSelf("middle");
      assert ClassifyButton("middle") == ButtonData("middle", false, false);
    } else {
      ToLowerIdempotent(s);
      assert ClassifyButton(lower) == ButtonData(lower, false, false);
    }
  }

  /** The name set the loop keeps: the friendly names of the pressed buttons. */
  function ButtonNames(pressed: seq<string>): set<string> {
    set s | s in pressed :: ClassifyButton(s).name
  }

  /** The press event a button produces, if its name is new. */
  function PressOf(previous: set<string>, button: string, coords: (int, int)): seq<MouseEvent> {
    var b := ClassifyButton(button);
    if b.name in previous then [] else [MouseEvent(b.name, true, coords, b.isLeft, b.isRight)]
  }

  /** The press events of one poll: for each pressed button, in order, whose
      name was not pressed in the previous poll. */
  function PressEvents(previous: set<string>, pressed: seq<string>, coords: (int, int)): (r: seq<MouseEvent>)
    ensures |r| <= |pressed|
  {
    if pressed == [] then []
    else PressOf(previous, pressed[0], coords) + PressEvents(previous, pressed[1..], coords)
  }

  function EventButtons(events: seq<MouseEvent>): set<string> {
    set e | e in events :: e.button
  }

  /** The press events name exactly the new buttons, each with the
      classifier's flags and this poll's coordinates. */
  lemma {:induction false} PressEventsCharacterized(previous: set<string>, pressed: seq<string>, coords: (int, int))
    ensures forall e :: e in PressEvents(previous, pressed, coords) ==>
      e.isButtonPress && e.coords == coords && (e.isLeftClick, e.isRightClick) == ReleaseFlags(e.button)
    ensures EventButtons(PressEvents(previous, pressed, coords)) == ButtonNames(pressed) - previous
  {
    if pressed != [] {
      PressEventsCharacterized(previous, pressed[1..], coords);
      ReleaseFlagsAgree(pressed[0]);
      var head := PressOf(previous, pressed[0], coords);
      var tail := PressEvents(previous, pressed[1..], coords);
      assert ButtonNames(pressed) == {ClassifyButton(pressed[0]).name} + ButtonNames(pressed[1..]);
      assert EventButtons(head + tail) == EventButtons(head) + EventButtons(tail);
    }
  }

  /** The release events of one poll, in any order: one per name in `gone`,
      flags recomputed from the name, this poll's coordinates. */
  predicate IsReleaseBatch(gone: set<string>, coords: (int, int), events: seq<MouseEvent>) {
    && EventButtons(events) == gone
    && (forall i, j :: 0 <= i < j < |events| ==> events[i].button != events[j].button)
    && (forall e :: e in events ==>
          !e.isButtonPress && e.coords == coords && (e.isLeftClick, e.isRightClick) == ReleaseFlags(e.button))
  }

  method CurrentNames(pressed: seq<string>) returns (current: set<string>)
    ensures current == ButtonNames(pressed)
  {
    current := {};
    var i := 0;
    while i < |pressed|
      invariant 0 <= i <= |pressed|
      invariant current == ButtonNames(pressed[..i])
    {
      assert pressed[..i + 1] == pressed[..i] + [pressed[i]];
      current := current + {ClassifyButton(pressed[i]).name};
      i := i + 1;
    }
    assert pressed[..i] == pressed;
  }

  /** Pressing one more button appends its press event, if any. */
  lemma {:induction false} PressEventsSnoc(previous: set<string>, pressed: seq<string>, button: string,
                                           coords: (int, int))
    ensures PressEvents(previous, pressed + [button], coords)
      == PressEvents(previous, pressed, coords) + PressOf(previous, button, coords)
    decreases |pressed|
  {
    if pressed == [] {
      assert [] + [button] == [button];
      assert [button][1..] == [];
    } else {
      assert (pressed + [button])[1..] == pressed[1..] + [button];
      PressEventsSnoc(previous, pressed[1..], button, coords);
    }
  }

  /** The press loop: buttons in order, skipping names already pressed. */
  method EmitPresses(previous: set<string>, pressed: seq<string>, coords: (int, int))
    returns (presses: seq<MouseEvent>)
    ensures presses == PressEvents(previous, pressed, coords)
  {
    presses := [];
    var i := 0;
    while i < |pressed|
      invariant 0 <= i <= |pressed|
      invariant presses == PressEvents(previous, pressed[..i], coords)
    {
      var b := ClassifyButton(pressed[i]);
      assert pressed[..i + 1] == pressed[..i] + [pressed[i]];
      PressEventsSnoc(previous, pressed[..i], pressed[i], coords);
      if b.name !in previous {
        presses := presses + [MouseEvent(b.name, true, coords, b.isLeft, b.isRight)];
      }
      i := i + 1;
    }
    assert pressed[..i] == pressed;
  }

  /** The release loop over `previous.difference(&current)`, in whatever order
      the set yields its names. */
  method EmitReleases(gone: set<string>, coords: (int, int)) returns (releases: seq<MouseEvent>)
    ensures IsReleaseBatch(gone, coords, releases)
  {
    releases := [];
    var rest := gone;
    while rest != {}
      invariant rest <= gone
      invariant EventButtons(releases) == gone - rest
      invariant forall i, j :: 0 <= i < j < |releases| ==> releases[i].button != releases[j].button
      invariant forall e :: e in releases ==>
        !e.isButtonPress && e.coords == coords && (e.isLeftClick, e.isRightClick) == ReleaseFlags(e.button)
      decreases rest
    {
      var name :| name in rest;
      var flags := ReleaseFlags(name);
      var e := MouseEvent(name, false, coords, flags.0, flags.1);
      forall k | 0 <= k < |releases| ensures releases[k].button != name {
        assert releases[k] in releases;
      }
      assert EventButtons(releases + [e]) == EventButtons(releases) + {name};
      releases := releases + [e];
      rest := rest - {name};
    }
  }

  /** One pass of the loop body of `start_mouse_listener`: press events in
      button order, then release events for the names that disappeared; the
      new previous set is the current name set. */
  method MouseStep(previous: set<string>, pressed: seq<string>, coords: (int, int))
    returns (events: seq<MouseEvent>, current: set<string>)
    ensures current == ButtonNames(pressed)
    ensures |events| >= |PressEvents(previous, pressed, coords)|
    ensures events[..|PressEvents(previous, pressed, coords)|] == PressEvents(previous, pressed, coords)
    ensures IsReleaseBatch(previous - current, coords, events[|PressEvents(previous, pressed, coords)|..])
  {
    current := CurrentNames(pressed);
    var presses := EmitPresses(previous, pressed, coords);
    var releases := EmitReleases(previous - current, coords);
    events := presses + releases;
    assert events[..|presses|] == presses;
    assert events[|presses|..] == releases;
  }
}
