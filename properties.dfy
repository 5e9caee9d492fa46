/** What the interpreter promises, stated over the lines a player types. */
module Properties {
  import opened Wrappers
  import opened Rooms
  import opened Text
  import Seqs
  import Commands
  import opened Game

  /** `quit` and `exit` end the session and change nothing else. */
  lemma QuitEndsSession(s: State, input: string)
    requires Valid(s) && Commands.IsQuit(input)
    ensures CanStep(s, input)
    ensures Step(s, input) == (s.(running := false), Goodbye)
  {
    Commands.ParseQuit(input);
  }

  /** After any line the session runs exactly when it ran before and the line was not a quit. */
  lemma OnlyQuitStops(s: State, input: string)
    requires Valid(s) && CanStep(s, input)
    ensures Step(s, input).0.running <==> s.running && !Commands.IsQuit(input)
  {
    Commands.ParseQuit(input);
  }

  /** An unrecognised token is answered with the unknown-command message and changes nothing. */
  lemma UnknownIsNoOp(s: State, input: string)
    requires Valid(s) && Commands.Token(input) !in Commands.KNOWN_TOKENS
    ensures CanStep(s, input)
    ensures Step(s, input) == (s, UnknownCommand)
  {
    Commands.ParseUnknown(input);
  }

  /** A `move` without a direction asks where to, which is not the no-exit answer. */
  lemma MoveWithoutDirection(s: State, input: string)
    requires Valid(s) && (input == "move" || input == "move ")
    ensures CanStep(s, input)
    ensures Step(s, input) == (s, WhereToMove)
    ensures WhereToMove != NoExit
  {
    Commands.ParseMove(input, "");
  }

  /**
   * `move d` goes to exactly the room the exit for `d` leads to, and a look
   * there shows that room; without such an exit nothing changes.
   */
  lemma MoveFollowsExit(s: State, direction: string)
    requires Valid(s) && s.current.Some? && direction != ""
    ensures CanStep(s, "move " + direction)
    ensures direction in Here(s).exits ==>
      var next := Here(s).exits[direction];
      var t := s.(current := Some(next));
      Step(s, "move " + direction) == (t, Moved(direction, RoomView(s.rooms[next].description, s.rooms[next].items)))
      && Step(t, "look") == (t, RoomView(s.rooms[next].description, s.rooms[next].items))
    ensures direction !in Here(s).exits ==> Step(s, "move " + direction) == (s, NoExit)
  {
    Commands.ParseMove("move " + direction, direction);
    Commands.ParseReadOnly("look");
  }

  /** The directions of the help text are Cyrillic; a capitalised one is lower-cased before the move. */
  lemma MoveInCyrillic(s: State)
    requires Valid(s) && s.current.Some? && "\U{0432}\U{043F}\U{0435}\U{0440}\U{0435}\U{0434}" in Here(s).exits
    ensures CanStep(s, Normalise("MOVE \U{0412}\U{041F}\U{0415}\U{0420}\U{0415}\U{0414}"))
      && Step(s, Normalise("MOVE \U{0412}\U{041F}\U{0415}\U{0420}\U{0415}\U{0414}")).0.current == Some(Here(s).exits["\U{0432}\U{043F}\U{0435}\U{0440}\U{0435}\U{0434}"])
  {
    NormaliseCyrillic();
    MoveFollowsExit(s, "\U{0432}\U{043F}\U{0435}\U{0440}\U{0435}\U{0434}");
  }

  /** `MOVE ВПЕРЕД` is trimmed and lower-cased to `move вперед`. */
  lemma NormaliseCyrillic()
    ensures Normalise("MOVE \U{0412}\U{041F}\U{0415}\U{0420}\U{0415}\U{0414}") == "move " + "\U{0432}\U{043F}\U{0435}\U{0440}\U{0435}\U{0434}"
  {
    var line := "MOVE \U{0412}\U{041F}\U{0415}\U{0420}\U{0415}\U{0414}";
    var expected := "move " + "\U{0432}\U{043F}\U{0435}\U{0440}\U{0435}\U{0434}";
    TrimOfTrimmed(line);
    var low := Lower(line);
    forall k | 0 <= k < |line| ensures low[k] == expected[k] {
      assert low[k] == LowerChar(line[k]);
    }
  }

  /** A `pick` not followed by `up ` is answered with the usage hint and changes nothing. */
  lemma MalformedPickIsNoOp(s: State, input: string)
    requires Valid(s) && (input == "pick" || ("pick " <= input && !("up " <= input[5..])))
    ensures CanStep(s, input)
    ensures Step(s, input) == (s, PickUsage)
  {
    Commands.ParseMalformedPick(input);
  }

  /**
   * `pick up x` with an `x` in the room moves one `x` from the room to the end
   * of the inventory; nothing else changes.
   */
  lemma PickUpPresent(s: State, itemName: string)
    requires Valid(s) && s.current.Some? && itemName in Here(s).items
    ensures CanStep(s, "pick up " + itemName)
    ensures var (t, m) := Step(s, "pick up " + itemName);
      m == PickedUp(itemName)
      && t.inventory == s.inventory + [itemName]
      && multiset(Here(t).items) + multiset{itemName} == multiset(Here(s).items)
      && t.running == s.running && t.current == s.current && |t.rooms| == |s.rooms|
      && Here(t).description == Here(s).description && Here(t).exits == Here(s).exits
      && (forall k :: 0 <= k < |s.rooms| && k != s.current.value ==> t.rooms[k] == s.rooms[k])
  {
    Commands.ParsePickUp("pick up " + itemName, itemName);
    Seqs.RemoveFirstCount(Here(s).items, itemName);
  }

  /** `pick up x` with no `x` in the room says so and changes nothing. */
  lemma PickUpAbsent(s: State, itemName: string)
    requires Valid(s) && s.current.Some? && itemName !in Here(s).items
    ensures CanStep(s, "pick up " + itemName)
    ensures Step(s, "pick up " + itemName) == (s, NoSuchItem(itemName))
  {
    Commands.ParsePickUp("pick up " + itemName, itemName);
  }

  /** `look`, `inventory` and `help` change nothing; the first two report the state as it is. */
  lemma ReadOnlyCommands(s: State, input: string)
    requires Valid(s)
    ensures (input == "look" || "look " <= input) ==>
      CanStep(s, input) && Step(s, input) == (s, LookAround(s))
    ensures (input == "inventory" || "inventory " <= input) ==>
      CanStep(s, input) && Step(s, input) == (s, InventoryList(s.inventory))
    ensures (input == "help" || "help " <= input) ==>
      CanStep(s, input) && Step(s, input) == (s, HelpText)
  {
    Commands.ParseReadOnly(input);
  }

  /** A look from nowhere gives the unknown-location message rather than a description. */
  lemma LookFromNowhere(s: State)
    requires Valid(s) && s.current.None?
    ensures Step(s, "look") == (s, UnknownLocation)
  {
    Commands.ParseReadOnly("look");
  }

  /** A pick up moves the item from the room to the inventory: the stock stays as it was. */
  lemma PickUpConservesStock(s: State, itemName: string)
    requires Valid(s) && s.current.Some?
    ensures Stock(PickUp(s, itemName).0) == Stock(s)
  {
    var here := Here(s);
    if itemName in here.items {
      var id := s.current.value;
      var t := PickUp(s, itemName).0;
      var emptied := WithoutItem(here, itemName);
      assert t.rooms == s.rooms[id := emptied];
      assert t.inventory == s.inventory + [itemName];
      ItemsInRemove(s.rooms, id, itemName);
    }
  }

  /** No command creates or destroys an item: each stays in exactly one container. */
  lemma StepConservesStock(s: State, input: string)
    requires Valid(s) && CanStep(s, input)
    ensures Stock(Step(s, input).0) == Stock(s)
  {
    var c := Commands.Parse(input);
    if c.PickUp? {
      PickUpConservesStock(s, c.itemName);
    } else {
      assert Step(s, input).0.rooms == s.rooms && Step(s, input).0.inventory == s.inventory;
    }
  }

  /** Over a whole session the items are only moved around, never created or lost. */
  lemma {:induction false} SessionConservesStock(s: State, lines: seq<string>)
    requires Valid(s) && Runnable(s, lines)
    ensures Stock(Session(s, lines).0) == Stock(s)
    decreases |lines|
  {
    if s.running && lines != [] {
      var line := Normalise(lines[0]);
      StepConservesStock(s, line);
      SessionConservesStock(Step(s, line).0, lines[1..]);
    }
  }

  /** A quit ends the session at once: the lines after it are never read. */
  lemma SessionStopsAtQuit(s: State, lines: seq<string>)
    requires Valid(s) && s.running && lines != [] && Commands.IsQuit(Normalise(lines[0]))
    ensures Runnable(s, lines)
    ensures Session(s, lines) == (s.(running := false), [Goodbye])
  {
    var line := Normalise(lines[0]);
    QuitEndsSession(s, line);
    var t := Step(s, line).0;
    assert !t.running;
    assert Runnable(t, lines[1..]);
    assert Session(t, lines[1..]) == (t, []);
    assert [Goodbye] + [] == [Goodbye];
  }

  /** A session that has stopped reads no line and changes nothing. */
  lemma StoppedSessionIsFinal(s: State, lines: seq<string>)
    requires Valid(s) && !s.running
    ensures Runnable(s, lines) && Session(s, lines) == (s, [])
  {
  }

  /** A session that ran and then stopped was stopped by one of its lines being a quit. */
  lemma {:induction false} SessionEndsOnlyByQuit(s: State, lines: seq<string>)
    requires Valid(s) && Runnable(s, lines) && s.running
    ensures !Session(s, lines).0.running ==> exists k :: 0 <= k < |lines| && Commands.IsQuit(Normalise(lines[k]))
    decreases |lines|
  {
    if lines != [] {
      var line := Normalise(lines[0]);
      OnlyQuitStops(s, line);
      if !Commands.IsQuit(line) {
        SessionEndsOnlyByQuit(Step(s, line).0, lines[1..]);
        if !Session(s, lines).0.running {
          var k :| 0 <= k < |lines[1..]| && Commands.IsQuit(Normalise(lines[1..][k]));
          assert lines[k + 1] == lines[1..][k];
        }
      }
    }
  }
}
