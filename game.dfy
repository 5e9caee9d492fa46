/**
 * The interpreter as a pure state machine: one command applied to a snapshot
 * of the session gives the next snapshot and the one message shown to the
 * player. MudController's methods are proved against these functions.
 */
module Game {
  import opened Wrappers
  import opened Rooms
  import opened Text
  import Commands

  /** What the interpreter reports; the localised wording is not modelled. */
  datatype Message =
    | RoomView(description: string, items: seq<string>)  // the description, then the items here
    | UnknownLocation                                    // the player stands in no room
    | WhereToMove                                        // `move` without a direction
    | Moved(direction: string, view: Message)            // the move, then a look at the new room
    | NoExit                                             // no exit in that direction
    | PickedUp(itemName: string)
    | NoSuchItem(itemName: string)
    | PickUsage                                          // `pick` not followed by `up `
    | InventoryList(items: seq<string>)
    | HelpText
    | Goodbye
    | UnknownCommand

  /** The session: the running flag, the arena of rooms, the player's room and inventory. */
  datatype State = State(running: bool, rooms: seq<Room>, current: Option<RoomId>, inventory: seq<string>)

  /** The player's room, when there is one, and every exit, lead to rooms of the arena. */
  ghost predicate WorldValid(rooms: seq<Room>, current: Option<RoomId>) {
    ExitsWithin(rooms) && (current.Some? ==> current.value < |rooms|)
  }

  ghost predicate Valid(s: State) {
    WorldValid(s.rooms, s.current)
  }

  /** The room the player stands in. */
  function Here(s: State): Room
    requires Valid(s) && s.current.Some?
  {
    s.rooms[s.current.value]
  }

  /** The handlers that dereference the player's room: a move with a direction, and a pick up. */
  predicate NeedsRoom(c: Commands.Command) {
    (c.Move? && c.direction != "") || c.PickUp?
  }

  /** The source fails on a null room in those handlers; the model does not go there. */
  predicate CanStep(s: State, input: string) {
    NeedsRoom(Commands.Parse(input)) ==> s.current.Some?
  }

  /** All items of the session: those lying in the rooms and those carried. */
  ghost function Stock(s: State): multiset<string> {
    ItemsIn(s.rooms) + multiset(s.inventory)
  }

  /** lookAround: a view of the player's room, or the unknown-location message when there is none. */
  function LookAround(s: State): (m: Message)
    requires Valid(s)
    ensures m.RoomView? <==> s.current.Some?
    ensures m.RoomView? ==> m.description == Here(s).description && m.items == Here(s).items
    ensures !m.RoomView? ==> m == UnknownLocation
  {
    match s.current
    case None => UnknownLocation
    case Some(id) => RoomView(s.rooms[id].description, s.rooms[id].items)
  }

  /** move: only the player's room may change. */
  function Move(s: State, direction: string): (r: (State, Message))
    requires Valid(s) && (direction != "" ==> s.current.Some?)
    ensures Valid(r.0)
    ensures r.0 == s.(current := r.0.current)
  {
    if direction == "" then (s, WhereToMove)
    else
      match ConnectedRoom(Here(s), direction)
      case None => (s, NoExit)
      case Some(next) =>
        var t := s.(current := Some(next));
        (t, Moved(direction, LookAround(t)))
  }

  /** pickUp: only the player's inventory and the items of the player's room may change. */
  function PickUp(s: State, itemName: string): (r: (State, Message))
    requires Valid(s) && s.current.Some?
    ensures Valid(r.0)
    ensures r.0.running == s.running && r.0.current == s.current && |r.0.rooms| == |s.rooms|
    ensures forall k :: 0 <= k < |s.rooms| && k != s.current.value ==> r.0.rooms[k] == s.rooms[k]
    ensures Here(r.0).description == Here(s).description && Here(r.0).exits == Here(s).exits
  {
    match GetItem(Here(s), itemName)
    case None => (s, NoSuchItem(itemName))
    case Some(item) =>
      var id := s.current.value;
      var t := s.(inventory := s.inventory + [item],
                  rooms := s.rooms[id := WithoutItem(s.rooms[id], item)]);
      assert ExitsWithin(t.rooms) by {
        forall k, d | 0 <= k < |t.rooms| && d in t.rooms[k].exits
          ensures t.rooms[k].exits[d] < |t.rooms|
        {
          assert t.rooms[k].exits == s.rooms[k].exits;
        }
      }
      (t, PickedUp(itemName))
  }

  /** handleInput: parse the line and run the handler its token selects. */
  function Step(s: State, input: string): (r: (State, Message))
    requires Valid(s) && CanStep(s, input)
    ensures Valid(r.0)
  {
    match Commands.Parse(input)
    case Look => (s, LookAround(s))
    case Move(direction) => Move(s, direction)
    case PickUp(itemName) => PickUp(s, itemName)
    case MalformedPick => (s, PickUsage)
    case Inventory => (s, InventoryList(s.inventory))
    case Help => (s, HelpText)
    case Quit => (s.(running := false), Goodbye)
    case Unknown(_) => (s, UnknownCommand)
  }

  /** Every line of `lines` that the session reads can be interpreted. */
  ghost predicate Runnable(s: State, lines: seq<string>)
    requires Valid(s)
    decreases |lines|
  {
    !s.running || lines == [] ||
    (CanStep(s, Normalise(lines[0])) && Runnable(Step(s, Normalise(lines[0])).0, lines[1..]))
  }

  /**
   * The game loop's control: while the session runs, the next line is
   * normalised and interpreted; once it has stopped, no further line is read.
   */
  function Session(s: State, lines: seq<string>): (r: (State, seq<Message>))
    requires Valid(s) && Runnable(s, lines)
    ensures Valid(r.0)
    ensures |r.1| <= |lines|
    decreases |lines|
  {
    if !s.running || lines == [] then (s, [])
    else
      var step := Step(s, Normalise(lines[0]));
      var rest := Session(step.0, lines[1..]);
      (rest.0, [step.1] + rest.1)
  }
}
