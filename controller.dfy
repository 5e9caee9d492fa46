/**
 * MUDController: holds the player and the running flag and interprets one
 * normalised line at a time. Each handler is proved to do what the matching
 * function of Game says, so everything proved about Game holds of it.
 */
module Controller {
  import opened Rooms
  import opened Players
  import opened Text
  import Commands
  import Game

  class MudController {
    const player: Player
    const world: World
    var running: bool

    /** The session as Game sees it. */
    ghost function Snapshot(): Game.State
      reads this, player, world
    {
      Game.State(running, world.rooms, player.currentRoom, player.inventory)
    }

    ghost predicate Valid()
      reads this, player, world
    {
      Game.Valid(Snapshot())
    }

    /** The session starts active, with the given player in the given world. */
    constructor (player: Player, world: World)
      requires Game.WorldValid(world.rooms, player.currentRoom)
      ensures this.player == player && this.world == world
      ensures running
      ensures Valid()
    {
      this.player := player;
      this.world := world;
      running := true;
    }

    /** handleInput: split off the command token, dispatch on it exactly, report one message. */
    method HandleInput(input: string) returns (msg: Game.Message)
      requires Valid() && Game.CanStep(Snapshot(), input)
      modifies this, player, world
      ensures Valid()
      ensures (Snapshot(), msg) == Game.Step(old(Snapshot()), input)
    {
      var parts := Split(input);
      var command, argument := parts.0, parts.1;
      if command == "look" {
        assert Commands.Parse(input) == Commands.Look;
        msg := LookAround();
      } else if command == "move" {
        assert Commands.Parse(input) == Commands.Move(argument);
        msg := Move(argument);
      } else if command == "pick" {
        if "up " <= argument {
          assert Commands.Parse(input) == Commands.PickUp(argument[3..]);
          msg := PickUp(argument[3..]);
        } else {
          assert Commands.Parse(input) == Commands.MalformedPick;
          msg := Game.PickUsage;
        }
      } else if command == "inventory" {
        assert Commands.Parse(input) == Commands.Inventory;
        msg := CheckInventory();
      } else if command == "help" {
        assert Commands.Parse(input) == Commands.Help;
        msg := ShowHelp();
      } else if command == "quit" || command == "exit" {
        assert Commands.Parse(input) == Commands.Quit;
        msg := Game.Goodbye;
        running := false;
      } else {
        assert Commands.Parse(input) == Commands.Unknown(command);
        msg := Game.UnknownCommand;
      }
    }

    /** The loop body of the game loop: the line is trimmed and lower-cased first. */
    method HandleLine(line: string) returns (msg: Game.Message)
      requires Valid() && Game.CanStep(Snapshot(), Normalise(line))
      modifies this, player, world
      ensures Valid()
      ensures (Snapshot(), msg) == Game.Step(old(Snapshot()), Normalise(line))
    {
      msg := HandleInput(Normalise(line));
    }

    /** lookAround: the room's description and items, or the unknown-location message. */
    method LookAround() returns (msg: Game.Message)
      requires Valid()
      ensures msg == Game.LookAround(Snapshot())
    {
      var current := player.currentRoom;
      if current.Some? {
        var room := world.rooms[current.value];
        msg := Game.RoomView(room.description, room.items);
      } else {
        msg := Game.UnknownLocation;
      }
    }

    /** move: follow the exit for the direction, if the room has one. */
    method Move(direction: string) returns (msg: Game.Message)
      requires Valid() && (direction != "" ==> player.currentRoom.Some?)
      modifies player
      ensures Valid()
      ensures (Snapshot(), msg) == Game.Move(old(Snapshot()), direction)
    {
      if direction == "" {
        msg := Game.WhereToMove;
        return;
      }
      var nextRoom := ConnectedRoom(world.rooms[player.currentRoom.value], direction);
      if nextRoom.Some? {
        player.SetCurrentRoom(nextRoom.value);
        var view := LookAround();
        msg := Game.Moved(direction, view);
      } else {
        msg := Game.NoExit;
      }
    }

    /** pickUp: move the named item from the player's room to the inventory, if it is there. */
    method PickUp(itemName: string) returns (msg: Game.Message)
      requires Valid() && player.currentRoom.Some?
      modifies player, world
      ensures Valid()
      ensures (Snapshot(), msg) == Game.PickUp(old(Snapshot()), itemName)
    {
      var currentRoom := player.currentRoom.value;
      var item := GetItem(world.rooms[currentRoom], itemName);
      if item.Some? {
        player.AddItemToInventory(item.value);
        world.RemoveItem(currentRoom, item.value);
        msg := Game.PickedUp(itemName);
      } else {
        msg := Game.NoSuchItem(itemName);
      }
    }

    /** checkInventory: the items carried, in the order they were picked up. */
    method CheckInventory() returns (msg: Game.Message)
      ensures msg == Game.InventoryList(player.inventory)
    {
      msg := Game.InventoryList(player.inventory);
    }

    /** showHelp: the fixed list of commands. */
    method ShowHelp() returns (msg: Game.Message)
      ensures msg == Game.HelpText
    {
      msg := Game.HelpText;
    }
  }
}
