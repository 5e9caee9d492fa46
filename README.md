# MUD command interpreter, modelled in Dafny

This project models the command interpreter of a small text-adventure game
(`MUDController`). The controller holds a player and a `running` flag. It takes
one line at a time, already trimmed and lower-cased. It splits the line at its
first space into a command token and an argument, dispatches on the exact
token, makes at most one change to the session and reports one message. The
commands are `look`, `move <direction>`, `pick up <item>`, `inventory`, `help`,
and `quit` / `exit`.

The world is an arena. Each room sits at a position of a sequence, and an exit
names the position of the room it leads to. A room has a description, the
names of the items lying in it, and a partial map from direction to room. The
player has an optional current room and an inventory, kept in the order the
items were picked up.

Layout:

- `wrappers.dfy` (`Wrappers`): `Option`, standing for a Java reference that may be null.
- `seqs.dfy` (`Seqs`): first-occurrence search and removal on sequences.
- `text.dfy` (`Text`): `String.trim`, `String.toLowerCase` and `String.split(" ", 2)`.
- `commands.dfy` (`Commands`): the command language, and `Parse`, the dispatch on the token.
- `rooms.dfy` (`Rooms`): rooms, the exit and item lookups the controller calls, and the
  mutable `World` arena.
- `players.dfy` (`Players`): the mutable `Player`.
- `game.dfy` (`Game`): the interpreter as a pure step function on a session snapshot
  (`Step`), and the game loop's control over a list of lines (`Session`).
- `properties.dfy` (`Properties`): what each command does and does not change, and the
  session-wide laws: items are conserved, and only a quit ends the session.
- `controller.dfy` (`Controller`): the `MudController` class. Its `running` field and its
  handlers are proved to do exactly what `Game` says.

The code splits at the first single space (U+0020), not at the first run of
whitespace. So `move  north` (two spaces) asks for the direction ` north`. The
model follows the code.

## Model

| member | source | states |
|---|---|---|
| `Controller.MudController.constructor` | MUDController.java:18-21 | the controller keeps the given player and starts with `running` true |
| `Controller.MudController.HandleInput` | MUDController.java:41-75 | the new session and the message are exactly `Game.Step` of the old session and the line; the world invariant is kept |
| `Controller.MudController.HandleLine` | MUDController.java:32-33 | one turn of the game loop: the line is trimmed and lower-cased, then interpreted as `Game.Step` says |
| `Controller.MudController.LookAround` | MUDController.java:80-88 | reports the current room's description and items, or the unknown-location message when there is no room; changes nothing |
| `Controller.MudController.Move` | MUDController.java:93-106 | changes only the player's room, as `Game.Move` says |
| `Controller.MudController.PickUp` | MUDController.java:111-121 | changes only the inventory and the room's items, as `Game.PickUp` says |
| `Controller.MudController.CheckInventory` | MUDController.java:126-129 | reports the inventory as carried, in order; changes nothing |
| `Controller.MudController.ShowHelp` | MUDController.java:134-142 | reports the fixed help text; changes nothing |
| `Text.Split` | MUDController.java:42-44 | the command has no space; with a space in the line, command + " " + argument is the line; with none, the argument is "" and the command is the whole line |
| `Text.SplitAt` | MUDController.java:42-44 | a token without a space, then a space, then any text, splits back into that token and that text |
| `Text.CommandIs` | MUDController.java:42-46 | the command token is `t` exactly when the line is `t`, or starts with `t` and a space |
| `Text.Trim` | MUDController.java:32 | the result is an infix of the line; every character cut off is at or below U+0020; the result's end characters are not |
| `Text.Lower` | MUDController.java:32 | same length; A to Z and А to Я become the letter 0x20 above, Ѐ to Џ the letter 0x50 above; every other character is kept, and no capital remains |
| `Text.Normalise` | MUDController.java:32 | the line handed to the interpreter has no trimmable end and no capital in A–Z or U+0400–U+042F |
| `Text.NormaliseIdempotent` | MUDController.java:32 | normalising an already normalised line changes nothing |
| `Commands.Parse` | MUDController.java:42-74 | an unknown command exactly when the token is none of the seven; a move carries the argument; a pick up carries the argument after `up `; a malformed pick has an argument not starting with `up `. Characterised per command by `Commands.ParseQuit`, `ParseReadOnly`, `ParseMove`, `ParsePickUp`, `ParseMalformedPick` and `ParseUnknown` |
| `Commands.ParseQuit` | MUDController.java:66-70 | a line is a quit exactly when it is `quit` or `exit`, alone or followed by a space and anything |
| `Commands.ParseReadOnly` | MUDController.java:47-65 | `look`, `inventory` and `help` are selected by their token alone, with any argument |
| `Commands.ParseMove` | MUDController.java:50-52 | a move to `d` is exactly the line `move d`, or a bare `move` when `d` is "" |
| `Commands.ParsePickUp` | MUDController.java:53-56 | a pick up of `x` is exactly the line `pick up x`: the item name is the argument without its first three characters |
| `Commands.ParseMalformedPick` | MUDController.java:53-58 | a `pick` whose argument does not start with `up ` is malformed, and only such a line is |
| `Commands.ParseUnknown` | MUDController.java:71-73 | an unknown command carries its token exactly as it was typed |
| `Rooms.ConnectedRoom` | MUDController.java:98 | finds a room exactly when the room has an exit that way, and it is that exit's room |
| `Rooms.GetItem` | MUDController.java:113 | finds an item exactly when one of that name lies in the room, and the item found has that name |
| `Rooms.WithoutItem` | MUDController.java:116 | one item of that name leaves the room; the description and exits stay |
| `Rooms.ItemsInUpdate` | MUDController.java:115-116 | replacing one room's items changes the items of the whole arena by exactly that room's difference |
| `Rooms.ItemsInRemove` | MUDController.java:116 | taking an item out of one room takes exactly that item out of the arena |
| `Rooms.World.RemoveItem` | MUDController.java:116 | only the room at that position changes, and it loses the item |
| `Players.Player.SetCurrentRoom` | MUDController.java:100 | the player is in the given room, and the inventory is unchanged |
| `Players.Player.AddItemToInventory` | MUDController.java:115 | the item goes at the end of the inventory, and the room is unchanged |
| `Game.Step` | MUDController.java:41-75 | keeps the world invariant. What each command does is proved in `Properties`: `QuitEndsSession`, `OnlyQuitStops`, `UnknownIsNoOp`, `MoveWithoutDirection`, `MoveFollowsExit`, `MalformedPickIsNoOp`, `PickUpPresent`, `PickUpAbsent`, `ReadOnlyCommands`, `LookFromNowhere` and `StepConservesStock` |
| `Game.LookAround` | MUDController.java:80-88 | a room view exactly when the player has a room, giving that room's description and items; otherwise the unknown-location message |
| `Game.Move` | MUDController.java:93-106 | a move keeps the world invariant and changes nothing but the player's room |
| `Game.PickUp` | MUDController.java:111-121 | a pick up keeps the world invariant, the running flag, the player's room, the other rooms, and this room's description and exits |
| `Game.Session` | MUDController.java:30-33 | a session keeps the world invariant and reports at most one message per line |
| `Properties.QuitEndsSession` | MUDController.java:66-70 | `quit` and `exit` set `running` false, change nothing else, and say goodbye |
| `Properties.OnlyQuitStops` | MUDController.java:66-70 | after any line the session runs exactly when it ran before and the line was not a quit |
| `Properties.UnknownIsNoOp` | MUDController.java:71-73 | an unrecognised token changes nothing and gets the unknown-command message |
| `Properties.MoveWithoutDirection` | MUDController.java:94-97 | `move` with an empty argument changes nothing and asks where to move, which is not the no-exit message |
| `Properties.MoveFollowsExit` | MUDController.java:98-105 | `move d` puts the player in exactly the room the exit leads to, and a look there shows that room; without the exit nothing changes and the no-exit message is given |
| `Properties.NormaliseCyrillic` | MUDController.java:32 | the line `MOVE ВПЕРЕД` reaches the interpreter as `move вперед` |
| `Properties.MoveInCyrillic` | MUDController.java:32-33 | the line `MOVE ВПЕРЕД`, normalised as the game loop does, moves the player through the exit keyed `вперед` (a direction from the help text at MUDController.java:137) |
| `Properties.MalformedPickIsNoOp` | MUDController.java:53-58 | a malformed `pick` changes nothing and gets the usage hint |
| `Properties.PickUpPresent` | MUDController.java:111-117 | `pick up x` with `x` in the room adds `x` to the end of the inventory and takes one `x` out of the room; nothing else changes |
| `Properties.PickUpAbsent` | MUDController.java:118-120 | `pick up x` with no `x` in the room changes nothing and reports that `x` is not here |
| `Properties.ReadOnlyCommands` | MUDController.java:80-142 | `look`, `inventory` and `help` change nothing; look reports the room, inventory the items carried |
| `Properties.LookFromNowhere` | MUDController.java:85-87 | a look with no current room gives the unknown-location message |
| `Properties.PickUpConservesStock` | MUDController.java:115-116 | a pick up moves an item between containers: the items of rooms and inventory together stay the same |
| `Properties.StepConservesStock` | MUDController.java:41-75 | no command creates or destroys an item |
| `Properties.SessionConservesStock` | MUDController.java:30-33 | over any number of lines, the items of rooms and inventory together stay the same |
| `Properties.SessionStopsAtQuit` | MUDController.java:30-33 | a quit line ends the session at once, and no later line is read |
| `Properties.StoppedSessionIsFinal` | MUDController.java:30 | a stopped session reads no line and does not change |
| `Properties.SessionEndsOnlyByQuit` | MUDController.java:30-33 | a session that ran and then stopped has a quit among its lines |

## Left out

- The terminal I/O of `runGameLoop` and `main`: the `Scanner`, the prompt, the welcome line and `System.out.println`. `Game.Session` and `HandleLine` take the lines as a parameter and return the messages.
- The Russian message texts. Each message is a constructor of `Game.Message`; rooms, items and the inventory are carried as data, not rendered as text.
- `Room.listItems` and `Player.listInventory`: their formatting is not part of this model. An empty inventory is the listing of `[]`, which differs from every non-empty one.
- The classes `Player`, `Room` and `Item` are not part of this model. They appear only through the operations the controller calls, with these assumed behaviours:
  - `getItem` returns the first item whose name equals the argument exactly.
  - `removeItem` removes that same item.
  - `getConnectedRoom` returns the exit's room or null.
  - An item is represented by its name.
- The world is passed to the controller's constructor next to the player. In the source, rooms are reached only through the player's room reference.
- A move with a direction, or a pick up, when the player has no room: the source fails with a null dereference here. The model requires a room in these cases (`Game.CanStep`).
- Text.Lower: models `String.toLowerCase` only for the capitals A–Z and U+0400–U+042F. These ranges hold every letter of the command words and of the directions in the help text (MUDController.java:137). The other Latin capitals (above U+007F), the other Cyrillic capitals (U+0460 to U+052F, such as Ґ, Қ, Ә and Ө), Greek and every other script are left as they are, and locale-specific rules are not modelled. Characters are Unicode scalar values, not UTF-16 code units.
- The end of the input stream is not modelled. `Scanner.nextLine` fails there; the model has no line to read.
- `Game.Step`: its own contract states only that the world invariant is kept. What each command does is stated by the lemmas in `Properties`.
