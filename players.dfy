/** The player: the room they stand in, if any, and the items they carry, in the order picked up. */
module Players {
  import opened Wrappers
  import opened Rooms

  class Player {
    var currentRoom: Option<RoomId>
    var inventory: seq<string>

    constructor (start: Option<RoomId>)
      ensures currentRoom == start && inventory == []
    {
      currentRoom := start;
      inventory := [];
    }

    /** Player.setCurrentRoom. */
    method SetCurrentRoom(room: RoomId)
      modifies this
      ensures currentRoom == Some(room) && inventory == old(inventory)
    {
      currentRoom := Some(room);
    }

    /** Player.addItemToInventory: the item goes at the end of the inventory. */
    method AddItemToInventory(item: string)
      modifies this
      ensures inventory == old(inventory) + [item] && currentRoom == old(currentRoom)
    {
      inventory := inventory + [item];
    }
  }
}
