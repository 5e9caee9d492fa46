/**
 * The world the controller acts on, as an arena: rooms are addressed by their
 * position in a sequence, and an exit names the position of the room it leads to.
 */
module Rooms {
  import opened Wrappers
  import Seqs

  type RoomId = nat

  /** A room: its description, the names of the items lying in it, and its exits by direction. */
  datatype Room = Room(description: string, items: seq<string>, exits: map<string, RoomId>)

  /** Room.getConnectedRoom: the room an exit leads to, or None when there is no exit that way. */
  function ConnectedRoom(room: Room, direction: string): (r: Option<RoomId>)
    ensures r.Some? <==> direction in room.exits
    ensures r.Some? ==> r.value == room.exits[direction]
  {
    if direction in room.exits then Some(room.exits[direction]) else None
  }

  /** Room.getItem: the first item in the room with this exact name, or None. */
  function GetItem(room: Room, name: string): (r: Option<string>)
    ensures r.Some? <==> name in room.items
    ensures r.Some? ==> r.value == name
  {
    match Seqs.FirstIndex(room.items, name)
    case None => None
    case Some(i) => Some(room.items[i])
  }

  /** Room.removeItem: the room with the first item of that name taken away. */
  function WithoutItem(room: Room, name: string): (r: Room)
    ensures r.description == room.description && r.exits == room.exits
    ensures multiset(r.items) == multiset(room.items) - multiset{name}
  {
    Seqs.RemoveFirstCount(room.items, name);
    room.(items := Seqs.RemoveFirst(room.items, name))
  }

  /** Every exit of every room leads to a room of the arena. */
  ghost predicate ExitsWithin(rooms: seq<Room>) {
    forall k, d :: 0 <= k < |rooms| && d in rooms[k].exits ==> rooms[k].exits[d] < |rooms|
  }

  /** The items lying in all the rooms together. */
  ghost function ItemsIn(rooms: seq<Room>): multiset<string>
    decreases |rooms|
  {
    if rooms == [] then multiset{} else ItemsIn(rooms[..|rooms| - 1]) + multiset(rooms[|rooms| - 1].items)
  }

  /** Replacing the items of one room changes the arena's items by exactly that room's difference. */
  lemma {:induction false} ItemsInUpdate(rooms: seq<Room>, k: nat, room: Room)
    requires k < |rooms|
    ensures ItemsIn(rooms[k := room]) + multiset(rooms[k].items) == ItemsIn(rooms) + multiset(room.items)
    decreases |rooms|
  {
    var n := |rooms| - 1;
    var updated := rooms[k := room];
    assert ItemsIn(updated) == ItemsIn(updated[..n]) + multiset(updated[n].items);
    assert ItemsIn(rooms) == ItemsIn(rooms[..n]) + multiset(rooms[n].items);
    if k == n {
      assert updated[..n] == rooms[..n];
    } else {
      var prefix := rooms[..n];
      assert updated[..n] == prefix[k := room];
      assert prefix[k] == rooms[k];
      ItemsInUpdate(prefix, k, room);
      assert updated[n] == rooms[n];
      assert ItemsIn(updated) == ItemsIn(prefix[k := room]) + multiset(rooms[n].items);
      assert ItemsIn(updated) + multiset(rooms[k].items) == ItemsIn(prefix) + multiset(room.items) + multiset(rooms[n].items);
    }
  }

  /** Taking an item out of one room removes exactly that one item from the arena. */
  lemma ItemsInRemove(rooms: seq<Room>, k: nat, name: string)
    requires k < |rooms| && name in rooms[k].items
    ensures ItemsIn(rooms[k := WithoutItem(rooms[k], name)]) + multiset{name} == ItemsIn(rooms)
  {
    var emptied := WithoutItem(rooms[k], name);
    ItemsInUpdate(rooms, k, emptied);
    Seqs.RemoveFirstCount(rooms[k].items, name);
    var rest := ItemsIn(rooms[k := emptied]);
    assert rest + multiset{name} + multiset(emptied.items) == ItemsIn(rooms) + multiset(emptied.items);
    Cancel(rest + multiset{name}, ItemsIn(rooms), multiset(emptied.items));
  }

  /** Multiset union cancels. */
  lemma Cancel<T>(p: multiset<T>, q: multiset<T>, w: multiset<T>)
    requires p + w == q + w
    ensures p == q
  {
    forall e ensures p[e] == q[e] {
      assert (p + w)[e] == (q + w)[e];
    }
  }

  /** The mutable arena of rooms that the player's current room points into. */
  class World {
    var rooms: seq<Room>

    constructor (rooms: seq<Room>)
      ensures this.rooms == rooms
    {
      this.rooms := rooms;
    }

    /** Room.removeItem on the room at `id`; every other room is left alone. */
    method RemoveItem(id: RoomId, name: string)
      requires id < |rooms|
      modifies this
      ensures rooms == old(rooms)[id := WithoutItem(old(rooms)[id], name)]
    {
      rooms := rooms[id := WithoutItem(rooms[id], name)];
    }
  }
}
