/** Records of the single-player engine, with the defaults each field takes when omitted. */
module AdventureModels {

  /** The items the player carries, in the order they were picked up. */
  datatype Inventory = Inventory(items: seq<string>)

  datatype PlayerState = PlayerState(currentRoom: string, inventory: Inventory)

  /** A room: its description, its exits by direction word, and the items lying in it. */
  datatype Room = Room(description: string, exits: map<string, string>, items: seq<string>)

  /** Free-form key/value flags about the world. */
  datatype WorldState = WorldState(flags: map<string, string>)

  /** `Inventory()`: nothing carried. */
  function EmptyInventory(): (inv: Inventory)
    ensures inv.items == []
  {
    Inventory([])
  }

  /** `PlayerState()`: a new player stands in "start" with nothing. */
  function DefaultPlayerState(): (p: PlayerState)
    ensures p.currentRoom == "start"
    ensures p.inventory.items == []
  {
    PlayerState("start", EmptyInventory())
  }

  /** `Room(description=…)`: the description is required; the exits and the items start empty unless given. */
  function NewRoom(description: string, exits: map<string, string> := map[]): (r: Room)
    ensures r.description == description && r.exits == exits
    ensures r.items == []
  {
    Room(description, exits, [])
  }

  /** `WorldState()`: no flags set. */
  function NewWorldState(): (w: WorldState)
    ensures w.flags == map[]
  {
    WorldState(map[])
  }

  /** A room built from its description alone has no exits and no items. */
  lemma RoomDefaults(description: string)
    ensures NewRoom(description) == Room(description, map[], [])
  {
  }
}
