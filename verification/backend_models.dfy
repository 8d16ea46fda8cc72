/** Records of the networked engine, with the defaults each field takes when omitted. */
module BackendModels {
  import opened Wrappers

  /** The six compass and vertical directions; there is no "in" or "out" here. */
  datatype Direction = North | South | East | West | Up | Down

  /** The string value of each direction. */
  function DirectionValue(d: Direction): string {
    match d
    case North => "north"
    case South => "south"
    case East => "east"
    case West => "west"
    case Up => "up"
    case Down => "down"
  }

  /** `Direction(s)`: the direction whose value is `s`, or None where the source raises ValueError. */
  function ParseDirection(s: string): (d: Option<Direction>)
    ensures d.Some? ==> DirectionValue(d.value) == s
    ensures forall e :: DirectionValue(e) == s ==> d == Some(e)
  {
    if s == "north" then Some(North)
    else if s == "south" then Some(South)
    else if s == "east" then Some(East)
    else if s == "west" then Some(West)
    else if s == "up" then Some(Up)
    else if s == "down" then Some(Down)
    else None
  }

  /** Every direction is named by its value and by nothing else; "in" and "out" name none. */
  lemma DirectionRoundTrip(d: Direction)
    ensures ParseDirection(DirectionValue(d)) == Some(d)
    ensures ParseDirection("in") == None && ParseDirection("out") == None
  {
  }

  datatype Item = Item(name: string, description: string, isPortable: bool, isVisible: bool, isTakeable: bool)

  /** `Item(name=…, description=…)`: portable, visible and takeable unless said otherwise. */
  function NewItem(name: string, description: string): (it: Item)
    ensures it.name == name && it.description == description
    ensures it.isPortable && it.isVisible && it.isTakeable
  {
    Item(name, description, true, true, true)
  }

  datatype Room = Room(
    id: string,
    name: string,
    description: string,
    exits: map<Direction, string>,
    items: seq<string>,
    isVisible: bool)

  /** `Room(id=…, name=…, description=…)`: no exits, no items, visible. */
  function NewRoom(id: string, name: string, description: string): (r: Room)
    ensures r.id == id && r.name == name && r.description == description
    ensures r.exits == map[] && r.items == [] && r.isVisible
  {
    Room(id, name, description, map[], [], true)
  }

  datatype PlayerState = PlayerState(
    currentRoom: string,
    inventory: seq<string>,
    visitedRooms: seq<string>,
    score: int,
    isLampOn: bool,
    isAlive: bool)

  /** `PlayerState(current_room=…)`: nothing carried, nowhere visited, score 0, lamp off, alive. */
  function NewPlayer(currentRoom: string): (p: PlayerState)
    ensures p.currentRoom == currentRoom
    ensures p.inventory == [] && p.visitedRooms == []
    ensures p.score == 0 && !p.isLampOn && p.isAlive
  {
    PlayerState(currentRoom, [], [], 0, false, true)
  }

  datatype GameState = GameState(
    player: PlayerState,
    rooms: map<string, Room>,
    items: map<string, Item>,
    gameStarted: bool,
    gameOver: bool)

  /** `GameState(player=…)`: no rooms, no items, not started, not over. */
  function NewGameState(player: PlayerState): (gs: GameState)
    ensures gs.player == player
    ensures gs.rooms == map[] && gs.items == map[]
    ensures !gs.gameStarted && !gs.gameOver
  {
    GameState(player, map[], map[], false, false)
  }
}
