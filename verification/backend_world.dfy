/**
 * The networked engine's starting world, and what it means for a world to be
 * well formed: the player stands in a known room, every item lies in exactly
 * one place, and the record of visited rooms has no repeats.
 */
module BackendWorld {
  import opened BackendModels

  /** The two rooms the world starts with; "forest", "east_passage" and "west_passage" are exit targets only. */
  function InitialRooms(): (rooms: map<string, Room>)
    ensures rooms.Keys == {"entrance", "main_cave"}
    ensures forall id :: id in rooms ==> rooms[id].id == id && rooms[id].isVisible
  {
    map[
      "entrance" := NewRoom(
        "entrance",
        "Outside Cave Entrance",
        "You are standing at the entrance of a cave. The entrance is large and dark."
      ).(exits := map[North := "main_cave", South := "forest"], items := ["lamp"]),
      "main_cave" := NewRoom(
        "main_cave",
        "Main Cave",
        "You are in a large cave. The walls are damp and the air is cool."
      ).(exits := map[South := "entrance", East := "east_passage", West := "west_passage"])
    ]
  }

  /** The one item the world starts with. */
  function InitialItems(): (items: map<string, Item>)
    ensures items.Keys == {"lamp"}
    ensures forall name :: name in items ==> items[name].name == name
  {
    map["lamp" := NewItem("lamp", "A brass lamp that provides light in dark places.")]
  }

  /** The world a fresh store is filled with. */
  function InitialState(): (gs: GameState)
    ensures gs.player == NewPlayer("entrance")
    ensures gs.rooms.Keys == {"entrance", "main_cave"}
    ensures gs.rooms["entrance"].items == ["lamp"]
    ensures gs.rooms["entrance"].exits == map[North := "main_cave", South := "forest"]
    ensures gs.rooms["main_cave"].items == []
    ensures gs.rooms["main_cave"].exits == map[South := "entrance", East := "east_passage", West := "west_passage"]
    ensures gs.items.Keys == {"lamp"} && gs.items["lamp"].isTakeable && gs.items["lamp"].isVisible
    ensures gs.gameStarted && !gs.gameOver
  {
    NewGameState(NewPlayer("entrance")).(rooms := InitialRooms(), items := InitialItems(), gameStarted := true)
  }

  /** How many times `x` occurs in the items of all the rooms together. */
  ghost function RoomsCount(rooms: map<string, Room>, x: string): nat
    decreases |rooms|
  {
    if rooms == map[] then 0
    else
      var k :| k in rooms;
      multiset(rooms[k].items)[x] + RoomsCount(rooms - {k}, x)
  }

  /** How many times `x` occurs across all room item lists plus the inventory. */
  ghost function Total(gs: GameState, x: string): nat {
    RoomsCount(gs.rooms, x) + multiset(gs.player.inventory)[x]
  }

  predicate NoDuplicates(s: seq<string>) {
    forall i, j :: 0 <= i < j < |s| ==> s[i] != s[j]
  }

  /** The invariants the engine's operations keep. */
  ghost predicate WellFormed(gs: GameState) {
    && gs.player.currentRoom in gs.rooms
    && (forall id, x :: id in gs.rooms && x in gs.rooms[id].items ==> x in gs.items)
    && (forall x :: x in gs.player.inventory ==> x in gs.items)
    && (forall x :: x in gs.items ==> Total(gs, x) == 1)
    && NoDuplicates(gs.player.visitedRooms)
    && (forall id :: id in gs.player.visitedRooms ==> id in gs.rooms)
  }

  /** The count over all rooms splits into any one room plus the others. */
  lemma {:induction false} RoomsCountRemove(rooms: map<string, Room>, k: string, x: string)
    requires k in rooms
    ensures RoomsCount(rooms, x) == multiset(rooms[k].items)[x] + RoomsCount(rooms - {k}, x)
    decreases |rooms|
  {
    var j :| j in rooms && RoomsCount(rooms, x) == multiset(rooms[j].items)[x] + RoomsCount(rooms - {j}, x);
    if j != k {
      assert rooms - {j} - {k} == rooms - {k} - {j};
      RoomsCountRemove(rooms - {j}, k, x);
      RoomsCountRemove(rooms - {k}, j, x);
    }
  }

  /** Replacing one room changes the count over all rooms by that room's difference only. */
  lemma RoomsCountUpdate(rooms: map<string, Room>, k: string, r: Room, x: string)
    requires k in rooms
    ensures RoomsCount(rooms[k := r], x) == RoomsCount(rooms, x) - multiset(rooms[k].items)[x] + multiset(r.items)[x]
  {
    RoomsCountRemove(rooms, k, x);
    RoomsCountRemove(rooms[k := r], k, x);
    assert rooms[k := r] - {k} == rooms - {k};
  }

  /** In the starting world the lamp is in exactly one place, and every other invariant holds. */
  lemma InitialStateWellFormed()
    ensures WellFormed(InitialState())
  {
    var gs := InitialState();
    var rooms := gs.rooms;
    forall x | x in gs.items ensures Total(gs, x) == 1 {
      RoomsCountRemove(rooms, "entrance", x);
      var rest := rooms - {"entrance"};
      assert "main_cave" in rest;
      RoomsCountRemove(rest, "main_cave", x);
      assert rest - {"main_cave"} == map[];
    }
  }

  /** In a well-formed world a carried item lies in no room, and nothing is carried twice. */
  lemma CarriedLiesNowhere(gs: GameState)
    requires WellFormed(gs)
    ensures forall id, x :: id in gs.rooms && x in gs.player.inventory ==> x !in gs.rooms[id].items
    ensures forall x :: multiset(gs.player.inventory)[x] <= 1
  {
    forall id, x | id in gs.rooms && x in gs.player.inventory
      ensures x !in gs.rooms[id].items
    {
      if x in gs.rooms[id].items {
        RoomsCountRemove(gs.rooms, id, x);
        assert false;
      }
    }
    forall x ensures multiset(gs.player.inventory)[x] <= 1 {
      if x in gs.player.inventory {
        assert Total(gs, x) == 1;
      }
    }
  }
}
