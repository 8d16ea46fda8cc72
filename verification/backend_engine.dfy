/**
 * The networked engine. The shared key-value store's "game_state" entry is the
 * field `stored`; every operation loads it, checks its preconditions, changes
 * the loaded copy, and writes it back only when it succeeds.
 */
module BackendEngine {
  import opened Wrappers
  import opened BackendModels
  import opened BackendWorld
  import opened BackendRules

  /** The `(success, message)` pair the mutators return. */
  datatype Reply = Reply(success: bool, message: string)

  function ReplyOf(o: Outcome): (r: Reply)
    ensures r.success <==> o.Done?
    ensures r.message == o.message
  {
    match o
    case Refused(m) => Reply(false, m)
    case Done(m, _) => Reply(true, m)
  }

  /**
   * What an operation that loaded `before` and ran `step` returns, and what is
   * stored afterwards: an error or a refusal writes nothing; success writes the next world.
   */
  ghost predicate Committed(before: Option<GameState>, step: Result<Outcome, Error>,
                            r: Result<Reply, Error>, after: Option<GameState>)
  {
    match step
    case Err(e) => r == Err(e) && after == before
    case Ok(o) => r == Ok(ReplyOf(o)) && after == (if o.Done? then Some(o.next) else before)
  }

  class GameEngine {
    /** The stored world, or None while the store is empty. */
    var stored: Option<GameState>

    /** The stored world, when there is one, is well formed. */
    ghost predicate Valid()
      reads this
    {
      stored.Some? ==> WellFormed(stored.value)
    }

    /** Connects to a store holding `existing` and fills it with the starting world if it is empty. */
    constructor (existing: Option<GameState>)
      ensures stored == if existing.None? then Some(InitialState()) else existing
      ensures existing.Some? && WellFormed(existing.value) ==> Valid()
      ensures existing.None? ==> Valid()
    {
      stored := existing;
      new;
      InitializeGame();
    }

    /** Writes the starting world only when nothing is stored yet. */
    method InitializeGame()
      modifies this
      ensures stored == if old(stored).None? then Some(InitialState()) else old(stored)
      ensures old(Valid()) ==> Valid()
    {
      if stored.None? {
        InitialStateWellFormed();
        SaveGameState(InitialState());
      }
    }

    /** Resets the game, which only fills an empty store: an existing world is kept as it is. */
    method ResetGame()
      modifies this
      ensures stored == if old(stored).None? then Some(InitialState()) else old(stored)
      ensures old(Valid()) ==> Valid()
    {
      InitializeGame();
    }

    /** Reset as evidently intended: the starting world replaces whatever is stored. */
    method RestartGame()
      modifies this
      ensures stored == Some(InitialState())
      ensures Valid()
    {
      InitialStateWellFormed();
      SaveGameState(InitialState());
    }

    method SaveGameState(state: GameState)
      modifies this
      ensures stored == Some(state)
    {
      stored := Some(state);
    }

    /** The stored world, or the error raised when there is none. */
    function LoadGameState(): (r: Result<GameState, Error>)
      reads this
      ensures r.Ok? <==> stored.Some?
      ensures r.Ok? ==> r.value == stored.value
      ensures r.Err? ==> r.error == NoGameState
    {
      if stored.Some? then Ok(stored.value) else Err(NoGameState)
    }

    /** The description of any room, or a fixed line for an unknown one. */
    method GetRoomDescription(roomId: string) returns (r: Result<string, Error>)
      ensures stored.None? ==> r == Err(NoGameState)
      ensures stored.Some? && roomId in stored.value.rooms ==> r == Ok(stored.value.rooms[roomId].description)
      ensures stored.Some? && roomId !in stored.value.rooms ==> r == Ok("You can't see anything.")
    {
      var loaded := LoadGameState();
      if loaded.Err? {
        return Err(loaded.error);
      }
      var state := loaded.value;
      if roomId !in state.rooms {
        return Ok("You can't see anything.");
      }
      return Ok(state.rooms[roomId].description);
    }

    /** `move_player`. */
    method MovePlayer(direction: Direction) returns (r: Result<Reply, Error>)
      modifies this
      ensures Committed(old(stored), if old(stored).Some? then MoveStep(old(stored).value, direction) else Err(NoGameState), r, stored)
      ensures old(Valid()) ==> Valid()
    {
      var loaded := LoadGameState();
      if loaded.Err? {
        return Err(loaded.error);
      }
      var state := loaded.value;
      ghost var before := state;
      var here := state.player.currentRoom;
      if here !in state.rooms {
        return Err(MissingRoom(here));
      }
      var currentRoom := state.rooms[here];
      if direction !in currentRoom.exits {
        return Ok(Reply(false, "You can't go " + DirectionValue(direction) + " from here."));
      }
      var newRoomId := currentRoom.exits[direction];
      if newRoomId !in state.rooms {
        return Ok(Reply(false, "That way is blocked."));
      }
      state := state.(player := state.player.(currentRoom := newRoomId));
      if newRoomId !in state.player.visitedRooms {
        state := state.(player := state.player.(visitedRooms := state.player.visitedRooms + [newRoomId]));
      }
      SaveGameState(state);
      if WellFormed(before) {
        MovePreservesWellFormed(before, direction);
      }
      return Ok(Reply(true, "You move " + DirectionValue(direction) + " to " + state.rooms[newRoomId].name + "."));
    }

    /** `take_item`. */
    method TakeItem(itemName: string) returns (r: Result<Reply, Error>)
      modifies this
      ensures Committed(old(stored), if old(stored).Some? then TakeStep(old(stored).value, itemName) else Err(NoGameState), r, stored)
      ensures old(Valid()) ==> Valid()
    {
      var loaded := LoadGameState();
      if loaded.Err? {
        return Err(loaded.error);
      }
      var state := loaded.value;
      ghost var before := state;
      var here := state.player.currentRoom;
      if here !in state.rooms {
        return Err(MissingRoom(here));
      }
      var currentRoom := state.rooms[here];
      if itemName !in currentRoom.items {
        return Ok(Reply(false, "There is no " + itemName + " here."));
      }
      if itemName !in state.items {
        return Err(MissingItem(itemName));
      }
      var item := state.items[itemName];
      if !item.isTakeable {
        return Ok(Reply(false, "You can't take the " + itemName + "."));
      }
      currentRoom := currentRoom.(items := RemoveFirst(currentRoom.items, itemName));
      state := state.(rooms := state.rooms[here := currentRoom]);
      state := state.(player := state.player.(inventory := state.player.inventory + [itemName]));
      SaveGameState(state);
      if WellFormed(before) {
        TakePreservesWellFormed(before, itemName);
      }
      return Ok(Reply(true, "You take the " + itemName + "."));
    }

    /** `drop_item`. */
    method DropItem(itemName: string) returns (r: Result<Reply, Error>)
      modifies this
      ensures Committed(old(stored), if old(stored).Some? then DropStep(old(stored).value, itemName) else Err(NoGameState), r, stored)
      ensures old(Valid()) ==> Valid()
    {
      var loaded := LoadGameState();
      if loaded.Err? {
        return Err(loaded.error);
      }
      var state := loaded.value;
      ghost var before := state;
      if itemName !in state.player.inventory {
        return Ok(Reply(false, "You don't have the " + itemName + "."));
      }
      state := state.(player := state.player.(inventory := RemoveFirst(state.player.inventory, itemName)));
      var here := state.player.currentRoom;
      if here !in state.rooms {
        return Err(MissingRoom(here));
      }
      var room := state.rooms[here];
      state := state.(rooms := state.rooms[here := room.(items := room.items + [itemName])]);
      SaveGameState(state);
      if WellFormed(before) {
        DropPreservesWellFormed(before, itemName);
      }
      return Ok(Reply(true, "You drop the " + itemName + "."));
    }

    /** `get_inventory`: the carried items, in order. */
    method GetInventory() returns (r: Result<seq<string>, Error>)
      ensures stored.None? ==> r == Err(NoGameState)
      ensures stored.Some? ==> r == Ok(stored.value.player.inventory)
    {
      var loaded := LoadGameState();
      if loaded.Err? {
        return Err(loaded.error);
      }
      return Ok(loaded.value.player.inventory);
    }

    /** `get_current_room`: the room the player stands in. */
    method GetCurrentRoom() returns (r: Result<Room, Error>)
      ensures stored.None? ==> r == Err(NoGameState)
      ensures stored.Some? ==>
        var gs := stored.value;
        r == if gs.player.currentRoom in gs.rooms then Ok(gs.rooms[gs.player.currentRoom])
             else Err(MissingRoom(gs.player.currentRoom))
    {
      var loaded := LoadGameState();
      if loaded.Err? {
        return Err(loaded.error);
      }
      var state := loaded.value;
      if state.player.currentRoom !in state.rooms {
        return Err(MissingRoom(state.player.currentRoom));
      }
      return Ok(state.rooms[state.player.currentRoom]);
    }

    /** `toggle_lamp`. */
    method ToggleLamp() returns (r: Result<Reply, Error>)
      modifies this
      ensures Committed(old(stored), if old(stored).Some? then Ok(ToggleLampStep(old(stored).value)) else Err(NoGameState), r, stored)
      ensures old(Valid()) ==> Valid()
    {
      var loaded := LoadGameState();
      if loaded.Err? {
        return Err(loaded.error);
      }
      var state := loaded.value;
      if "lamp" !in state.player.inventory {
        return Ok(Reply(false, "You don't have a lamp."));
      }
      state := state.(player := state.player.(isLampOn := !state.player.isLampOn));
      SaveGameState(state);
      var status := if state.player.isLampOn then "on" else "off";
      return Ok(Reply(true, "You turn the lamp " + status + "."));
    }

    /** `get_visible_items`: the current room's items whose visible flag is set, in order. */
    method GetVisibleItems() returns (r: Result<seq<string>, Error>)
      ensures stored.None? ==> r == Err(NoGameState)
      ensures stored.Some? ==> r == VisibleStep(stored.value)
    {
      var loaded := LoadGameState();
      if loaded.Err? {
        return Err(loaded.error);
      }
      var state := loaded.value;
      var here := state.player.currentRoom;
      if here !in state.rooms {
        return Err(MissingRoom(here));
      }
      var names := state.rooms[here].items;
      var visible := [];
      var i := 0;
      while i < |names|
        invariant 0 <= i <= |names|
        invariant VisibleItems(names[..i], state.items) == Ok(visible)
      {
        var name := names[i];
        assert names[..i + 1][..i] == names[..i];
        if name !in state.items {
          VisibleItemsErrPrefix(names, i + 1, state.items);
          return Err(MissingItem(name));
        }
        if state.items[name].isVisible {
          visible := visible + [name];
        }
        i := i + 1;
      }
      assert names[..i] == names;
      return Ok(visible);
    }
  }

  /** A fresh store, the lamp taken, toggled twice and dropped: each call succeeds and the world is as before. */
  method LampRoundTrip() returns (replies: seq<Result<Reply, Error>>, engine: GameEngine)
    ensures replies == [Ok(Reply(true, "You take the lamp.")), Ok(Reply(true, "You turn the lamp on.")),
                        Ok(Reply(true, "You turn the lamp off.")), Ok(Reply(true, "You drop the lamp."))]
    ensures engine.Valid()
    ensures engine.stored == Some(InitialState())
  {
    engine := new GameEngine(None);
    InitialLamp();
    InitialLampReturns();
    var take := engine.TakeItem("lamp");
    ghost var held := TakeStep(InitialState(), "lamp").value.next;
    assert engine.stored == Some(held);
    var on := engine.ToggleLamp();
    var off := engine.ToggleLamp();
    assert engine.stored == Some(held) by {
      ToggleTwice(held);
    }
    var drop := engine.DropItem("lamp");
    replies := [take, on, off, drop];
  }

  /** Resetting after taking the lamp keeps the lamp in the inventory: the stored world is not the starting one. */
  method ResetKeepsProgress() returns (engine: GameEngine)
    ensures engine.stored.Some? && engine.stored.value.player.inventory == ["lamp"]
    ensures engine.stored != Some(InitialState())
  {
    engine := new GameEngine(None);
    InitialLamp();
    var _ := engine.TakeItem("lamp");
    engine.ResetGame();
  }

  /** The corrected reset after taking the lamp gives back the starting world, lamp in the entrance. */
  method RestartRestoresWorld() returns (engine: GameEngine)
    ensures engine.stored == Some(InitialState())
    ensures engine.stored.value.player.inventory == [] && engine.stored.value.rooms["entrance"].items == ["lamp"]
  {
    engine := new GameEngine(None);
    var _ := engine.TakeItem("lamp");
    engine.RestartGame();
  }
}
