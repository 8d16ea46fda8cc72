/**
 * The durable store behind the single-player engine, reduced to what it holds:
 * one optional player record (the `player` table has at most the row with id 1)
 * and the world-flag table. How it is kept on disk is not modelled.
 */
module AdventureStorage {
  import opened Wrappers
  import opened AdventureModels

  class GameStorage {
    /** The saved player, if a game was ever started or saved. */
    var player: Option<PlayerState>
    /** The world-flag table. */
    var world: WorldState

    /** Opening a store keeps whatever it already holds (tables are created only if missing). */
    constructor Open(player: Option<PlayerState>, world: WorldState)
      ensures this.player == player && this.world == world
    {
      this.player := player;
      this.world := world;
    }

    /** Clears both tables, then records `initial` as the one player. */
    method NewGame(initial: PlayerState)
      modifies this
      ensures player == Some(initial)
      ensures world == NewWorldState()
    {
      world := NewWorldState();
      player := Some(initial);
    }

    /** Inserts or replaces the player row; the flags are untouched. */
    method SavePlayerState(state: PlayerState)
      modifies this`player
      ensures player == Some(state)
    {
      player := Some(state);
    }

    /** The saved player, or None when the table is empty. */
    method LoadPlayerState() returns (state: Option<PlayerState>)
      ensures state == player
    {
      state := player;
    }

    /** Inserts or replaces one flag; the player row is untouched. */
    method SetWorldFlag(key: string, value: string)
      modifies this`world
      ensures world.flags == old(world.flags)[key := value]
    {
      world := WorldState(world.flags[key := value]);
    }

    /** The flag's value, or None when it was never set. */
    method GetWorldFlag(key: string) returns (value: Option<string>)
      ensures key in world.flags ==> value == Some(world.flags[key])
      ensures key !in world.flags ==> value == None
    {
      if key in world.flags {
        value := Some(world.flags[key]);
      } else {
        value := None;
      }
    }
  }
}
