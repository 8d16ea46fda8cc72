# AdventureGPT rules engines in Dafny

This project models the two small text-adventure engines of AdventureGPT and the
command autocompletion of its terminal front end, and proves what they promise.

* **Single-player engine** (`src/adventuregpt/engine.py`): a fixed two-room map
  (`start`, `building`). Input is lower-cased and split on whitespace, and the
  first word is looked up in a verb table. Moves save the player record to a
  local store. `GameEngine` is a class whose `state` field the methods assign.
  Its store is an abstract `GameStorage` object with one optional player slot
  and a flag table. The pure functions `Interpret` and `Respond` say what a
  command means, and the class methods are proved to agree with them.
* **Networked engine** (`src/backend/game_engine.py`): the whole `GameState`
  lives under one key of a shared store, modelled as the field
  `stored: Option<GameState>`. Every mutator loads the state, checks its
  preconditions, changes the loaded copy, and saves only on success. Each
  operation's effect is a pure step function (`MoveStep`, `TakeStep`,
  `DropStep`, `ToggleLampStep`, `VisibleStep`). The class methods are proved
  to commit exactly that step. Lemmas prove the invariants over all inputs:
  - every item lies in exactly one place (`Total(gs, x) == 1`);
  - the player stands in a known room;
  - the visited-rooms list has no repeats and only grows;
  - a refused command writes nothing.
* **Autocompletion** (`CommandSuggester.get_suggestion` in
  `src/adventuregpt/tui.py`): the first command in list order that starts with
  the typed text, or nothing.

Exceptions the source raises (`ValueError` when nothing is stored, `KeyError`
on a missing room or item) are `Err` results, not preconditions.

Files: `wrappers.dfy` (Option, Result); `text.dfy` (`str.lower`, `str.split()`,
`str.join`); `adventure_models.dfy`, `adventure_storage.dfy`,
`adventure_engine.dfy`; `suggester.dfy`; `backend_models.dfy`,
`backend_world.dfy`, `backend_rules.dfy`, `backend_engine.dfy`.

Three facts about the code shape the model:
- The networked engine loads, modifies and saves without a version check,
  compare-and-swap or retry.
- The single-player grammar has no take, drop or lamp verbs.
- `reset_game` does not overwrite an existing world (see Findings).

## Model

| member | source | states |
|---|---|---|
| `Text.Lower` | src/adventuregpt/engine.py:37 | lower-casing keeps the length and maps each character on its own: 'A'..'Z' become 'a'..'z' and every other character stays; whitespace stays whitespace |
| `Text.LowerIdempotent` | src/adventuregpt/engine.py:37 | lower-casing twice is the same as once |
| `Text.Words` | src/adventuregpt/engine.py:37 | every piece `split()` returns is non-empty and contains no whitespace, and there are no more pieces than characters |
| `Text.WordEndConcat` | src/adventuregpt/engine.py:37 | a run of non-whitespace that ends inside a text, or at its end when the text that follows starts with whitespace, ends at the same place after appending |
| `Text.WordsConcat` | src/adventuregpt/engine.py:37 | when whitespace separates two texts, `split()` of their concatenation is the words of the first followed by the words of the second; with `WordsAfterWord` and `WordsEmptyIff` this makes the words exactly the maximal whitespace-free runs, in order |
| `Text.Join` | src/adventuregpt/engine.py:60 | joining no parts gives the empty string, one part gives that part, and more parts start with the first part followed by the separator |
| `Text.JoinAppend` | src/adventuregpt/engine.py:60 | joining one more part appends the separator and that part, so a join is the parts in order with the separator between neighbours |
| `Text.WordsEmptyIff` | src/adventuregpt/engine.py:37-39 | `split()` returns no words exactly when the text is empty or all whitespace |
| `Text.WordsOfJoin` | src/adventuregpt/engine.py:37 | splitting words joined by single spaces gives back the same words (round trip) |
| `AdventureModels.EmptyInventory` | src/adventuregpt/models.py:6-7 | a default inventory holds no items |
| `AdventureModels.DefaultPlayerState` | src/adventuregpt/models.py:10-12 | a default player is in "start" with an empty inventory |
| `AdventureModels.NewRoom` | src/adventuregpt/models.py:15-18 | a room needs a description and keeps the exits it is given, which default to none; its items list starts empty |
| `AdventureModels.RoomDefaults` | src/adventuregpt/models.py:15-18 | a room built from its description alone has no exits and no items |
| `AdventureModels.NewWorldState` | src/adventuregpt/models.py:21-23 | default world flags are the empty map |
| `AdventureStorage.GameStorage.Open` | src/adventuregpt/storage.py:20-22 | opening a store keeps what it already holds |
| `AdventureStorage.GameStorage.NewGame` | src/adventuregpt/storage.py:50-58 | a new game clears the flags and makes the given player the only saved one |
| `AdventureStorage.GameStorage.SavePlayerState` | src/adventuregpt/storage.py:60-66 | saving overwrites the player slot and leaves the flags alone |
| `AdventureStorage.GameStorage.LoadPlayerState` | src/adventuregpt/storage.py:68-78 | loading returns the saved player, or None if there is none |
| `AdventureStorage.GameStorage.SetWorldFlag` | src/adventuregpt/storage.py:80-86 | setting a flag inserts or replaces that one key only (part of the store's interface; the engine never sets a flag) |
| `AdventureStorage.GameStorage.GetWorldFlag` | src/adventuregpt/storage.py:88-95 | a flag's value is returned if it was set, otherwise None (part of the store's interface; the engine never reads a flag) |
| `AdventureEngine.StartingRooms` | src/adventuregpt/engine.py:12-21 | the table has exactly the rooms "start" and "building", with their two descriptions, no items, and the exits north and in from start to building and south and out from building to start |
| `AdventureEngine.Interpret` | src/adventuregpt/engine.py:38-62 | a blank line, quit/exit, look/l, "inventory" and moves are recognised exactly when the first word says so; a move takes its direction from the verb when it is a bare direction, else from the second word |
| `AdventureEngine.ParseCommand` | src/adventuregpt/engine.py:37-39 | a line parses as blank exactly when it is empty or all whitespace |
| `AdventureEngine.Describe` | src/adventuregpt/engine.py:77-81 | a known room's description, or "You are lost in the void." for an unknown room |
| `AdventureEngine.MoveResponse` | src/adventuregpt/engine.py:64-75 | the player is saved exactly when the current room is known and has the exit; then only the room changes, to the exit's target, and the reply describes it; otherwise nothing changes; the inventory is always kept |
| `AdventureEngine.InventoryReply` | src/adventuregpt/engine.py:57-60 | the reply is "You are not carrying anything." exactly when nothing is carried; otherwise it starts with "You are carrying: " |
| `AdventureEngine.Respond` | src/adventuregpt/engine.py:36-62 | blank: "Please say something."; quit/exit: "Goodbye!"; look: the room description; inventory: the inventory reply; anything else unknown: "I don't understand that command."; a move is `MoveResponse`; only a move can change the player, and only its room; any change is saved |
| `AdventureEngine.BlankInput` | src/adventuregpt/engine.py:37-39 | empty or all-whitespace input answers "Please say something." and leaves the player unchanged and unsaved |
| `AdventureEngine.IgnoresCase` | src/adventuregpt/engine.py:37 | parsing a lower-cased line gives the same command as parsing the original |
| `AdventureEngine.SplitTabIn` | src/adventuregpt/engine.py:37 | `split()` of "\tin  " is the single word "in" |
| `AdventureEngine.SplitGoTabIn` | src/adventuregpt/engine.py:37 | `split()` of "go\tin  " is "go" then "in": a tab separates words |
| `AdventureEngine.SplitSpacedGoIn` | src/adventuregpt/engine.py:37 | `split()` of "  go\tin  " is "go" then "in": leading and trailing whitespace yields no words |
| `AdventureEngine.ParseSpacedGo` | src/adventuregpt/engine.py:37-51 | "  Go\tIn  " with surrounding spaces, a tab and capitals is read as the move "go in" |
| `AdventureEngine.ParseUpperGo` | src/adventuregpt/engine.py:37-51 | "GO IN" in capitals is read as the move "go in" |
| `AdventureEngine.ParseUpperQuit` | src/adventuregpt/engine.py:37-44 | "QUIT" in capitals is read as "quit" |
| `AdventureEngine.ParseWords` | src/adventuregpt/engine.py:37-41 | a line of lower-case words one space apart is read as exactly those words |
| `AdventureEngine.ParseGoCommands` | src/adventuregpt/engine.py:49-51 | "go in" and "go west" are moves in the second word's direction |
| `AdventureEngine.ParseBareDirection` | src/adventuregpt/engine.py:54-55 | a direction typed alone, such as "south", is a move that way |
| `AdventureEngine.ParseLoneGo` | src/adventuregpt/engine.py:49-62 | "go" without a direction is not a move: it answers "I don't understand that command." and changes and saves nothing |
| `AdventureEngine.ParseExitAndLook` | src/adventuregpt/engine.py:43-47 | "exit" answers "Goodbye!" and "l" describes the current room; neither changes or saves the player |
| `AdventureEngine.ParseInventory` | src/adventuregpt/engine.py:57-60 | "inventory" asks for the inventory listing |
| `AdventureEngine.FailedMove` | src/adventuregpt/engine.py:64-75 | a move to a missing exit answers "You can't go that way."; from an unknown room it answers "Error: You are in limbo."; the player is unchanged and nothing is saved |
| `AdventureEngine.SuccessfulMove` | src/adventuregpt/engine.py:69-73 | a move along an exit puts the player on its target, keeps the inventory, saves, and describes the new room |
| `AdventureEngine.StartingRoomsClosed` | src/adventuregpt/engine.py:12-21 | in the fixed map every exit leads to a known room, and that room has an exit back |
| `AdventureEngine.StaysInWorld` | src/adventuregpt/engine.py:64-81 | from a known room, no command leaves the map, answers "lost in the void" or answers "in limbo" |
| `AdventureEngine.GoInThenSouth` | tests/test_engine.py:7-15 | a new player who types "go in" reaches the building and is saved there; "south" brings them back to start |
| `AdventureEngine.InventoryReplies` | src/adventuregpt/engine.py:57-60 | an empty inventory answers "You are not carrying anything."; otherwise "You are carrying: " and the items joined by ", " |
| `AdventureEngine.InventoryReplyAppend` | src/adventuregpt/engine.py:57-60 | carrying one more item adds ", " and its name to the end of the listing, for any non-empty inventory |
| `AdventureEngine.GameEngine.constructor` | src/adventuregpt/engine.py:8-21 | a new engine has the fixed room table and a default player, on the given store |
| `AdventureEngine.GameEngine.StartNewGame` | src/adventuregpt/engine.py:23-26 | resets the player to the default, stores it as a new game, and describes the start room |
| `AdventureEngine.GameEngine.ResumeGame` | src/adventuregpt/engine.py:28-34 | if a player is saved, takes it over unchanged and describes its room; otherwise behaves as a new game |
| `AdventureEngine.GameEngine.ProcessCommand` | src/adventuregpt/engine.py:36-62 | the reply, new player and store contents are those `Respond` gives for the parsed command; the store is written only on a move |
| `AdventureEngine.GameEngine.Move` | src/adventuregpt/engine.py:64-75 | follows the exit and saves, or answers the failure with no change and no save |
| `AdventureEngine.MovementScenario` | tests/test_engine.py:1-22 | new game: start room; "go in": building; "south": start; "go west": refused, still in start |
| `AdventureEngine.PersistenceScenario` | tests/test_engine.py:25-43 | a second engine on the same store resumes in the building; its inventory is empty |
| `Suggester.Commands` | src/adventuregpt/tui.py:63-76 | the front end offers twelve commands, none of them empty |
| `Suggester.FirstMatchIndex` | src/adventuregpt/tui.py:21-24 | the scan stops at the first command the input is a prefix of, or at the end of the list when there is none |
| `Suggester.FirstMatch` | src/adventuregpt/tui.py:21-24 | the result is a listed command with the input as a prefix, found at a position before which no command has it; None exactly when no command has the input as a prefix |
| `Suggester.FirstMatchAt` | src/adventuregpt/tui.py:21-23 | the command at k is suggested whenever it is the first one the input is a prefix of |
| `Suggester.CommandSuggester.constructor` | src/adventuregpt/tui.py:14-16 | the suggester keeps the given command list, which no method can change |
| `Suggester.CommandSuggester.GetSuggestion` | src/adventuregpt/tui.py:18-24 | empty input gives None; otherwise the first command in list order that starts with the input, or None |
| `Suggester.SuggestGo` | src/adventuregpt/tui.py:63-76 | with the front end's list, "go" completes to "go north" |
| `Suggester.SuggestInventory` | src/adventuregpt/tui.py:63-76 | with the front end's list, "i" completes to "inventory" |
| `Suggester.CaseSensitive` | src/adventuregpt/tui.py:21-23 | matching is case-sensitive: "l" skips "Look" and completes to a later "look", and completes to nothing when "Look" is the only command |
| `BackendModels.ParseDirection` | src/backend/models.py:7-13 | a string names a direction exactly when it is that direction's value |
| `BackendModels.DirectionRoundTrip` | src/backend/models.py:7-13 | every direction's value parses back to it; "in" and "out" are not directions |
| `BackendModels.NewItem` | src/backend/models.py:16-21 | items are portable, visible and takeable by default |
| `BackendModels.NewRoom` | src/backend/models.py:24-30 | rooms default to no exits, no items, visible |
| `BackendModels.NewPlayer` | src/backend/models.py:33-39 | a player needs a room; defaults: empty inventory, nowhere visited, score 0, lamp off, alive |
| `BackendModels.NewGameState` | src/backend/models.py:42-47 | a game state defaults to no rooms, no items, not started, not over |
| `BackendWorld.InitialRooms` | src/backend/game_engine.py:25-46 | exactly the rooms "entrance" and "main_cave", each stored under its own id and visible |
| `BackendWorld.InitialItems` | src/backend/game_engine.py:48-59 | exactly the item "lamp", stored under its own name |
| `BackendWorld.InitialState` | src/backend/game_engine.py:16-59 | the starting world: player at the entrance; the entrance holds the lamp, north goes to main_cave and south to forest; the cave's exits go south, east and west; the lamp is takeable and visible; started, not over |
| `BackendWorld.InitialStateWellFormed` | src/backend/game_engine.py:16-59 | in the starting world the lamp is in exactly one place and every invariant holds |
| `BackendWorld.WellFormed` | src/backend/game_engine.py:80-126 | the invariant the mutators keep: the player stands in a known room, every listed or carried item is a known item, each known item lies in exactly one place, and the visited rooms are known and not repeated |
| `BackendWorld.CarriedLiesNowhere` | src/backend/game_engine.py:99-126 | in a well-formed world a carried item lies in no room, and no item is carried twice |
| `BackendRules.RemoveFirst` | src/backend/game_engine.py:111 | removing an item present in a list takes out exactly one occurrence; an absent one leaves the list as it is |
| `BackendRules.RemoveFirstAt` | src/backend/game_engine.py:111 | the occurrence removed is the first one, and the items before and after it keep their order |
| `BackendRules.MoveStep` | src/backend/game_engine.py:80-97 | a move raises exactly for an unknown current room; a done move went along an exit of the current room, ends in a known room and answers "You move {direction} to {room name}." |
| `BackendRules.TakeStep` | src/backend/game_engine.py:99-114 | a take is done only when the room is known, the item lies here, is a known item and is takeable; the item is then appended to the inventory and the reply is "You take the {item}." |
| `BackendRules.DropStep` | src/backend/game_engine.py:116-126 | a drop is done exactly when the item is carried and the room is known; the item is then appended to the room's items and the reply is "You drop the {item}." |
| `BackendRules.ToggleLampStep` | src/backend/game_engine.py:138-147 | a toggle is done exactly when the lamp is carried; it then flips the lamp, changes nothing else and answers "You turn the lamp on." or "... off." by the new state; otherwise it answers "You don't have a lamp." |
| `BackendRules.VisibleItems` | src/backend/game_engine.py:153-157 | an error names a listed item that is not a known item; a result holds only listed, known, visible items |
| `BackendRules.VisibleStep` | src/backend/game_engine.py:149-157 | an unknown current room raises; a known room gives exactly the visible-items filter of that room's item list; a result holds only items lying in the current room that are known and visible |
| `BackendRules.VisibleItemsFails` | src/backend/game_engine.py:149-157 | listing visible items raises exactly when some item in the room is not a known item |
| `BackendRules.VisibleItemsFirstError` | src/backend/game_engine.py:153-157 | the error reported names the first listed item that is not a known item |
| `BackendRules.VisibleItemsFilter` | src/backend/game_engine.py:153-157 | when listing succeeds, each visible item occurs in the result as often as in the room's list, every other item not at all, and the result is no longer than the list |
| `BackendRules.VisibleItemsAppend` | src/backend/game_engine.py:153-157 | the listing of two runs of names one after the other is the first run's listing followed by the second's: the comprehension keeps the room's order |
| `BackendRules.MoveRefusals` | src/backend/game_engine.py:80-90 | a move raises only for an unknown current room; it is refused when there is no such exit ("You can't go … from here.") or its target is not a room ("That way is blocked.") |
| `BackendRules.MoveRecordsVisit` | src/backend/game_engine.py:92-97 | a move puts the player on the exit's target and records it in the visited list; the old list is a prefix of the new, at most one room is added, an already visited room leaves the list unchanged and a new one is appended at its end, no repeats are added, the reply is "You move {direction} to {room name}.", and the world is the old one with only the player's room and visited list replaced |
| `BackendRules.MovePreservesWellFormed` | src/backend/game_engine.py:80-97 | a successful move keeps a well-formed world well formed |
| `BackendRules.TakeRefusals` | src/backend/game_engine.py:99-109 | a take is refused with "There is no {item} here." when the item is not here and with "You can't take the {item}." when it is not takeable; it raises for an unknown room or item |
| `BackendRules.TakeMovesItem` | src/backend/game_engine.py:111-114 | a take removes the first occurrence from the current room and appends the item to the inventory, replying "You take the {item}."; nothing else in the world changes, and every item's total count is preserved |
| `BackendRules.DropRefusals` | src/backend/game_engine.py:116-121 | a drop is refused exactly when the item is not carried; a carried item raises only for an unknown room |
| `BackendRules.DropMovesItem` | src/backend/game_engine.py:123-126 | a drop removes the first occurrence from the inventory and appends the item to the current room, replying "You drop the {item}."; nothing else in the world changes, and every item's total count is preserved |
| `BackendRules.TakePreservesWellFormed` | src/backend/game_engine.py:99-114 | a successful take keeps a well-formed world well formed |
| `BackendRules.DropPreservesWellFormed` | src/backend/game_engine.py:116-126 | a successful drop keeps a well-formed world well formed |
| `BackendRules.TakeThenDrop` | src/backend/game_engine.py:99-126 | dropping what was just taken succeeds, and the room and inventory hold the same items as before (order aside) |
| `BackendRules.ToggleTwice` | src/backend/game_engine.py:138-147 | a toggle is refused exactly without the lamp; a toggle flips the lamp, and two toggles give back the original world |
| `BackendRules.InitialMoves` | src/backend/game_engine.py:80-97 | from the start: north reaches "Main Cave", south is blocked (forest is not a room), east has no exit |
| `BackendRules.InitialLampReturns` | src/backend/game_engine.py:99-126 | taking the lamp in the starting world and dropping it again gives back exactly the starting world, with the source's two messages |
| `BackendRules.InitialLamp` | src/backend/game_engine.py:99-147 | from the start the lamp can be taken, a second take is refused, and it toggles "on" then "off" |
| `BackendEngine.GameEngine.constructor` | src/backend/game_engine.py:9-11 | connecting fills an empty store with the starting world and keeps an existing one |
| `BackendEngine.GameEngine.InitializeGame` | src/backend/game_engine.py:13-23 | writes the starting world only when nothing is stored |
| `BackendEngine.GameEngine.ResetGame` | src/backend/game_engine.py:159-161 | as written: a stored world is left unchanged; only an empty store gets the starting world |
| `BackendEngine.GameEngine.RestartGame` | src/backend/api/game.py:96-100 | the intended reset: the stored world becomes the starting world |
| `BackendEngine.GameEngine.SaveGameState` | src/backend/game_engine.py:61-63 | saving replaces the stored world |
| `BackendEngine.GameEngine.LoadGameState` | src/backend/game_engine.py:65-70 | loading returns the stored world, or the "no game state" error when there is none |
| `BackendEngine.GameEngine.GetRoomDescription` | src/backend/game_engine.py:72-78 | any room's description, or "You can't see anything." for an unknown room |
| `BackendEngine.GameEngine.MovePlayer` | src/backend/game_engine.py:80-97 | returns the move's reply, stores the moved world only on success, and keeps the stored world well formed |
| `BackendEngine.GameEngine.TakeItem` | src/backend/game_engine.py:99-114 | returns the take's reply, stores the new world only on success, and keeps the stored world well formed |
| `BackendEngine.GameEngine.DropItem` | src/backend/game_engine.py:116-126 | returns the drop's reply, stores the new world only on success, and keeps the stored world well formed |
| `BackendEngine.GameEngine.GetInventory` | src/backend/game_engine.py:128-131 | the carried items, in order; changes nothing |
| `BackendEngine.GameEngine.GetCurrentRoom` | src/backend/game_engine.py:133-136 | the player's room, or the missing-room error; changes nothing |
| `BackendEngine.GameEngine.ToggleLamp` | src/backend/game_engine.py:138-147 | flips the lamp and saves when the lamp is carried; otherwise "You don't have a lamp." and no write |
| `BackendEngine.GameEngine.GetVisibleItems` | src/backend/game_engine.py:149-157 | exactly what `VisibleStep` gives for the stored world: the room's visible items in order, or the error that `VisibleItemsFirstError` shows names the first unknown item; changes nothing |
| `BackendEngine.LampRoundTrip` | src/backend/game_engine.py:99-147 | on a fresh store: take the lamp, toggle on, toggle off, drop; each call succeeds with the source's message and the stored world is again exactly the starting one |
| `BackendEngine.ResetKeepsProgress` | src/backend/game_engine.py:159-161 | after taking the lamp, a reset leaves it in the inventory, so the stored world is not the starting one |
| `BackendEngine.RestartRestoresWorld` | src/backend/api/game.py:96-100 | after taking the lamp, the corrected reset puts it back in the entrance with an empty inventory |

## Left out

- The SQLite and JSON layers of `src/adventuregpt/storage.py` are reduced to a
  store with one optional player slot and a flag table. The player slot keeps
  exactly the room and the item list, which is all a player has.
- The Redis client and JSON encoding of `src/backend/game_engine.py` are
  replaced by the `stored` field. Encoding and decoding are taken to round-trip
  exactly. A stored value that is not valid JSON is not modelled.
- `Text.Lower` (and so `AdventureEngine.ParseCommand`) lower-cases only the
  ASCII letters A-Z. Python's full Unicode case mapping is not modelled,
  including mappings that change a string's length.
- `AdventureEngine.ParseCommand` does not model the `strip()` before `split()`
  on its own. `split()` with no separator already ignores leading and trailing
  whitespace, so the words are the same.
- `BackendRules.MoveStep` renders a direction in its messages by its value
  ("north"). On Python 3.11 and later, an f-string of a `(str, Enum)` member
  gives "Direction.NORTH" instead.
- Concurrency: the HTTP handlers share one engine and do unsynchronised
  load-modify-save. Each engine call is modelled as atomic. Lost updates
  between concurrent requests are not modelled.
- The single-player `GameEngine` takes its store as a parameter. In the
  source it builds one from a database path, and two engines on the same path
  share it.
- `CommandSuggester.get_suggestion` is asynchronous in the source. The model
  treats it as a plain call.
- `score`, `is_alive`, `is_portable`, room `is_visible` and `game_over` are
  kept in the records, but no operation reads or changes them.
- HTTP routing and status codes, the terminal widgets and typewriter effect,
  the REPL and menus, configuration and data-directory removal are not part of
  this model.

## Findings

| source | as written | input that shows it | evidently intended | confidence | as-written member | corrected member |
|---|---|---|---|---|---|---|
| src/backend/game_engine.py:159-161 | `reset_game` only calls `_initialize_game`, which writes the starting world only when no state is stored | take the lamp, then POST /game/reset: the reply is "Game has been reset", but the lamp is still in the inventory | the stored world is replaced by the starting world, as the docstrings of `reset_game` and of the `/game/reset` handler say | high (not executed) | `BackendEngine.ResetKeepsProgress` | `BackendEngine.GameEngine.RestartGame` |
