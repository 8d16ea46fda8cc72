/**
 * The single-player engine: a fixed two-room map, a small verb grammar, and a
 * player record saved to the store after every move.
 *
 * `Interpret` and `Respond` say, as pure functions, what one command means;
 * the `GameEngine` class carries out the same steps on its fields and store,
 * and its methods are proved to agree with them.
 */
module AdventureEngine {
  import opened Wrappers
  import opened Text
  import opened AdventureModels
  import opened AdventureStorage

  const StartDescription := "You are standing at the end of a road before a small brick building."
  const BuildingDescription := "You are inside a building, a well house for a large spring."

  /** The room table every engine is built with. */
  function StartingRooms(): (rooms: map<string, Room>)
    ensures rooms.Keys == {"start", "building"}
    ensures rooms["start"].description == StartDescription
    ensures rooms["building"].description == BuildingDescription
    ensures rooms["start"].exits == map["north" := "building", "in" := "building"]
    ensures rooms["building"].exits == map["south" := "start", "out" := "start"]
    ensures forall id :: id in rooms ==> rooms[id].items == []
  {
    map[
      "start" := NewRoom(StartDescription, map["north" := "building", "in" := "building"]),
      "building" := NewRoom(BuildingDescription, map["south" := "start", "out" := "start"])
    ]
  }

  const QuitVerbs: seq<string> := ["quit", "exit"]
  const LookVerbs: seq<string> := ["look", "l"]
  const MoveVerbs: seq<string> := ["go", "move", "walk"]
  /** Words that are a move on their own. */
  const Directions: seq<string> := ["north", "south", "east", "west", "up", "down", "in", "out"]

  /** What a line of input asks for, once its words are known. */
  datatype Command =
    | Blank
    | Quit
    | Look
    | Go(direction: string)
    | ShowInventory
    | NotUnderstood

  /** The verb table, tried in the source's order; the first word is the verb. */
  function Interpret(parts: seq<string>): (c: Command)
    ensures c == Blank <==> parts == []
    ensures c == Quit <==> parts != [] && parts[0] in QuitVerbs
    ensures c == Look <==> parts != [] && parts[0] in LookVerbs
    ensures c.Go? <==> parts != [] && ((parts[0] in MoveVerbs && |parts| > 1) || parts[0] in Directions)
    ensures c.Go? ==> c.direction == if parts[0] in Directions then parts[0] else parts[1]
    ensures c == ShowInventory <==> parts != [] && parts[0] == "inventory"
  {
    if parts == [] then Blank
    else
      var verb := parts[0];
      if verb in QuitVerbs then Quit
      else if verb in LookVerbs then Look
      else if verb in MoveVerbs && |parts| > 1 then Go(parts[1])
      else if verb in Directions then Go(verb)
      else if verb == "inventory" then ShowInventory
      else NotUnderstood
  }

  /** `command.lower().strip().split()`, then the verb table. */
  function ParseCommand(command: string): (c: Command)
    ensures c == Blank <==> forall i :: 0 <= i < |command| ==> IsSpace(command[i])
  {
    var low := Lower(command);
    WordsEmptyIff(low);
    assert forall i :: 0 <= i < |command| ==> (IsSpace(low[i]) <==> IsSpace(command[i]));
    Interpret(Words(low))
  }

  /** `_get_room_description`: the room's description, or a fixed line for an unknown room. */
  function Describe(rooms: map<string, Room>, roomId: string): (d: string)
    ensures roomId in rooms ==> d == rooms[roomId].description
    ensures roomId !in rooms ==> d == "You are lost in the void."
  {
    if roomId in rooms then rooms[roomId].description else "You are lost in the void."
  }

  /** The reply to a command, the player afterwards, and whether the player was saved. */
  datatype Response = Response(reply: string, next: PlayerState, saved: bool)

  /** `_move`: follow the exit named `direction` out of the current room. */
  function MoveResponse(rooms: map<string, Room>, st: PlayerState, direction: string): (r: Response)
    ensures r.saved <==> st.currentRoom in rooms && direction in rooms[st.currentRoom].exits
    ensures r.saved ==>
      && r.next == st.(currentRoom := rooms[st.currentRoom].exits[direction])
      && r.reply == Describe(rooms, r.next.currentRoom)
    ensures !r.saved ==> r.next == st
  {
    if st.currentRoom !in rooms then Response("Error: You are in limbo.", st, false)
    else
      var exits := rooms[st.currentRoom].exits;
      if direction in exits then
        var moved := st.(currentRoom := exits[direction]);
        Response(Describe(rooms, moved.currentRoom), moved, true)
      else Response("You can't go that way.", st, false)
  }

  /** The reply to "inventory". */
  function InventoryReply(inv: Inventory): (reply: string)
    ensures reply == "You are not carrying anything." <==> inv.items == []
    ensures inv.items != [] ==> "You are carrying: " <= reply
  {
    if inv.items == [] then "You are not carrying anything."
    else
      var listing := "You are carrying: " + Join(inv.items, ", ");
      assert listing[8] != "You are not carrying anything."[8];
      listing
  }

  /** `process_command` as a function of the rooms, the player and the parsed command. */
  function Respond(rooms: map<string, Room>, st: PlayerState, c: Command): (r: Response)
    ensures !c.Go? ==> r.next == st && !r.saved
    ensures r.saved ==> c.Go? && r.next == st.(currentRoom := r.next.currentRoom)
    ensures r.next != st ==> r.saved
    ensures c == Blank ==> r.reply == "Please say something."
    ensures c == Quit ==> r.reply == "Goodbye!"
    ensures c == Look ==> r.reply == Describe(rooms, st.currentRoom)
    ensures c.Go? ==> r == MoveResponse(rooms, st, c.direction)
    ensures c == ShowInventory ==> r.reply == InventoryReply(st.inventory)
    ensures c == NotUnderstood ==> r.reply == "I don't understand that command."
  {
    match c
    case Blank => Response("Please say something.", st, false)
    case Quit => Response("Goodbye!", st, false)
    case Look => Response(Describe(rooms, st.currentRoom), st, false)
    case Go(d) => MoveResponse(rooms, st, d)
    case ShowInventory => Response(InventoryReply(st.inventory), st, false)
    case NotUnderstood => Response("I don't understand that command.", st, false)
  }

  /** Input that is empty or all whitespace asks the player to say something, and changes and saves nothing. */
  lemma BlankInput(rooms: map<string, Room>, st: PlayerState, command: string)
    requires forall i :: 0 <= i < |command| ==> IsSpace(command[i])
    ensures Respond(rooms, st, ParseCommand(command)) == Response("Please say something.", st, false)
  {
  }

  /** Upper and lower case mean the same: parsing an already lower-cased line changes nothing. */
  lemma IgnoresCase(command: string)
    ensures ParseCommand(Lower(command)) == ParseCommand(command)
  {
    LowerIdempotent(command);
  }

  /** A line made of the given words, one space apart and all in lower case. */
  lemma {:induction false} ParseWords(ws: seq<string>)
    requires forall k :: 0 <= k < |ws| ==> IsWord(ws[k])
    requires forall k, i :: 0 <= k < |ws| && 0 <= i < |ws[k]| ==> !IsUpper(ws[k][i])
    ensures ParseCommand(Join(ws, " ")) == Interpret(ws)
  {
    var line := Join(ws, " ");
    JoinLowerCase(ws, " ");
    assert Lower(line) == line;
    WordsOfJoin(ws);
  }

  /** Joining lower-case words with a lower-case separator gives a lower-case line. */
  lemma {:induction false} JoinLowerCase(ws: seq<string>, sep: string)
    requires forall k, i :: 0 <= k < |ws| && 0 <= i < |ws[k]| ==> !IsUpper(ws[k][i])
    requires forall i :: 0 <= i < |sep| ==> !IsUpper(sep[i])
    ensures forall i :: 0 <= i < |Join(ws, sep)| ==> !IsUpper(Join(ws, sep)[i])
    decreases |ws|
  {
    if |ws| > 1 {
      JoinLowerCase(ws[1..], sep);
      var rest := Join(ws[1..], sep);
      forall i | 0 <= i < |ws[0] + sep + rest| ensures !IsUpper((ws[0] + sep + rest)[i]) {
        if i < |ws[0]| {
          assert (ws[0] + sep + rest)[i] == ws[0][i];
        } else if i < |ws[0]| + |sep| {
          assert (ws[0] + sep + rest)[i] == sep[i - |ws[0]|];
        } else {
          assert (ws[0] + sep + rest)[i] == rest[i - |ws[0]| - |sep|];
        }
      }
    }
  }

  /** A one-word line of lower-case letters is read as that word alone. */
  lemma ParseOneWord(w: string)
    requires IsWord(w)
    requires forall i :: 0 <= i < |w| ==> !IsUpper(w[i])
    ensures ParseCommand(w) == Interpret([w])
  {
    ParseWords([w]);
  }

  /** A two-word line of lower-case letters is read as those two words. */
  lemma ParseTwoWords(a: string, b: string)
    requires IsWord(a) && IsWord(b)
    requires forall i :: 0 <= i < |a| ==> !IsUpper(a[i])
    requires forall i :: 0 <= i < |b| ==> !IsUpper(b[i])
    ensures ParseCommand(a + " " + b) == Interpret([a, b])
  {
    ParseWords([a, b]);
    assert [a, b][1..] == [b];
  }

  /** "go in" and "go west" are moves with the second word as the direction. */
  lemma ParseGoCommands()
    ensures ParseCommand("go in") == Go("in")
    ensures ParseCommand("go west") == Go("west")
  {
    ParseTwoWords("go", "in");
    assert "go" + " " + "in" == "go in";
    ParseTwoWords("go", "west");
    assert "go" + " " + "west" == "go west";
  }

  /** A bare direction is a move. */
  lemma ParseBareDirection()
    ensures ParseCommand("south") == Go("south")
  {
    ParseOneWord("south");
  }

  /** A lone "go" has no direction and is not understood; nothing changes and nothing is saved. */
  lemma ParseLoneGo(rooms: map<string, Room>, st: PlayerState)
    ensures ParseCommand("go") == NotUnderstood
    ensures Respond(rooms, st, ParseCommand("go")) == Response("I don't understand that command.", st, false)
  {
    ParseOneWord("go");
  }

  /** "exit" says goodbye and "l" describes the current room; neither changes or saves the player. */
  lemma ParseExitAndLook(rooms: map<string, Room>, st: PlayerState)
    ensures Respond(rooms, st, ParseCommand("exit")) == Response("Goodbye!", st, false)
    ensures Respond(rooms, st, ParseCommand("l")) == Response(Describe(rooms, st.currentRoom), st, false)
  {
    ParseOneWord("exit");
    ParseOneWord("l");
  }

  /** "inventory" asks for the inventory. */
  lemma ParseInventory()
    ensures ParseCommand("inventory") == ShowInventory
  {
    ParseOneWord("inventory");
  }

  /** Capital letters are read as their lower-case forms: "GO IN" is the move "go in". */
  lemma ParseUpperGo()
    ensures ParseCommand("GO IN") == Go("in")
  {
    var up := "GO IN";
    assert LowerChar('G') == 'g' && LowerChar('O') == 'o' && LowerChar('I') == 'i' && LowerChar('N') == 'n';
    assert Lower(up) == "go in";
    IgnoresCase(up);
    ParseGoCommands();
  }

  /** `split()` on "\tin  " finds the one word "in". */
  lemma SplitTabIn()
    ensures Words("\tin  ") == ["in"]
  {
    var gap, tab := "  ", "\t";
    WordsEmptyIff(gap);
    assert Words(gap) == [] by { assert IsSpace(gap[0]) && IsSpace(gap[1]); }
    WordsEmptyIff(tab);
    assert Words(tab) == [] by { assert IsSpace(tab[0]); }
    assert IsWord("in");
    WordsAfterWord("in", gap);
    assert "in" + gap == "in  ";
    assert Words("in  ") == ["in"];
    WordsConcat(tab, "in  ");
    assert tab + "in  " == "\tin  ";
  }

  /** `split()` on "go\tin  " finds "go" and "in". */
  lemma SplitGoTabIn()
    ensures Words("go\tin  ") == ["go", "in"]
  {
    var tail := "\tin  ";
    SplitTabIn();
    assert IsWord("go") && IsSpace(tail[0]);
    WordsAfterWord("go", tail);
    assert "go" + tail == "go\tin  ";
  }

  /** `split()` on "  go\tin  " finds "go" and "in". */
  lemma SplitSpacedGoIn()
    ensures Words("  go\tin  ") == ["go", "in"]
  {
    var gap, rest := "  ", "go\tin  ";
    assert gap + rest == "  go\tin  ";
    assert Words(gap) == [] by { assert gap[1..] == " " && gap[1..][1..] == []; }
    WordsConcat(gap, rest);
    SplitGoTabIn();
  }

  /** Surrounding whitespace, a tab between the words and capitals change nothing: "  Go\tIn  " is the move "go in". */
  lemma ParseSpacedGo()
    ensures ParseCommand("  Go\tIn  ") == Go("in")
  {
    var up := "  Go\tIn  ";
    assert LowerChar('G') == 'g' && LowerChar('I') == 'i';
    assert Lower(up) == "  go\tin  ";
    SplitSpacedGoIn();
  }

  /** "QUIT" is read as "quit". */
  lemma ParseUpperQuit()
    ensures ParseCommand("QUIT") == Quit
  {
    var up := "QUIT";
    assert LowerChar('Q') == 'q' && LowerChar('U') == 'u' && LowerChar('I') == 'i' && LowerChar('T') == 't';
    assert Lower(up) == "quit";
    IgnoresCase(up);
    ParseOneWord("quit");
  }

  /** A move along an exit that is not there, or out of an unknown room, changes nothing and saves nothing. */
  lemma FailedMove(rooms: map<string, Room>, st: PlayerState, direction: string)
    requires st.currentRoom !in rooms || direction !in rooms[st.currentRoom].exits
    ensures MoveResponse(rooms, st, direction).next == st
    ensures !MoveResponse(rooms, st, direction).saved
    ensures MoveResponse(rooms, st, direction).reply ==
      if st.currentRoom in rooms then "You can't go that way." else "Error: You are in limbo."
  {
  }

  /** A move along an exit lands on the exit's target, saves, and describes where the player now is. */
  lemma SuccessfulMove(rooms: map<string, Room>, st: PlayerState, direction: string)
    requires st.currentRoom in rooms && direction in rooms[st.currentRoom].exits
    ensures var r := MoveResponse(rooms, st, direction);
      && r.saved
      && r.next.currentRoom == rooms[st.currentRoom].exits[direction]
      && r.next.inventory == st.inventory
      && r.reply == Describe(rooms, r.next.currentRoom)
  {
  }

  /** In the starting map every exit leads to a known room, and some exit there leads back. */
  lemma StartingRoomsClosed()
    ensures forall id, d :: id in StartingRooms() && d in StartingRooms()[id].exits ==>
      var target := StartingRooms()[id].exits[d];
      && target in StartingRooms()
      && exists back :: back in StartingRooms()[target].exits && StartingRooms()[target].exits[back] == id
  {
    var rooms := StartingRooms();
    forall id, d | id in rooms && d in rooms[id].exits
      ensures var target := rooms[id].exits[d];
        && target in rooms
        && exists back :: back in rooms[target].exits && rooms[target].exits[back] == id
    {
      var target := rooms[id].exits[d];
      if id == "start" {
        assert target == "building";
        assert rooms[target].exits["south"] == id;
      } else {
        assert target == "start";
        assert rooms[target].exits["north"] == id;
      }
    }
  }

  /** A player in the starting map never leaves it, is never lost in the void, and never in limbo. */
  lemma StaysInWorld(st: PlayerState, c: Command)
    requires st.currentRoom in StartingRooms()
    ensures var r := Respond(StartingRooms(), st, c);
      && r.next.currentRoom in StartingRooms()
      && r.reply != "You are lost in the void."
      && r.reply != "Error: You are in limbo."
  {
    StartingRoomsClosed();
    var rooms := StartingRooms();
    assert rooms[st.currentRoom].description != "You are lost in the void.";
    if c.Go? && c.direction in rooms[st.currentRoom].exits {
      var target := rooms[st.currentRoom].exits[c.direction];
      assert rooms[target].description != "You are lost in the void.";
    }
    if c.ShowInventory? {
      var reply := InventoryReply(st.inventory);
      assert reply[0] == 'Y' && reply[8] != 'l';
    }
  }

  /** A new player who types "go in" is in the building; typing "south" there brings them back. */
  lemma GoInThenSouth()
    ensures var r := Respond(StartingRooms(), DefaultPlayerState(), ParseCommand("go in"));
      && r == Response(BuildingDescription, PlayerState("building", EmptyInventory()), true)
      && Respond(StartingRooms(), r.next, ParseCommand("south")) ==
           Response(StartDescription, DefaultPlayerState(), true)
  {
    ParseGoCommands();
    ParseBareDirection();
    var rooms := StartingRooms();
    assert rooms["start"].exits["in"] == "building";
    assert rooms["building"].exits["south"] == "start";
    var inside := MoveResponse(rooms, DefaultPlayerState(), "in");
    assert inside == Response(BuildingDescription, PlayerState("building", EmptyInventory()), true);
    assert MoveResponse(rooms, inside.next, "south") == Response(StartDescription, DefaultPlayerState(), true);
  }

  /** Carrying one more item adds ", " and its name to the end of the listing. */
  lemma InventoryReplyAppend(ps: seq<string>, p: string)
    requires ps != []
    ensures InventoryReply(Inventory(ps + [p])) == InventoryReply(Inventory(ps)) + ", " + p
  {
    JoinAppend(ps, p, ", ");
  }

  /** "inventory" with nothing carried, with one item, and with two. */
  lemma InventoryReplies(a: string, b: string)
    ensures InventoryReply(EmptyInventory()) == "You are not carrying anything."
    ensures InventoryReply(Inventory([a])) == "You are carrying: " + a
    ensures InventoryReply(Inventory([a, b])) == "You are carrying: " + a + ", " + b
  {
    assert [a, b][1..] == [b];
    assert Join([a, b], ", ") == a + ", " + b;
    assert "You are carrying: " + (a + ", " + b) == "You are carrying: " + a + ", " + b;
  }

  class GameEngine {
    /** The store this engine reads and writes. */
    const storage: GameStorage
    const rooms: map<string, Room>
    var state: PlayerState

    /** A fresh engine on a store: the fixed room table, a default player, the store untouched. */
    constructor (storage: GameStorage)
      ensures this.storage == storage
      ensures rooms == StartingRooms()
      ensures state == DefaultPlayerState()
    {
      this.storage := storage;
      state := DefaultPlayerState();
      rooms := StartingRooms();
    }

    /** Starts over: a default player, saved as the only player with no world flags. */
    method StartNewGame() returns (reply: string)
      modifies this, storage
      ensures state == DefaultPlayerState()
      ensures storage.player == Some(state) && storage.world == NewWorldState()
      ensures reply == Describe(rooms, state.currentRoom)
    {
      state := DefaultPlayerState();
      storage.NewGame(state);
      reply := Describe(rooms, state.currentRoom);
    }

    /** Continues the saved game if there is one; otherwise starts a new one. */
    method ResumeGame() returns (reply: string)
      modifies this, storage
      ensures old(storage.player).Some? ==>
        && state == old(storage.player).value
        && storage.player == old(storage.player)
        && storage.world == old(storage.world)
      ensures old(storage.player).None? ==>
        && state == DefaultPlayerState()
        && storage.player == Some(state)
        && storage.world == NewWorldState()
      ensures reply == Describe(rooms, state.currentRoom)
    {
      var loaded := storage.LoadPlayerState();
      if loaded.Some? {
        state := loaded.value;
        reply := Describe(rooms, state.currentRoom);
      } else {
        reply := StartNewGame();
      }
    }

    /** One line of player input: parse it, act on it, and answer. */
    method ProcessCommand(command: string) returns (reply: string)
      modifies this, storage
      ensures var r := Respond(rooms, old(state), ParseCommand(command));
        && reply == r.reply
        && state == r.next
        && storage.player == (if r.saved then Some(r.next) else old(storage.player))
        && storage.world == old(storage.world)
    {
      var parts := Words(Lower(command));
      if |parts| == 0 {
        return "Please say something.";
      }
      var verb := parts[0];
      if verb in QuitVerbs {
        return "Goodbye!";
      }
      if verb in LookVerbs {
        return Describe(rooms, state.currentRoom);
      }
      if verb in MoveVerbs && |parts| > 1 {
        reply := Move(parts[1]);
        return;
      }
      if verb in Directions {
        reply := Move(verb);
        return;
      }
      if verb == "inventory" {
        if state.inventory.items == [] {
          return "You are not carrying anything.";
        }
        return "You are carrying: " + Join(state.inventory.items, ", ");
      }
      reply := "I don't understand that command.";
    }

    /** `_move`: follows an exit, saving the player only when the move succeeds. */
    method Move(direction: string) returns (reply: string)
      modifies this, storage
      ensures var r := MoveResponse(rooms, old(state), direction);
        && reply == r.reply
        && state == r.next
        && storage.player == (if r.saved then Some(r.next) else old(storage.player))
        && storage.world == old(storage.world)
    {
      if state.currentRoom !in rooms {
        return "Error: You are in limbo.";
      }
      var exits := rooms[state.currentRoom].exits;
      if direction in exits {
        state := state.(currentRoom := exits[direction]);
        storage.SavePlayerState(state);
        reply := Describe(rooms, state.currentRoom);
      } else {
        reply := "You can't go that way.";
      }
    }
  }

  /** A new game, "go in", "south", then "go west": the walk the engine tests take. */
  method MovementScenario(storage: GameStorage) returns (intro: string, inside: string, back: string, blocked: string, room: string)
    modifies storage
    ensures intro == StartDescription
    ensures inside == BuildingDescription
    ensures back == StartDescription
    ensures blocked == "You can't go that way." && room == "start"
  {
    ParseGoCommands();
    ParseBareDirection();
    var engine := new GameEngine(storage);
    intro := engine.StartNewGame();
    inside := engine.ProcessCommand("go in");
    back := engine.ProcessCommand("south");
    blocked := engine.ProcessCommand("go west");
    room := engine.state.currentRoom;
  }

  /** A second engine on the same store resumes where the first one moved to. */
  method PersistenceScenario(storage: GameStorage) returns (resumed: string, room: string, empty: string)
    modifies storage
    ensures resumed == BuildingDescription && room == "building"
    ensures empty == "You are not carrying anything."
  {
    ParseGoCommands();
    ParseInventory();
    var first := new GameEngine(storage);
    var _ := first.StartNewGame();
    var _ := first.ProcessCommand("go in");
    var second := new GameEngine(storage);
    resumed := second.ResumeGame();
    room := second.state.currentRoom;
    empty := second.ProcessCommand("inventory");
  }
}
