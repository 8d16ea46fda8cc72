/**
 * What each operation of the networked engine does to one loaded world, as a
 * pure function: either it fails (the store is left as it was) or it produces
 * the next world to save. Lookups the source performs with `dict[key]` raise
 * KeyError when the key is missing; those are the `Err` results.
 */
module BackendRules {
  import opened Wrappers
  import opened BackendModels
  import opened BackendWorld

  /** Why an operation raises instead of returning. */
  datatype Error =
    | NoGameState              // nothing stored yet (ValueError)
    | MissingRoom(id: string)   // KeyError on the rooms table
    | MissingItem(name: string) // KeyError on the items table

  /** A refused command leaves the world alone; a done one yields the world to save. */
  datatype Outcome = Refused(message: string) | Done(message: string, next: GameState)

  /** `list.remove(x)`: drops the first occurrence of `x`. */
  function RemoveFirst(s: seq<string>, x: string): (r: seq<string>)
    ensures x in s ==> multiset(r) == multiset(s) - multiset{x} && |r| == |s| - 1
    ensures x !in s ==> r == s
    ensures forall y :: y in r ==> y in s
    decreases |s|
  {
    if s == [] then []
    else
      assert s == [s[0]] + s[1..];
      if s[0] == x then s[1..]
      else [s[0]] + RemoveFirst(s[1..], x)
  }

  /** The occurrence `RemoveFirst` drops is the first one; the items before and after it keep their order. */
  lemma {:induction false} RemoveFirstAt(s: seq<string>, x: string, i: nat)
    requires i < |s| && s[i] == x && x !in s[..i]
    ensures RemoveFirst(s, x) == s[..i] + s[i + 1..]
    decreases |s|
  {
    if i > 0 {
      assert s[0] in s[..i];
      assert s[1..][..i - 1] == s[1..i];
      RemoveFirstAt(s[1..], x, i - 1);
      assert s[..i] == [s[0]] + s[1..i];
      assert s[1..][i..] == s[i + 1..];
    }
  }

  /** `move_player`. */
  function MoveStep(gs: GameState, d: Direction): (r: Result<Outcome, Error>)
    ensures r.Err? <==> gs.player.currentRoom !in gs.rooms
    ensures r.Ok? && r.value.Done? ==>
      var here := gs.player.currentRoom;
      && here in gs.rooms && d in gs.rooms[here].exits
      && r.value.next.player.currentRoom == gs.rooms[here].exits[d]
      && r.value.next.player.currentRoom in gs.rooms
      && r.value.message == "You move " + DirectionValue(d) + " to " + gs.rooms[r.value.next.player.currentRoom].name + "."
  {
    var here := gs.player.currentRoom;
    if here !in gs.rooms then Err(MissingRoom(here))
    else if d !in gs.rooms[here].exits then
      Ok(Refused("You can't go " + DirectionValue(d) + " from here."))
    else
      var target := gs.rooms[here].exits[d];
      if target !in gs.rooms then Ok(Refused("That way is blocked."))
      else
        var visited := gs.player.visitedRooms;
        var player := gs.player.(
          currentRoom := target,
          visitedRooms := if target in visited then visited else visited + [target]);
        Ok(Done("You move " + DirectionValue(d) + " to " + gs.rooms[target].name + ".", gs.(player := player)))
  }

  /** `take_item`. */
  function TakeStep(gs: GameState, item: string): (r: Result<Outcome, Error>)
    ensures r.Ok? && r.value.Done? ==>
      var here := gs.player.currentRoom;
      && here in gs.rooms && item in gs.rooms[here].items
      && item in gs.items && gs.items[item].isTakeable
      && r.value.next.player.inventory == gs.player.inventory + [item]
      && r.value.message == "You take the " + item + "."
  {
    var here := gs.player.currentRoom;
    if here !in gs.rooms then Err(MissingRoom(here))
    else if item !in gs.rooms[here].items then Ok(Refused("There is no " + item + " here."))
    else if item !in gs.items then Err(MissingItem(item))
    else if !gs.items[item].isTakeable then Ok(Refused("You can't take the " + item + "."))
    else
      var room := gs.rooms[here].(items := RemoveFirst(gs.rooms[here].items, item));
      var player := gs.player.(inventory := gs.player.inventory + [item]);
      Ok(Done("You take the " + item + ".", gs.(rooms := gs.rooms[here := room], player := player)))
  }

  /** `drop_item`. */
  function DropStep(gs: GameState, item: string): (r: Result<Outcome, Error>)
    ensures (r.Ok? && r.value.Done?) <==> item in gs.player.inventory && gs.player.currentRoom in gs.rooms
    ensures r.Ok? && r.value.Done? ==>
      var here := gs.player.currentRoom;
      && here in r.value.next.rooms
      && r.value.next.rooms[here].items == gs.rooms[here].items + [item]
      && r.value.message == "You drop the " + item + "."
  {
    var here := gs.player.currentRoom;
    if item !in gs.player.inventory then Ok(Refused("You don't have the " + item + "."))
    else if here !in gs.rooms then Err(MissingRoom(here))
    else
      var room := gs.rooms[here].(items := gs.rooms[here].items + [item]);
      var player := gs.player.(inventory := RemoveFirst(gs.player.inventory, item));
      Ok(Done("You drop the " + item + ".", gs.(rooms := gs.rooms[here := room], player := player)))
  }

  /** `toggle_lamp`. */
  function ToggleLampStep(gs: GameState): (o: Outcome)
    ensures o.Done? <==> "lamp" in gs.player.inventory
    ensures o.Done? ==> o.next == gs.(player := gs.player.(isLampOn := !gs.player.isLampOn))
    ensures o.Refused? ==> o.message == "You don't have a lamp."
    ensures o.Done? ==> o.message == "You turn the lamp " + (if o.next.player.isLampOn then "on" else "off") + "."
  {
    if "lamp" !in gs.player.inventory then Refused("You don't have a lamp.")
    else
      var on := !gs.player.isLampOn;
      Done("You turn the lamp " + (if on then "on" else "off") + ".", gs.(player := gs.player.(isLampOn := on)))
  }

  /** The items named in `names` whose `isVisible` flag is set, in order; the first unknown name is an error. */
  function VisibleItems(names: seq<string>, items: map<string, Item>): (r: Result<seq<string>, Error>)
    ensures r.Err? ==> r.error.MissingItem? && r.error.name in names && r.error.name !in items
    ensures r.Ok? ==> forall x :: x in r.value ==> x in names && x in items && items[x].isVisible
    decreases |names|
  {
    if names == [] then Ok([])
    else
      var init := VisibleItems(names[..|names| - 1], items);
      var last := names[|names| - 1];
      if init.Err? then init
      else if last !in items then Err(MissingItem(last))
      else if items[last].isVisible then Ok(init.value + [last])
      else init
  }

  /** `get_visible_items` on a loaded world. */
  function VisibleStep(gs: GameState): (r: Result<seq<string>, Error>)
    ensures gs.player.currentRoom !in gs.rooms ==> r == Err(MissingRoom(gs.player.currentRoom))
    ensures gs.player.currentRoom in gs.rooms ==> r == VisibleItems(gs.rooms[gs.player.currentRoom].items, gs.items)
    ensures r.Ok? ==>
      && gs.player.currentRoom in gs.rooms
      && forall x :: x in r.value ==> x in gs.rooms[gs.player.currentRoom].items && x in gs.items && gs.items[x].isVisible
  {
    var here := gs.player.currentRoom;
    if here !in gs.rooms then Err(MissingRoom(here))
    else VisibleItems(gs.rooms[here].items, gs.items)
  }

  /** The visible items fail exactly when some name is not a known item. */
  lemma {:induction false} VisibleItemsFails(names: seq<string>, items: map<string, Item>)
    ensures VisibleItems(names, items).Err? <==> exists i :: 0 <= i < |names| && names[i] !in items
    decreases |names|
  {
    if names != [] {
      var init := names[..|names| - 1];
      VisibleItemsFails(init, items);
      if exists i :: 0 <= i < |init| && init[i] !in items {
        var i :| 0 <= i < |init| && init[i] !in items;
        assert names[i] !in items;
      }
      if exists i :: 0 <= i < |names| && names[i] !in items {
        var i :| 0 <= i < |names| && names[i] !in items;
        if i < |init| {
          assert init[i] !in items;
        }
      }
    }
  }

  /** When they succeed, the visible items keep each visible item as often as the room lists it, and drop the rest. */
  lemma {:induction false} VisibleItemsFilter(names: seq<string>, items: map<string, Item>)
    ensures VisibleItems(names, items).Ok? ==>
      var vs := VisibleItems(names, items).value;
      && |vs| <= |names|
      && forall x :: multiset(vs)[x] == if x in items && items[x].isVisible then multiset(names)[x] else 0
    decreases |names|
  {
    if names != [] {
      var init := names[..|names| - 1];
      VisibleItemsFilter(init, items);
      assert names == init + [names[|names| - 1]];
    }
  }

  /** The error reported is the one for the first listed name that is not a known item. */
  lemma VisibleItemsFirstError(names: seq<string>, items: map<string, Item>, i: nat)
    requires i < |names| && names[i] !in items
    requires forall j :: 0 <= j < i ==> names[j] in items
    ensures VisibleItems(names, items) == Err(MissingItem(names[i]))
  {
    var before := names[..i];
    VisibleItemsFails(before, items);
    assert names[..i + 1][..i] == before;
    VisibleItemsErrPrefix(names, i + 1, items);
  }

  /** Listing two runs of names one after the other lists their visible items in the same order. */
  lemma {:induction false} VisibleItemsAppend(a: seq<string>, b: seq<string>, items: map<string, Item>)
    requires VisibleItems(a, items).Ok? && VisibleItems(b, items).Ok?
    ensures VisibleItems(a + b, items) == Ok(VisibleItems(a, items).value + VisibleItems(b, items).value)
    decreases |b|
  {
    if b == [] {
      assert a + b == a;
      assert VisibleItems(a, items).value + [] == VisibleItems(a, items).value;
    } else {
      var init := b[..|b| - 1];
      var last := b[|b| - 1];
      VisibleItemsAppend(a, init, items);
      assert (a + b)[..|a + b| - 1] == a + init;
      assert (a + b)[|a + b| - 1] == last;
      var va := VisibleItems(a, items).value;
      var vi := VisibleItems(init, items).value;
      assert va + vi + [last] == va + (vi + [last]);
    }
  }

  /** Once a prefix of the names fails, the whole list fails with the same error. */
  lemma {:induction false} VisibleItemsErrPrefix(names: seq<string>, k: nat, items: map<string, Item>)
    requires k <= |names|
    requires VisibleItems(names[..k], items).Err?
    ensures VisibleItems(names, items) == VisibleItems(names[..k], items)
    decreases |names| - k
  {
    if k < |names| {
      assert names[..k + 1][..k] == names[..k];
      VisibleItemsErrPrefix(names, k + 1, items);
    } else {
      assert names[..k] == names;
    }
  }

  /** A move raises only for an unknown current room, and is refused exactly when there is no such exit or its target is not a room. */
  lemma MoveRefusals(gs: GameState, d: Direction)
    ensures MoveStep(gs, d).Err? <==> gs.player.currentRoom !in gs.rooms
    ensures gs.player.currentRoom in gs.rooms ==>
      var exits := gs.rooms[gs.player.currentRoom].exits;
      && (MoveStep(gs, d).value.Refused? <==> d !in exits || exits[d] !in gs.rooms)
      && (d !in exits ==> MoveStep(gs, d).value == Refused("You can't go " + DirectionValue(d) + " from here."))
      && (d in exits && exits[d] !in gs.rooms ==> MoveStep(gs, d).value == Refused("That way is blocked."))
  {
  }

  /** A move puts the player on the exit's target, records it once, and keeps everything else. */
  lemma {:induction false} MoveRecordsVisit(gs: GameState, d: Direction)
    requires MoveStep(gs, d).Ok? && MoveStep(gs, d).value.Done?
    ensures var next := MoveStep(gs, d).value.next;
      && next.player.currentRoom == gs.rooms[gs.player.currentRoom].exits[d]
      && next.player.currentRoom in next.player.visitedRooms
      && gs.player.visitedRooms <= next.player.visitedRooms
      && |next.player.visitedRooms| <= |gs.player.visitedRooms| + 1
      && (next.player.currentRoom in gs.player.visitedRooms ==> next.player.visitedRooms == gs.player.visitedRooms)
      && (next.player.currentRoom !in gs.player.visitedRooms ==> next.player.visitedRooms == gs.player.visitedRooms + [next.player.currentRoom])
      && MoveStep(gs, d).value.message == "You move " + DirectionValue(d) + " to " + gs.rooms[next.player.currentRoom].name + "."
      && next == gs.(player := gs.player.(currentRoom := next.player.currentRoom, visitedRooms := next.player.visitedRooms))
      && (NoDuplicates(gs.player.visitedRooms) ==> NoDuplicates(next.player.visitedRooms))
      && next.rooms == gs.rooms && next.items == gs.items
      && next.player.inventory == gs.player.inventory
  {
    var target := gs.rooms[gs.player.currentRoom].exits[d];
    var visited := gs.player.visitedRooms;
    if target !in visited {
      var after := visited + [target];
      if NoDuplicates(visited) {
        forall i, j | 0 <= i < j < |after| ensures after[i] != after[j] {
          if j == |visited| {
            assert after[i] == visited[i];
          }
        }
      }
    }
  }

  /** A move keeps a well-formed world well formed. */
  lemma MovePreservesWellFormed(gs: GameState, d: Direction)
    requires WellFormed(gs)
    requires MoveStep(gs, d).Ok? && MoveStep(gs, d).value.Done?
    ensures WellFormed(MoveStep(gs, d).value.next)
  {
    var next := MoveStep(gs, d).value.next;
    MoveRecordsVisit(gs, d);
    assert forall x :: Total(next, x) == Total(gs, x);
  }

  /** A take is refused when the item is not here or cannot be taken; it raises for an unknown room or item. */
  lemma TakeRefusals(gs: GameState, item: string)
    ensures gs.player.currentRoom !in gs.rooms ==> TakeStep(gs, item) == Err(MissingRoom(gs.player.currentRoom))
    ensures gs.player.currentRoom in gs.rooms ==>
      var here := gs.rooms[gs.player.currentRoom];
      && (item !in here.items ==> TakeStep(gs, item) == Ok(Refused("There is no " + item + " here.")))
      && (item in here.items && item !in gs.items ==> TakeStep(gs, item) == Err(MissingItem(item)))
      && (item in here.items && item in gs.items ==>
            TakeStep(gs, item).Ok? && (TakeStep(gs, item).value.Refused? <==> !gs.items[item].isTakeable))
      && (item in here.items && item in gs.items && !gs.items[item].isTakeable ==>
            TakeStep(gs, item) == Ok(Refused("You can't take the " + item + ".")))
  {
  }

  /** A drop is refused exactly when the item is not carried; a carried item raises only for an unknown room. */
  lemma DropRefusals(gs: GameState, item: string)
    ensures item !in gs.player.inventory ==> DropStep(gs, item) == Ok(Refused("You don't have the " + item + "."))
    ensures item in gs.player.inventory ==>
      && (DropStep(gs, item).Err? <==> gs.player.currentRoom !in gs.rooms)
      && (DropStep(gs, item).Ok? ==> DropStep(gs, item).value.Done?)
  {
  }

  /** A take moves one occurrence of the item from the current room to the end of the inventory. */
  lemma {:induction false} TakeMovesItem(gs: GameState, item: string)
    requires TakeStep(gs, item).Ok? && TakeStep(gs, item).value.Done?
    ensures var next := TakeStep(gs, item).value.next;
      var here := gs.player.currentRoom;
      && TakeStep(gs, item).value.message == "You take the " + item + "."
      && next == gs.(rooms := next.rooms, player := gs.player.(inventory := next.player.inventory))
      && next.rooms == gs.rooms[here := gs.rooms[here].(items := RemoveFirst(gs.rooms[here].items, item))]
      && next.player.inventory == gs.player.inventory + [item]
      && multiset(next.rooms[here].items) == multiset(gs.rooms[here].items) - multiset{item}
      && next.rooms.Keys == gs.rooms.Keys
      && (forall id :: id in gs.rooms && id != here ==> next.rooms[id] == gs.rooms[id])
      && (forall x :: Total(next, x) == Total(gs, x))
  {
    var here := gs.player.currentRoom;
    var next := TakeStep(gs, item).value.next;
    forall x ensures Total(next, x) == Total(gs, x) {
      RoomsCountUpdate(gs.rooms, here, next.rooms[here], x);
    }
  }

  /** A drop moves one occurrence of the item from the inventory to the end of the current room's items. */
  lemma {:induction false} DropMovesItem(gs: GameState, item: string)
    requires DropStep(gs, item).Ok? && DropStep(gs, item).value.Done?
    ensures var next := DropStep(gs, item).value.next;
      var here := gs.player.currentRoom;
      && DropStep(gs, item).value.message == "You drop the " + item + "."
      && next == gs.(rooms := next.rooms, player := gs.player.(inventory := RemoveFirst(gs.player.inventory, item)))
      && next.rooms == gs.rooms[here := gs.rooms[here].(items := gs.rooms[here].items + [item])]
      && next.rooms[here].items == gs.rooms[here].items + [item]
      && multiset(next.player.inventory) == multiset(gs.player.inventory) - multiset{item}
      && next.rooms.Keys == gs.rooms.Keys
      && (forall id :: id in gs.rooms && id != here ==> next.rooms[id] == gs.rooms[id])
      && (forall x :: Total(next, x) == Total(gs, x))
  {
    var here := gs.player.currentRoom;
    var next := DropStep(gs, item).value.next;
    forall x ensures Total(next, x) == Total(gs, x) {
      RoomsCountUpdate(gs.rooms, here, next.rooms[here], x);
    }
  }

  /** A take keeps a well-formed world well formed. */
  lemma TakePreservesWellFormed(gs: GameState, item: string)
    requires WellFormed(gs)
    requires TakeStep(gs, item).Ok? && TakeStep(gs, item).value.Done?
    ensures WellFormed(TakeStep(gs, item).value.next)
  {
    TakeMovesItem(gs, item);
  }

  /** A drop keeps a well-formed world well formed. */
  lemma DropPreservesWellFormed(gs: GameState, item: string)
    requires WellFormed(gs)
    requires DropStep(gs, item).Ok? && DropStep(gs, item).value.Done?
    ensures WellFormed(DropStep(gs, item).value.next)
  {
    DropMovesItem(gs, item);
  }

  /** Dropping what was just taken puts the same items back in the room and the inventory (order aside). */
  lemma TakeThenDrop(gs: GameState, item: string)
    requires TakeStep(gs, item).Ok? && TakeStep(gs, item).value.Done?
    ensures var mid := TakeStep(gs, item).value.next;
      var here := gs.player.currentRoom;
      && DropStep(mid, item).Ok? && DropStep(mid, item).value.Done?
      && var last := DropStep(mid, item).value.next;
      && multiset(last.rooms[here].items) == multiset(gs.rooms[here].items)
      && multiset(last.player.inventory) == multiset(gs.player.inventory)
      && last.player.currentRoom == here
  {
    var mid := TakeStep(gs, item).value.next;
    TakeMovesItem(gs, item);
    DropMovesItem(mid, item);
  }

  /** A toggle fails exactly without the lamp; two toggles in a row give the lamp back its old state. */
  lemma ToggleTwice(gs: GameState)
    ensures ToggleLampStep(gs).Refused? <==> "lamp" !in gs.player.inventory
    ensures ToggleLampStep(gs).Done? ==>
      var once := ToggleLampStep(gs).next;
      && once.player.isLampOn == !gs.player.isLampOn
      && ToggleLampStep(once).Done?
      && ToggleLampStep(once).next == gs
  {
  }

  /** From the starting world: north reaches the cave, south is blocked (no forest room), east has no exit. */
  lemma InitialMoves()
    ensures MoveStep(InitialState(), North).Ok?
    ensures MoveStep(InitialState(), North).value.message == "You move north to Main Cave."
    ensures MoveStep(InitialState(), South) == Ok(Refused("That way is blocked."))
    ensures MoveStep(InitialState(), East) == Ok(Refused("You can't go east from here."))
  {
    var gs := InitialState();
    var exits := gs.rooms["entrance"].exits;
    assert gs.rooms["main_cave"].name == "Main Cave";
    assert exits[North] == "main_cave" && exits[South] == "forest" && East !in exits;
    assert "You move " + DirectionValue(North) + " to " + "Main Cave" + "." == "You move north to Main Cave.";
    assert "You can't go " + DirectionValue(East) + " from here." == "You can't go east from here.";
  }

  /** From the starting world: the lamp is taken, cannot be taken twice, and toggles on then off. */
  lemma InitialLamp()
    ensures var took := TakeStep(InitialState(), "lamp");
      && took.Ok? && took.value.Done?
      && took.value.next.player.inventory == ["lamp"]
      && took.value.next.rooms["entrance"].items == []
      && TakeStep(took.value.next, "lamp") == Ok(Refused("There is no lamp here."))
      && ToggleLampStep(took.value.next).message == "You turn the lamp on."
      && ToggleLampStep(ToggleLampStep(took.value.next).next).message == "You turn the lamp off."
  {
    var gs := InitialState();
    assert RemoveFirst(["lamp"], "lamp") == [];
    var took := TakeStep(gs, "lamp");
    assert took.Ok? && took.value.Done?;
    var next := took.value.next;
    assert next.player.inventory == ["lamp"];
    assert next.rooms["entrance"].items == [];
    assert next.player.currentRoom == "entrance";
    assert !next.player.isLampOn;
    assert "There is no " + "lamp" + " here." == "There is no lamp here.";
  }

  /** Taking the lamp in the starting world and dropping it again gives back exactly the starting world. */
  lemma InitialLampReturns()
    ensures var took := TakeStep(InitialState(), "lamp");
      && took.Ok? && took.value.Done?
      && took.value.message == "You take the lamp."
      && DropStep(took.value.next, "lamp") == Ok(Done("You drop the lamp.", InitialState()))
  {
    InitialLamp();
    assert "You take the " + "lamp" + "." == "You take the lamp.";
    assert "You drop the " + "lamp" + "." == "You drop the lamp.";
    var gs := InitialState();
    var mid := TakeStep(gs, "lamp").value.next;
    assert RemoveFirst(mid.player.inventory, "lamp") == [];
    assert mid.rooms["entrance"].items + ["lamp"] == ["lamp"];
    var back := DropStep(mid, "lamp").value.next;
    assert back.rooms["entrance"] == gs.rooms["entrance"];
    assert back.rooms == gs.rooms;
    assert back.player == gs.player;
  }
}
