/** Tab-completion for the text front end: the first known command that starts with what was typed. */
module Suggester {
  import opened Wrappers

  /** The commands the front end offers for completion, in the order they are tried. */
  function Commands(): (cs: seq<string>)
    ensures |cs| == 12
    ensures forall i :: 0 <= i < |cs| ==> cs[i] != []
  {
    [
      "go north", "go south", "go east", "go west", "go in", "go out",
      "look", "inventory", "quit", "exit", "/help", "/learn"
    ]
  }

  /** The position of the first command, in list order, that has `value` as a prefix; `|commands|` if none has. */
  function FirstMatchIndex(commands: seq<string>, value: string): (k: nat)
    ensures k <= |commands|
    ensures forall j :: 0 <= j < k ==> !(value <= commands[j])
    ensures k < |commands| ==> value <= commands[k]
    decreases |commands|
  {
    if commands == [] || value <= commands[0] then 0
    else 1 + FirstMatchIndex(commands[1..], value)
  }

  /** The first command that has `value` as a prefix (case-sensitive), if any. */
  function FirstMatch(commands: seq<string>, value: string): (r: Option<string>)
    ensures r.Some? ==> r.value in commands && value <= r.value
    ensures r.Some? ==> exists k :: 0 <= k < |commands| && commands[k] == r.value && forall j :: 0 <= j < k ==> !(value <= commands[j])
    ensures r.None? <==> forall i :: 0 <= i < |commands| ==> !(value <= commands[i])
  {
    var k := FirstMatchIndex(commands, value);
    if k < |commands| then Some(commands[k]) else None
  }

  class CommandSuggester {
    /** The command list; the suggester never changes it. */
    const commands: seq<string>

    constructor (commands: seq<string>)
      ensures this.commands == commands
    {
      this.commands := commands;
    }

    /** Nothing for empty input; otherwise the first command that starts with the input, if any. */
    method GetSuggestion(value: string) returns (suggestion: Option<string>)
      ensures value == [] ==> suggestion == None
      ensures value != [] ==> suggestion == FirstMatch(commands, value)
    {
      if value == [] {
        return None;
      }
      var k := 0;
      while k < |commands|
        invariant 0 <= k <= |commands|
        invariant forall j :: 0 <= j < k ==> !(value <= commands[j])
      {
        if value <= commands[k] {
          FirstMatchAt(commands, value, k);
          return Some(commands[k]);
        }
        k := k + 1;
      }
      return None;
    }
  }

  /** The command at `k` is the suggestion exactly when it is the first one the input is a prefix of. */
  lemma FirstMatchAt(commands: seq<string>, value: string, k: nat)
    requires k < |commands| && value <= commands[k]
    requires forall j :: 0 <= j < k ==> !(value <= commands[j])
    ensures FirstMatch(commands, value) == Some(commands[k])
  {
  }

  /** Typing "go" suggests the first of the "go" commands. */
  lemma SuggestGo()
    ensures FirstMatch(Commands(), "go") == Some("go north")
  {
  }

  /** Typing "i" skips the six "go" commands and "look" and suggests "inventory". */
  lemma SuggestInventory()
    ensures FirstMatch(Commands(), "i") == Some("inventory")
  {
    forall j | 0 <= j < 7 ensures !("i" <= Commands()[j]) {
      assert Commands()[j][0] != 'i';
    }
    FirstMatchAt(Commands(), "i", 7);
  }

  /** Matching is case-sensitive: "l" does not complete to "Look". */
  lemma CaseSensitive()
    ensures FirstMatch(["Look", "look"], "l") == Some("look")
    ensures FirstMatch(["Look"], "l") == None
  {
    assert "l"[0] != "Look"[0];
    FirstMatchAt(["Look", "look"], "l", 1);
  }
}
