/**
 * The command language of the interpreter: how a normalised line is split into
 * a command token and an argument and which handler the token selects.
 */
module Commands {
  import opened Text

  /** What a line asks for, once its token has been matched. */
  datatype Command =
    | Look
    | Move(direction: string)
    | PickUp(itemName: string)
    | MalformedPick
    | Inventory
    | Help
    | Quit
    | Unknown(token: string)

  /** The tokens the dispatch recognises; matching is exact, with no abbreviation. */
  const KNOWN_TOKENS: set<string> := {"look", "move", "pick", "inventory", "help", "quit", "exit"}

  /** The text before the first space. */
  function Token(input: string): string {
    Split(input).0
  }

  /** The text after the first space, or "" when there is none. */
  function Argument(input: string): string {
    Split(input).1
  }

  /** The lines that end the session: `quit` or `exit`, alone or followed by a space and anything. */
  predicate IsQuit(input: string) {
    input == "quit" || input == "exit" || "quit " <= input || "exit " <= input
  }

  /** The dispatch on the command token. */
  function Parse(input: string): (c: Command)
    ensures c.Unknown? <==> Token(input) !in KNOWN_TOKENS
    ensures c.Move? ==> Token(input) == "move" && c.direction == Argument(input)
    ensures c.PickUp? ==> Token(input) == "pick" && "up " + c.itemName == Argument(input)
    ensures c == MalformedPick ==> Token(input) == "pick" && !("up " <= Argument(input))
  {
    var token := Token(input);
    var argument := Argument(input);
    if token == "look" then Look
    else if token == "move" then Move(argument)
    else if token == "pick" then
      if "up " <= argument then
        assert "up " + argument[3..] == argument;
        PickUp(argument[3..])
      else MalformedPick
    else if token == "inventory" then Inventory
    else if token == "help" then Help
    else if token == "quit" || token == "exit" then Quit
    else Unknown(token)
  }

  /** `quit` and `exit` both end the session, whatever follows them. */
  lemma ParseQuit(input: string)
    ensures Parse(input) == Quit <==> IsQuit(input)
  {
    CommandIs(input, "quit");
    CommandIs(input, "exit");
  }

  /** `look`, `inventory` and `help` ignore their argument. */
  lemma ParseReadOnly(input: string)
    ensures Parse(input) == Look <==> (input == "look" || "look " <= input)
    ensures Parse(input) == Inventory <==> (input == "inventory" || "inventory " <= input)
    ensures Parse(input) == Help <==> (input == "help" || "help " <= input)
  {
    ParseLook(input);
    ParseInventory(input);
    ParseHelp(input);
  }

  lemma ParseLook(input: string)
    ensures Parse(input) == Look <==> (input == "look" || "look " <= input)
  {
    CommandIs(input, "look");
  }

  lemma ParseInventory(input: string)
    ensures Parse(input) == Inventory <==> (input == "inventory" || "inventory " <= input)
  {
    CommandIs(input, "inventory");
  }

  lemma ParseHelp(input: string)
    ensures Parse(input) == Help <==> (input == "help" || "help " <= input)
  {
    CommandIs(input, "help");
  }

  /** The direction of a move is everything after the first space, and "" for a bare `move`. */
  lemma ParseMove(input: string, direction: string)
    ensures Parse(input) == Move(direction) <==>
      (input == "move " + direction || (input == "move" && direction == ""))
  {
    CommandIs(input, "move");
    if input == "move " + direction {
      SplitAt("move", direction);
    }
    if Parse(input) == Move(direction) && ' ' in input {
      assert input == "move" + " " + direction;
    }
  }

  /** The item name of a pick is what follows the literal `pick up `. */
  lemma ParsePickUp(input: string, itemName: string)
    ensures Parse(input) == PickUp(itemName) <==> input == "pick up " + itemName
  {
    if input == "pick up " + itemName {
      assert input == "pick" + " " + ("up " + itemName);
      SplitAt("pick", "up " + itemName);
    }
    if Parse(input) == PickUp(itemName) {
      var argument := Argument(input);
      assert ' ' in input;
      assert input == "pick" + " " + argument;
      assert argument == "up " + itemName;
    }
  }

  /** A `pick` whose argument does not start with `up ` is malformed. */
  lemma ParseMalformedPick(input: string)
    ensures Parse(input) == MalformedPick <==>
      (input == "pick" || ("pick " <= input && !("up " <= input[5..])))
  {
    CommandIs(input, "pick");
    if "pick " <= input {
      var rest := input[5..];
      assert input == "pick" + " " + rest;
      SplitAt("pick", rest);
    }
  }

  /** An unknown command carries its token as it was typed. */
  lemma ParseUnknown(input: string)
    ensures Parse(input).Unknown? ==> Parse(input).token == Token(input)
  {
  }
}
