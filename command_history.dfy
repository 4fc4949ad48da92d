/**
 * The console's command history (CommandHistory): the commands entered so far
 * and a cursor that the up and down keys move through them.
 */
module History {

  /** A history and its cursor as a value. */
  datatype Cursor = Cursor(history: seq<string>, position: int)

  /** The cursor never leaves 0..Count; Count means "after the newest entry". */
  predicate Valid(c: Cursor) {
    0 <= c.position <= |c.history|
  }

  /** `Add`: the command is appended and the cursor moves past it. */
  function Added(c: Cursor, command: string): Cursor {
    Cursor(c.history + [command], |c.history| + 1)
  }

  /** `GetPreviousCommand`: the new cursor and the selected command. */
  function Previous(c: Cursor): (Cursor, string)
    requires Valid(c)
  {
    if |c.history| == 0 then (c, "")
    else
      var p := if c.position - 1 < 0 then 0 else c.position - 1;
      (c.(position := p), c.history[p])
  }

  /** `GetNextCommand`: the new cursor and the selected command. */
  function Next(c: Cursor): (Cursor, string)
    requires Valid(c)
  {
    if |c.history| == 0 then (c, "")
    else if c.position + 1 >= |c.history| then (c.(position := |c.history|), "")
    else (c.(position := c.position + 1), c.history[c.position + 1])
  }

  // ---------------------------------------------------------------------------
  // Properties

  /** Every operation keeps the cursor in range and only `Add` changes the list, by appending. */
  lemma OperationsKeepValid(c: Cursor, command: string)
    requires Valid(c)
    ensures Valid(Added(c, command)) && Added(c, command).history == c.history + [command]
    ensures Valid(Previous(c).0) && Previous(c).0.history == c.history
    ensures Valid(Next(c).0) && Next(c).0.history == c.history
  {
  }

  /** With an empty history both navigation calls return "" and change nothing. */
  lemma EmptyNavigation(c: Cursor)
    requires Valid(c) && c.history == []
    ensures Previous(c) == (c, "") && Next(c) == (c, "")
  {
  }

  /** At the oldest entry, going back again stays there and returns the oldest entry again. */
  lemma PreviousClampsAtOldest(c: Cursor)
    requires Valid(c) && |c.history| > 0 && c.position == 0
    ensures Previous(c) == (c, c.history[0])
  {
  }

  /** Going back selects the entry just before the cursor, clamped at the oldest. */
  lemma PreviousSelects(c: Cursor)
    requires Valid(c) && |c.history| > 0
    ensures var (d, command) := Previous(c);
      d.position == (if c.position == 0 then 0 else c.position - 1) && command == c.history[d.position]
  {
  }

  /** Past the newest entry, going forward returns "" and parks the cursor at Count. */
  lemma NextPastNewest(c: Cursor)
    requires Valid(c) && |c.history| > 0 && c.position + 1 >= |c.history|
    ensures Next(c) == (c.(position := |c.history|), "")
  {
  }

  /** Right after `Add`, going back returns the command just added. */
  lemma PreviousAfterAdd(c: Cursor, command: string)
    requires Valid(c)
    ensures Previous(Added(c, command)).1 == command
    ensures Previous(Added(c, command)).0.position == |c.history|
  {
  }

  /** Forward undoes back, except at the oldest entry, where back had nothing to undo. */
  lemma NextUndoesPrevious(c: Cursor)
    requires Valid(c) && c.position > 0
    ensures Next(Previous(c).0).0 == c
  {
  }

  /** Back undoes forward, except past the newest entry. */
  lemma PreviousUndoesNext(c: Cursor)
    requires Valid(c) && c.position + 1 < |c.history|
    ensures Previous(Next(c).0).0 == c
  {
  }

  /** The navigation in the history's unit tests: back from the end walks towards the oldest entry and stays there. */
  lemma PreviousScenario()
    ensures var c1 := Added(Added(Added(Cursor([], 0), "A0001"), "A0002"), "A0003");
      var (c2, r2) := Previous(c1);
      var (c3, r3) := Previous(c2);
      var (c4, r4) := Previous(c3);
      var (c5, r5) := Previous(c4);
      r2 == "A0003" && r3 == "A0002" && r4 == "A0001" && r5 == "A0001"
  {
  }

  /** Forward from a selected entry walks to the newest and then to "". */
  lemma NextScenario()
    ensures var c1 := Added(Added(Cursor([], 0), "A0001"), "A0002");
      var (c2, r2) := Previous(c1);
      var (c3, r3) := Previous(c2);
      var (c4, r4) := Next(c3);
      var (c5, r5) := Next(c4);
      r2 == "A0002" && r3 == "A0001" && r4 == "A0002" && r5 == ""
  {
  }

  // ---------------------------------------------------------------------------
  // The object

  class CommandHistory {
    var history: seq<string>
    var currentPosition: int

    function State(): Cursor
      reads this
    {
      Cursor(history, currentPosition)
    }

    constructor()
      ensures State() == Cursor([], 0) && Valid(State())
    {
      history := [];
      currentPosition := 0;
    }

    /** `Add`. */
    method Add(command: string)
      requires Valid(State())
      modifies this
      ensures State() == Added(old(State()), command) && Valid(State())
    {
      history := history + [command];
      currentPosition := |history|;
    }

    /** `GetPreviousCommand`. */
    method GetPreviousCommand() returns (command: string)
      requires Valid(State())
      modifies this
      ensures (State(), command) == Previous(old(State())) && Valid(State())
    {
      if |history| == 0 {
        return "";
      }
      currentPosition := currentPosition - 1;
      if currentPosition < 0 {
        currentPosition := 0;
      }
      command := history[currentPosition];
    }

    /** `GetNextCommand`. */
    method GetNextCommand() returns (command: string)
      requires Valid(State())
      modifies this
      ensures (State(), command) == Next(old(State())) && Valid(State())
    {
      if |history| == 0 {
        return "";
      }
      currentPosition := currentPosition + 1;
      if currentPosition >= |history| {
        currentPosition := |history|;
        return "";
      }
      command := history[currentPosition];
    }
  }
}
