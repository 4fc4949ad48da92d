/**
 * The console's batch processor (CommandProcessor). The command line holds a
 * comma-separated script; its pieces are sent one by one, empty pieces are
 * skipped, and after the first failure the remaining pieces are kept on the
 * command line instead of being sent.
 */
module Processor {
  import opened Text
  import opened Communication
  import opened Messages
  import History

  const CommandSeparator := ", "

  /** The history-box line for a command that could not be sent. */
  function ErrorLine(command: string, error: string): string {
    "Ошибка в " + command + ": " + error
  }

  /** What `ProcessCommand` has done after some of the pieces: the sending state, the history-box lines and the unsent pieces. */
  datatype Batch = Batch(channel: Channel, output: seq<string>, notSent: seq<string>)

  /** One iteration of the `foreach` loop of `ProcessCommand`. */
  function Step(b: Batch, fault: FaultOracle, command: string): Batch {
    if Trim(command) == "" then b
    else if |b.notSent| > 0 then b.(notSent := b.notSent + [command])
    else
      var (next, ok) := Send(b.channel, fault, command);
      if ok then Batch(next, b.output + [next.lastSent], b.notSent)
      else Batch(next, b.output + [ErrorLine(command, next.lastError)], [command])
  }

  /** The loop over all pieces. */
  function Steps(b: Batch, fault: FaultOracle, commands: seq<string>): Batch
    decreases |commands|
  {
    if commands == [] then b
    else Step(Steps(b, fault, commands[..|commands| - 1]), fault, commands[|commands| - 1])
  }

  /** The pieces that are not empty after trimming, in order. */
  function NonEmpty(commands: seq<string>): (r: seq<string>)
    ensures forall i :: 0 <= i < |r| ==> Trim(r[i]) != ""
    ensures |r| <= |commands|
    decreases |commands|
  {
    if commands == [] then []
    else
      var front := NonEmpty(commands[..|commands| - 1]);
      var last := commands[|commands| - 1];
      if Trim(last) == "" then front else front + [last]
  }

  /** The filter adds nothing: the kept pieces are a sub-multiset of the pieces. */
  lemma {:induction false} NonEmptySubMultiset(commands: seq<string>)
    ensures multiset(NonEmpty(commands)) <= multiset(commands)
    decreases |commands|
  {
    if commands != [] {
      var init := commands[..|commands| - 1];
      var last := commands[|commands| - 1];
      NonEmptySubMultiset(init);
      assert commands == init + [last];
      assert multiset(commands) == multiset(init) + multiset{last};
      if Trim(last) != "" {
        assert multiset(NonEmpty(commands)) == multiset(NonEmpty(init)) + multiset{last};
      }
    }
  }

  /** The filter drops only blank pieces: every piece that does not trim to "" is kept. */
  lemma {:induction false} NonEmptyKeeps(commands: seq<string>, c: string)
    requires c in commands && Trim(c) != ""
    ensures c in NonEmpty(commands)
    decreases |commands|
  {
    var init := commands[..|commands| - 1];
    var last := commands[|commands| - 1];
    assert commands == init + [last];
    if c != last {
      assert c in init;
      NonEmptyKeeps(init, c);
    }
  }

  /** Filtering keeps the order: the kept pieces of a + b are those of a, then those of b. */
  lemma {:induction false} NonEmptyAppend(a: seq<string>, b: seq<string>)
    ensures NonEmpty(a + b) == NonEmpty(a) + NonEmpty(b)
    decreases |b|
  {
    if b != [] {
      var front := b[..|b| - 1];
      assert (a + b)[..|a + b| - 1] == a + front;
      NonEmptyAppend(a, front);
    } else {
      assert a + b == a;
    }
  }

  /** The command line after processing: the unsent pieces joined with ", ", or "". */
  function CommandLineAfter(b: Batch): string {
    if |b.notSent| > 0 then Join(b.notSent, CommandSeparator) else ""
  }

  /** Messages the transport accepted after state `start`. */
  function LoggedSince(start: Channel, now: Channel): seq<string> {
    if |start.transmitted| <= |now.transmitted| then now.transmitted[|start.transmitted|..] else []
  }

  /** The loop's pieces one at a time. */
  lemma StepsSnoc(b: Batch, fault: FaultOracle, commands: seq<string>, i: nat)
    requires i < |commands|
    ensures Steps(b, fault, commands[..i + 1]) == Step(Steps(b, fault, commands[..i]), fault, commands[i])
  {
    assert commands[..i + 1][..i] == commands[..i];
  }

  /** A piece sent while nothing has failed. */
  lemma StepSends(b: Batch, fault: FaultOracle, command: string, next: Channel, ok: bool)
    requires b.notSent == [] && Trim(command) != "" && Send(b.channel, fault, command) == (next, ok)
    ensures Step(b, fault, command)
         == if ok then Batch(next, b.output + [next.lastSent], [])
            else Batch(next, b.output + [ErrorLine(command, next.lastError)], [command])
  {
  }

  // ---------------------------------------------------------------------------
  // Properties

  /**
   * `r` is what processing pieces whose non-empty ones are `ne` should leave: with k
   * the number that went through, the unsent pieces are the non-empty ones from k on,
   * the history box gains one line per accepted message and, if there was a failure,
   * one error line for the k-th non-empty piece.
   */
  predicate SentUpTo(b: Batch, fault: FaultOracle, ne: seq<string>, r: Batch) {
    var k := |ne| - |r.notSent|;
    |r.notSent| <= |ne| && r.notSent == ne[k..]
    && SendAll(b.channel, fault, ne[..k]).1
    && (r.notSent == [] ==>
          r.channel == SendAll(b.channel, fault, ne).0
          && r.output == b.output + LoggedSince(b.channel, r.channel))
    && (r.notSent != [] ==>
          (r.channel, false) == Send(SendAll(b.channel, fault, ne[..k]).0, fault, ne[k])
          && r.output == b.output + LoggedSince(b.channel, SendAll(b.channel, fault, ne[..k]).0)
                         + [ErrorLine(ne[k], r.channel.lastError)])
  }

  /** `SentUpTo` when every non-empty piece went through. */
  lemma AllSentIntro(b: Batch, fault: FaultOracle, ne: seq<string>, r: Batch)
    requires r.notSent == [] && SendAll(b.channel, fault, ne) == (r.channel, true)
    requires r.output == b.output + LoggedSince(b.channel, r.channel)
    ensures SentUpTo(b, fault, ne, r)
  {
    assert ne[..|ne|] == ne;
  }

  lemma AllSentElim(b: Batch, fault: FaultOracle, ne: seq<string>, r: Batch)
    requires SentUpTo(b, fault, ne, r) && r.notSent == []
    ensures SendAll(b.channel, fault, ne) == (r.channel, true)
    ensures r.output == b.output + LoggedSince(b.channel, r.channel)
  {
    assert ne[..|ne|] == ne;
  }

  /** `SentUpTo` when the k-th non-empty piece failed. */
  lemma StoppedIntro(b: Batch, fault: FaultOracle, ne: seq<string>, r: Batch, k: nat)
    requires k < |ne| && r.notSent == ne[k..]
    requires SendAll(b.channel, fault, ne[..k]).1
    requires (r.channel, false) == Send(SendAll(b.channel, fault, ne[..k]).0, fault, ne[k])
    requires r.output == b.output + LoggedSince(b.channel, SendAll(b.channel, fault, ne[..k]).0)
                         + [ErrorLine(ne[k], r.channel.lastError)]
    ensures SentUpTo(b, fault, ne, r)
  {
  }

  lemma StoppedElim(b: Batch, fault: FaultOracle, ne: seq<string>, r: Batch) returns (k: nat)
    requires SentUpTo(b, fault, ne, r) && r.notSent != []
    ensures k < |ne| && r.notSent == ne[k..] && k == |ne| - |r.notSent|
    ensures SendAll(b.channel, fault, ne[..k]).1
    ensures (r.channel, false) == Send(SendAll(b.channel, fault, ne[..k]).0, fault, ne[k])
    ensures r.output == b.output + LoggedSince(b.channel, SendAll(b.channel, fault, ne[..k]).0)
                        + [ErrorLine(ne[k], r.channel.lastError)]
  {
    k := |ne| - |r.notSent|;
  }

  /** After a failure, a further non-empty piece is only queued. */
  lemma QueueAfterFailure(b: Batch, fault: FaultOracle, ne: seq<string>, r: Batch, command: string)
    requires SentUpTo(b, fault, ne, r) && r.notSent != []
    ensures SentUpTo(b, fault, ne + [command], r.(notSent := r.notSent + [command]))
  {
    var k := StoppedElim(b, fault, ne, r);
    var ne' := ne + [command];
    assert ne'[..k] == ne[..k] && ne'[k] == ne[k];
    assert r.notSent + [command] == ne'[k..];
    StoppedIntro(b, fault, ne', r.(notSent := r.notSent + [command]), k);
  }

  /** A message appended to the log is the last one logged since any earlier state. */
  lemma LoggedSinceSnoc(start: Channel, mid: Channel, next: Channel, message: string)
    requires |start.transmitted| <= |mid.transmitted|
    requires next.transmitted == mid.transmitted + [message]
    ensures LoggedSince(start, next) == LoggedSince(start, mid) + [message]
  {
  }

  /** A piece the robot accepts extends the log and the output by its canonical form. */
  lemma SendAccepted(b: Batch, fault: FaultOracle, ne: seq<string>, r: Batch, command: string, next: Channel)
    requires SendAll(b.channel, fault, ne) == (r.channel, true)
    requires r.output == b.output + LoggedSince(b.channel, r.channel)
    requires Send(r.channel, fault, command) == (next, true)
    ensures SendAll(b.channel, fault, ne + [command]) == (next, true)
    ensures r.output + [next.lastSent] == b.output + LoggedSince(b.channel, next)
  {
    SendAllSnoc(b.channel, fault, ne, command);
    SendAllExtendsLog(b.channel, fault, ne);
    SendSuccess(r.channel, fault, command);
    LoggedSinceSnoc(b.channel, r.channel, next, next.lastSent);
  }

  /** While nothing has failed, a non-empty piece is sent. */
  lemma SendWhileClear(b: Batch, fault: FaultOracle, ne: seq<string>, r: Batch, command: string)
    requires SentUpTo(b, fault, ne, r) && r.notSent == [] && Trim(command) != ""
    ensures SentUpTo(b, fault, ne + [command], Step(r, fault, command))
  {
    AllSentElim(b, fault, ne, r);
    var (next, ok) := Send(r.channel, fault, command);
    var ne' := ne + [command];
    if ok {
      SendAccepted(b, fault, ne, r, command, next);
      AllSentIntro(b, fault, ne', Batch(next, r.output + [next.lastSent], []));
    } else {
      assert ne'[..|ne|] == ne && ne'[|ne|] == command && ne'[|ne|..] == [command];
      StoppedIntro(b, fault, ne', Batch(next, r.output + [ErrorLine(command, next.lastError)], [command]), |ne|);
    }
  }

  /** Processing the pieces is sending the non-empty ones with `SendAll`, stopping at the first failure. */
  lemma {:induction false} StepsSendNonEmpty(b: Batch, fault: FaultOracle, commands: seq<string>)
    requires b.notSent == []
    ensures SentUpTo(b, fault, NonEmpty(commands), Steps(b, fault, commands))
    decreases |commands|
  {
    if commands == [] {
      assert LoggedSince(b.channel, b.channel) == [];
      assert SendAll(b.channel, fault, []) == (b.channel, true);
    } else {
      var front := commands[..|commands| - 1];
      var x := commands[|commands| - 1];
      StepsSendNonEmpty(b, fault, front);
      var rf := Steps(b, fault, front);
      if Trim(x) == "" {
      } else if rf.notSent != [] {
        QueueAfterFailure(b, fault, NonEmpty(front), rf, x);
      } else {
        SendWhileClear(b, fault, NonEmpty(front), rf, x);
      }
    }
  }

  /** Whatever happens, the robot receives exactly what sending the non-empty pieces in order would send: nothing after the first failure. */
  lemma ProcessSendsNonEmptyPieces(b: Batch, fault: FaultOracle, commands: seq<string>)
    requires b.notSent == []
    ensures Steps(b, fault, commands).channel == SendAll(b.channel, fault, NonEmpty(commands)).0
    ensures Steps(b, fault, commands).notSent == [] <==> SendAll(b.channel, fault, NonEmpty(commands)).1
  {
    StepsSendNonEmpty(b, fault, commands);
    var ne := NonEmpty(commands);
    var r := Steps(b, fault, commands);
    if r.notSent != [] {
      SendAllStopsAtFailure(b.channel, fault, ne, |ne| - |r.notSent|);
    } else {
      assert ne[..|ne|] == ne;
    }
  }

  /**
   * When every non-empty piece is accepted, the command line is cleared and the
   * history box gains the canonical form of each of them, in order.
   */
  lemma ProcessAllAccepted(b: Batch, fault: FaultOracle, commands: seq<string>)
    requires b.notSent == [] && SendAll(b.channel, fault, NonEmpty(commands)).1
    ensures var ne := NonEmpty(commands);
      var r := Steps(b, fault, commands);
      CommandLineAfter(r) == ""
      && (forall i :: 0 <= i < |ne| ==> CorrectMessage(ne[i]).Success?)
      && |r.output| == |b.output| + |ne|
      && r.output[..|b.output|] == b.output
      && (forall i :: 0 <= i < |ne| ==> r.output[|b.output| + i] == CorrectMessage(ne[i]).value)
  {
    var ne := NonEmpty(commands);
    var r := Steps(b, fault, commands);
    ProcessSendsNonEmptyPieces(b, fault, commands);
    StepsSendNonEmpty(b, fault, commands);
    SendAllLog(b.channel, fault, ne);
  }

  /**
   * When a piece fails, the command line keeps exactly the non-empty pieces from
   * the failing one on, joined with ", ", and the history box ends with its error line.
   */
  lemma ProcessKeepsUnsent(b: Batch, fault: FaultOracle, commands: seq<string>) returns (k: nat)
    requires b.notSent == [] && !SendAll(b.channel, fault, NonEmpty(commands)).1
    ensures var ne := NonEmpty(commands);
      k < |ne| && SendAll(b.channel, fault, ne[..k]).1
      && !Send(SendAll(b.channel, fault, ne[..k]).0, fault, ne[k]).1
    ensures var ne := NonEmpty(commands);
      var r := Steps(b, fault, commands);
      k < |ne| && r.notSent == ne[k..]
      && CommandLineAfter(r) == Join(ne[k..], CommandSeparator)
      && |r.output| > 0 && r.output[|r.output| - 1] == ErrorLine(ne[k], r.channel.lastError)
  {
    ProcessSendsNonEmptyPieces(b, fault, commands);
    StepsSendNonEmpty(b, fault, commands);
    var r := Steps(b, fault, commands);
    k := StoppedElim(b, fault, NonEmpty(commands), r);
  }

  /** Pieces that are empty after trimming change nothing: an empty line or ",,," leaves the line and the output empty. */
  lemma {:induction false} EmptyPiecesIgnored(b: Batch, fault: FaultOracle, commands: seq<string>)
    requires forall i :: 0 <= i < |commands| ==> Trim(commands[i]) == ""
    ensures Steps(b, fault, commands) == b
    ensures NonEmpty(commands) == []
    decreases |commands|
  {
    if commands != [] {
      EmptyPiecesIgnored(b, fault, commands[..|commands| - 1]);
    }
  }

  /** A command line of nothing but commas and white space sends nothing and leaves the line and the output as they were. */
  lemma BlankScriptIgnored(b: Batch, fault: FaultOracle, roboScript: string)
    requires forall i :: 0 <= i < |roboScript| ==> roboScript[i] == ',' || IsWhiteSpace(roboScript[i])
    ensures Steps(b, fault, ParseRoboScript(roboScript)) == b
  {
    var parts := Split(roboScript, ',');
    var commands := ParseRoboScript(roboScript);
    forall i | 0 <= i < |commands| ensures Trim(commands[i]) == "" {
      forall j | 0 <= j < |parts[i]| ensures IsWhiteSpace(parts[i][j]) {
        JoinContainsParts(parts, [','], i, parts[i][j]);
      }
      TrimEmptyIff(parts[i]);
      TrimIdempotent(parts[i]);
    }
    EmptyPiecesIgnored(b, fault, commands);
  }

  /** The blank command lines of the processor's unit tests: the empty line and a line of commas only. */
  lemma BlankLineExamples(b: Batch, fault: FaultOracle, commas: nat)
    ensures Steps(b, fault, ParseRoboScript("")) == b
    ensures Steps(b, fault, ParseRoboScript(seq(commas, _ => ','))) == b
  {
    BlankScriptIgnored(b, fault, "");
    BlankScriptIgnored(b, fault, seq(commas, _ => ','));
  }

  // ---------------------------------------------------------------------------
  // The object

  /**
   * `GenerateCommandLine`: the commands with ", " between them. The loop puts the
   * separator in front of every command, then the leading one is removed.
   */
  method GenerateCommandLine(commands: seq<string>) returns (result: string)
    ensures result == Join(commands, CommandSeparator)
  {
    result := "";
    for i := 0 to |commands|
      invariant i == 0 ==> result == ""
      invariant i > 0 ==> result == CommandSeparator + Join(commands[..i], CommandSeparator)
    {
      if i > 0 {
        JoinSnoc(commands[..i], CommandSeparator, commands[i]);
      } else {
        assert Join(commands[..1], CommandSeparator) == commands[0];
      }
      assert commands[..i + 1] == commands[..i] + [commands[i]];
      result := result + CommandSeparator + commands[i];
    }
    if |result| > 0 {
      result := result[|CommandSeparator|..];
      assert commands[..|commands|] == commands;
    }
  }

  class CommandProcessor {
    /** The command-line text box. */
    var commandLineText: string
    /** The texts appended to the history box, one per call. */
    var historyBox: seq<string>
    const commandHistory: History.CommandHistory
    const communicationHelper: CommunicationHelper

    constructor(commandLineText: string, communicationHelper: CommunicationHelper, commandHistory: History.CommandHistory)
      ensures this.commandLineText == commandLineText && historyBox == []
      ensures this.communicationHelper == communicationHelper && this.commandHistory == commandHistory
    {
      this.commandLineText := commandLineText;
      historyBox := [];
      this.communicationHelper := communicationHelper;
      this.commandHistory := commandHistory;
    }

    /** The body of the `foreach` loop of `ProcessCommand`, for one piece of the command line. */
    method ProcessPiece(command: string, notSentCommands: seq<string>) returns (stillNotSent: seq<string>)
      modifies this, communicationHelper
      ensures Batch(communicationHelper.State(), historyBox, stillNotSent)
           == Step(Batch(old(communicationHelper.State()), old(historyBox), notSentCommands), communicationHelper.fault, command)
      ensures commandLineText == old(commandLineText)
      ensures communicationHelper.repetitions == old(communicationHelper.repetitions)
    {
      stillNotSent := notSentCommands;
      if Trim(command) == "" {
        return;
      }
      if |notSentCommands| > 0 {
        stillNotSent := notSentCommands + [command];
      } else {
        ghost var before := Batch(communicationHelper.State(), historyBox, notSentCommands);
        var sendResult := communicationHelper.SendMessageToRobot(command);
        StepSends(before, communicationHelper.fault, command, communicationHelper.State(), sendResult);
        if sendResult {
          historyBox := historyBox + [communicationHelper.lastSentMessage];
        } else {
          historyBox := historyBox + [ErrorLine(command, communicationHelper.lastErrorMessage)];
          stillNotSent := [command];
        }
      }
    }

    /** The `foreach` loop of `ProcessCommand` over the pieces of the command line. */
    method ProcessPieces(commands: seq<string>) returns (notSentCommands: seq<string>)
      modifies this, communicationHelper
      ensures Batch(communicationHelper.State(), historyBox, notSentCommands)
           == Steps(Batch(old(communicationHelper.State()), old(historyBox), []), communicationHelper.fault, commands)
      ensures commandLineText == old(commandLineText)
      ensures communicationHelper.repetitions == old(communicationHelper.repetitions)
    {
      notSentCommands := [];
      ghost var start := Batch(communicationHelper.State(), historyBox, []);
      ghost var fault := communicationHelper.fault;
      for i := 0 to |commands|
        invariant Steps(start, fault, commands[..i]) == Batch(communicationHelper.State(), historyBox, notSentCommands)
        invariant commandLineText == old(commandLineText)
        invariant communicationHelper.repetitions == old(communicationHelper.repetitions)
      {
        StepsSnoc(start, fault, commands, i);
        notSentCommands := ProcessPiece(commands[i], notSentCommands);
      }
      assert commands[..|commands|] == commands;
    }

    /** `ProcessCommand`. */
    method ProcessCommand()
      requires History.Valid(commandHistory.State())
      modifies this, commandHistory, communicationHelper
      ensures History.Valid(commandHistory.State())
      ensures commandHistory.State() == History.Added(old(commandHistory.State()), old(commandLineText))
      ensures var r := Steps(Batch(old(communicationHelper.State()), old(historyBox), []),
                             communicationHelper.fault, ParseRoboScript(old(commandLineText)));
        communicationHelper.State() == r.channel && historyBox == r.output && commandLineText == CommandLineAfter(r)
      ensures communicationHelper.repetitions == old(communicationHelper.repetitions)
    {
      commandHistory.Add(commandLineText);
      var commands := ParseRoboScript(commandLineText);
      var notSentCommands := ProcessPieces(commands);
      if |notSentCommands| > 0 {
        commandLineText := GenerateCommandLine(notSentCommands);
      } else {
        commandLineText := "";
      }
    }

    /** `SelectPreviousCommand`: the previous history entry replaces the command line. */
    method SelectPreviousCommand()
      requires History.Valid(commandHistory.State())
      modifies this, commandHistory
      ensures (commandHistory.State(), commandLineText) == History.Previous(old(commandHistory.State()))
      ensures History.Valid(commandHistory.State()) && historyBox == old(historyBox)
    {
      commandLineText := commandHistory.GetPreviousCommand();
    }

    /** `SelectNextCommand`: the next history entry replaces the command line. */
    method SelectNextCommand()
      requires History.Valid(commandHistory.State())
      modifies this, commandHistory
      ensures (commandHistory.State(), commandLineText) == History.Next(old(commandHistory.State()))
      ensures History.Valid(commandHistory.State()) && historyBox == old(historyBox)
    {
      commandLineText := commandHistory.GetNextCommand();
    }
  }
}
