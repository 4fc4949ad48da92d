/**
 * The flashlight (FlashlightHelper): a flag saying whether the light is on and
 * the command that sets it, which every operation sends three times per
 * repetition of the sending layer, ignoring the result of each send.
 */
module Flashlight {
  import opened Communication
  import opened Messages
  import opened Wrappers

  const TurnOnCommand := "I0001"
  const TurnOffCommand := "I0000"

  /** The command that puts the light into the given state. */
  function CommandFor(on: bool): string {
    if on then TurnOnCommand else TurnOffCommand
  }

  /** How many copies each operation sends: three per repetition of the sending layer. */
  function Copies(repetitions: nat): nat {
    3 * repetitions
  }

  /** Both commands are canonical protocol messages, and they differ only in their value, 1 for on and 0 for off. */
  lemma CommandsCanonical(on: bool)
    ensures CorrectMessage(CommandFor(on)) == Success(CommandFor(on))
    ensures ParseMessage(CommandFor(on)) == Success(('I', if on then 1 else 0))
    ensures CommandFor(on) != CommandFor(!on)
  {
    var m := CommandFor(on);
    Hex4Digits(0, 0, 0, 0, 0);
    Hex4Digits(1, 0, 0, 0, 1);
    assert m == MakeMessage('I', if on then 1 else 0);
    ParseMakeRoundTrip('I', if on then 1 else 0);
  }

  /** With no transport failure, an operation logs 3·R copies of the command for the new state. */
  lemma OperationLog(c: Channel, fault: FaultOracle, on: bool, repetitions: nat)
    requires NoFaults(fault, c.attempts, Copies(repetitions))
    ensures var next := SendEach(c, fault, Repeat(CommandFor(on), Copies(repetitions)));
      next.transmitted == c.transmitted + Repeat(CommandFor(on), Copies(repetitions))
      && next.attempts == c.attempts + Copies(repetitions)
  {
    CommandsCanonical(on);
    SendEachRepeatNoFault(c, fault, CommandFor(on), Copies(repetitions));
  }

  class FlashlightHelper {
    var flashlightTurnedOn: bool
    var flashlightCommand: string
    const communicationHelper: CommunicationHelper

    constructor(communicationHelper: CommunicationHelper)
      ensures this.communicationHelper == communicationHelper
      ensures !flashlightTurnedOn && flashlightCommand == ""
    {
      this.communicationHelper := communicationHelper;
      flashlightTurnedOn := false;
      flashlightCommand := "";
    }

    /** The loop shared by the three operations: 3·R sends of the current command. */
    method SendFlashlightCommand()
      modifies communicationHelper
      ensures communicationHelper.State()
           == SendEach(old(communicationHelper.State()), communicationHelper.fault, Repeat(flashlightCommand, Copies(communicationHelper.repetitions)))
      ensures communicationHelper.repetitions == old(communicationHelper.repetitions)
    {
      var start := communicationHelper.State();
      var fault := communicationHelper.fault;
      for i := 0 to communicationHelper.repetitions
        invariant communicationHelper.repetitions == old(communicationHelper.repetitions)
        invariant communicationHelper.State() == SendEach(start, fault, Repeat(flashlightCommand, 3 * i))
      {
        SendEachRepeat(start, fault, flashlightCommand, 3 * i);
        SendEachRepeat(start, fault, flashlightCommand, 3 * i + 1);
        SendEachRepeat(start, fault, flashlightCommand, 3 * i + 2);
        var _ := communicationHelper.SendMessageToRobot(flashlightCommand);
        var _ := communicationHelper.SendMessageToRobot(flashlightCommand);
        var _ := communicationHelper.SendMessageToRobot(flashlightCommand);
      }
    }

    /** `TurnOn`. */
    method TurnOn()
      modifies this, communicationHelper
      ensures flashlightTurnedOn && flashlightCommand == TurnOnCommand && flashlightCommand == CommandFor(flashlightTurnedOn)
      ensures communicationHelper.State()
           == SendEach(old(communicationHelper.State()), communicationHelper.fault, Repeat(TurnOnCommand, Copies(communicationHelper.repetitions)))
      ensures communicationHelper.repetitions == old(communicationHelper.repetitions)
    {
      flashlightCommand := TurnOnCommand;
      flashlightTurnedOn := true;
      SendFlashlightCommand();
    }

    /** `TurnOff`. */
    method TurnOff()
      modifies this, communicationHelper
      ensures !flashlightTurnedOn && flashlightCommand == TurnOffCommand && flashlightCommand == CommandFor(flashlightTurnedOn)
      ensures communicationHelper.State()
           == SendEach(old(communicationHelper.State()), communicationHelper.fault, Repeat(TurnOffCommand, Copies(communicationHelper.repetitions)))
      ensures communicationHelper.repetitions == old(communicationHelper.repetitions)
    {
      flashlightCommand := TurnOffCommand;
      flashlightTurnedOn := false;
      SendFlashlightCommand();
    }

    /** `Switch`: the command is chosen from the state before the flip, the flag flips whatever the sends do. */
    method Switch()
      modifies this, communicationHelper
      ensures flashlightTurnedOn == !old(flashlightTurnedOn)
      ensures flashlightCommand == (if old(flashlightTurnedOn) then TurnOffCommand else TurnOnCommand)
      ensures flashlightCommand == CommandFor(flashlightTurnedOn)
      ensures communicationHelper.State()
           == SendEach(old(communicationHelper.State()), communicationHelper.fault, Repeat(flashlightCommand, Copies(communicationHelper.repetitions)))
      ensures communicationHelper.repetitions == old(communicationHelper.repetitions)
    {
      if flashlightTurnedOn {
        flashlightCommand := TurnOffCommand;
      } else {
        flashlightCommand := TurnOnCommand;
      }
      flashlightTurnedOn := !flashlightTurnedOn;
      SendFlashlightCommand();
    }
  }
}
