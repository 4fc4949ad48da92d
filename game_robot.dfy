/**
 * The parts of the game window (GameRobot) that decide what is sent or shown:
 * playing a stored RoboScript, the gun's charge bar and key-edge detection.
 */
module Game {
  import opened Communication
  import opened ClrArith
  import Scripts

  /** The number of characters of the charge bar and the percentage each one stands for. */
  const BarLength := 20
  const PercentStep := 5

  /** `PercentToText` as a value: character i is '+' exactly when (i + 1) * 5 <= percent. */
  function ChargeBar(percent: int): (bar: string)
    ensures |bar| == BarLength
  {
    seq(BarLength, i requires 0 <= i < BarLength => if (i + 1) * PercentStep <= percent then '+' else '-')
  }

  /** The '+' signs form a prefix whose length is the number of whole steps the charge covers, at most 20. */
  lemma ChargeBarPrefix(percent: int)
    requires percent >= 0
    ensures forall i :: 0 <= i < BarLength ==> (ChargeBar(percent)[i] == '+' <==> i < Min(BarLength, percent / PercentStep))
    ensures forall i :: 0 <= i < BarLength ==> ChargeBar(percent)[i] in {'+', '-'}
  {
    forall i | 0 <= i < BarLength
      ensures ChargeBar(percent)[i] == '+' <==> i < Min(BarLength, percent / PercentStep)
    {
      var q := percent / PercentStep;
      assert percent == q * PercentStep + percent % PercentStep;
      if i < q {
        assert (i + 1) * PercentStep <= q * PercentStep;
      } else {
        assert (i + 1) * PercentStep >= (q + 1) * PercentStep;
      }
    }
  }

  /** A full charge fills the bar; less than one step leaves it empty. */
  lemma ChargeBarEnds(percent: int)
    ensures percent >= 100 ==> ChargeBar(percent) == seq(BarLength, _ => '+')
    ensures percent < PercentStep ==> ChargeBar(percent) == seq(BarLength, _ => '-')
  {
  }

  /** `PercentToText`: the loop that accumulates the bar one character at a time. */
  method PercentToText(percent: int) returns (result: string)
    ensures result == ChargeBar(percent)
  {
    result := "";
    for i := 0 to 100 / PercentStep
      invariant |result| == i
      invariant forall j :: 0 <= j < i ==> result[j] == ChargeBar(percent)[j]
    {
      var endPercent := (i + 1) * PercentStep;
      if endPercent <= percent {
        result := result + "+";
      } else {
        result := result + "-";
      }
    }
  }

  /** A keyboard state: the set of keys that are down. */
  type KeyboardState = set<nat>

  /** What `PlayRoboScript` does to the sending state: upload the script the first time, then play it; nothing for an empty item. */
  function Played(c: Channel, fault: FaultOracle, roboScript: string, playCommand: string, wasSent: bool): Channel {
    if roboScript == "" then c
    else
      var uploaded := if wasSent then c else SendAll(c, fault, ParseRoboScript(roboScript)).0;
      Send(uploaded, fault, playCommand).0
  }

  /** Once an item has been marked as sent, playing it again only sends the play command, whatever the upload's outcome was. */
  lemma PlayedAgain(c: Channel, fault: FaultOracle, roboScript: string, playCommand: string)
    requires roboScript != ""
    ensures Played(c, fault, roboScript, playCommand, true) == Send(c, fault, playCommand).0
    ensures var next := Played(c, fault, roboScript, playCommand, true);
      c.transmitted <= next.transmitted && |next.transmitted| <= |c.transmitted| + 1
  {
    SendExtendsLog(c, fault, playCommand);
  }

  /** The first activation sends the script's pieces before the play command; the log only grows. */
  lemma PlayedFirst(c: Channel, fault: FaultOracle, roboScript: string, playCommand: string)
    requires roboScript != ""
    ensures var uploaded := SendAll(c, fault, ParseRoboScript(roboScript)).0;
      Played(c, fault, roboScript, playCommand, false) == Send(uploaded, fault, playCommand).0
      && c.transmitted <= uploaded.transmitted
      && uploaded.transmitted <= Played(c, fault, roboScript, playCommand, false).transmitted
  {
    var uploaded := SendAll(c, fault, ParseRoboScript(roboScript)).0;
    SendAllExtendsLog(c, fault, ParseRoboScript(roboScript));
    SendExtendsLog(uploaded, fault, playCommand);
  }

  class GameRobot {
    var previousKeyboardState: KeyboardState
    const communicationHelper: CommunicationHelper

    constructor(communicationHelper: CommunicationHelper)
      ensures this.communicationHelper == communicationHelper && previousKeyboardState == {}
    {
      this.communicationHelper := communicationHelper;
      previousKeyboardState := {};
    }

    /** `IsKeyChangedToDown`: the key is down now and was up in the previous state. */
    predicate IsKeyChangedToDown(keyboardState: KeyboardState, key: nat)
      reads this
    {
      key in keyboardState && key !in previousKeyboardState
    }

    /** `IsKeyChangedToUp`: the key is up now and was down in the previous state. */
    predicate IsKeyChangedToUp(keyboardState: KeyboardState, key: nat)
      reads this
    {
      key !in keyboardState && key in previousKeyboardState
    }

    /** The two edges are exclusive, and a key whose state did not change has neither. */
    lemma KeyEdges(keyboardState: KeyboardState, key: nat)
      ensures !(IsKeyChangedToDown(keyboardState, key) && IsKeyChangedToUp(keyboardState, key))
      ensures (IsKeyChangedToDown(keyboardState, key) || IsKeyChangedToUp(keyboardState, key))
              <==> ((key in keyboardState) != (key in previousKeyboardState))
      ensures IsKeyChangedToDown(keyboardState, key) <==> key in keyboardState && !(key in previousKeyboardState)
    {
    }

    /** `PlayRoboScript`. */
    method PlayRoboScript(roboScriptItem: Scripts.RoboScriptItem)
      modifies roboScriptItem, communicationHelper
      ensures communicationHelper.State()
           == Played(old(communicationHelper.State()), communicationHelper.fault,
                     roboScriptItem.roboScript, roboScriptItem.playCommand, old(roboScriptItem.wasSent))
      ensures roboScriptItem.wasSent == (old(roboScriptItem.wasSent) || !roboScriptItem.IsEmpty())
      ensures roboScriptItem.roboScript == old(roboScriptItem.roboScript)
      ensures roboScriptItem.playCommand == old(roboScriptItem.playCommand)
      ensures communicationHelper.repetitions == old(communicationHelper.repetitions)
    {
      if !roboScriptItem.IsEmpty() {
        if !roboScriptItem.wasSent {
          var _ := communicationHelper.SendRoboScriptToRobot(roboScriptItem.roboScript);
          roboScriptItem.wasSent := true;
        }
        var _ := communicationHelper.SendMessageToRobot(roboScriptItem.playCommand);
      }
    }
  }
}
