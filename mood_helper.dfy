/**
 * The robot's moods and gestures (MoodHelper). Each mood and gesture is a
 * non-recurrent send: a command followed by its void companion, R times each,
 * where R is the repetition count of the sending layer.
 */
module Moods {
  import opened Communication
  import opened Messages
  import opened Wrappers
  import Settings
  import Look

  /** The moods of the robot. */
  datatype Mood = Normal | Happy | Blue | Angry | Disaster

  /** The void companion of every mood command. */
  const VoidMoodCommand := "M0000"
  /** The face shown when the robot is ready to play, and the one for depression. */
  const ReadyToPlayCommand := "M0102"
  const DepressionCommand := "M0103"

  /** The value a mood command carries: 1 for Normal up to 5 for Disaster. */
  function MoodValue(mood: Mood): nat {
    match mood
    case Normal => 1
    case Happy => 2
    case Blue => 3
    case Angry => 4
    case Disaster => 5
  }

  /** `GenerateMoodCommand`. */
  function GenerateMoodCommand(mood: Mood): string {
    match mood
    case Normal => "M0001"
    case Happy => "M0002"
    case Blue => "M0003"
    case Angry => "M0004"
    case Disaster => "M0005"
  }

  /** The mood a received mood command stands for, if any. */
  function MoodOfCommand(command: string): Option<Mood> {
    match ParseMessage(command)
    case Success(('M', 1)) => Some(Normal)
    case Success(('M', 2)) => Some(Happy)
    case Success(('M', 3)) => Some(Blue)
    case Success(('M', 4)) => Some(Angry)
    case Success(('M', 5)) => Some(Disaster)
    case _ => None
  }

  /** Every mood command is the canonical 'M' message carrying the mood's value, so the codec passes it unchanged. */
  lemma MoodCommandCanonical(mood: Mood)
    ensures GenerateMoodCommand(mood) == MakeMessage('M', MoodValue(mood))
    ensures ParseMessage(GenerateMoodCommand(mood)) == Success(('M', MoodValue(mood)))
    ensures CorrectMessage(GenerateMoodCommand(mood)) == Success(GenerateMoodCommand(mood))
  {
    LiteralCommand('M', 0, 0, 0, MoodValue(mood));
  }

  /** Decoding a mood command gives the mood back, so distinct moods have distinct commands and none is the void one. */
  lemma MoodCommandRoundTrip(mood: Mood)
    ensures MoodOfCommand(GenerateMoodCommand(mood)) == Some(mood)
    ensures GenerateMoodCommand(mood) != VoidMoodCommand
  {
    MoodCommandCanonical(mood);
  }

  lemma MoodCommandInjective(a: Mood, b: Mood)
    ensures GenerateMoodCommand(a) == GenerateMoodCommand(b) <==> a == b
  {
    MoodCommandRoundTrip(a);
    MoodCommandRoundTrip(b);
  }

  /** The void command decodes to no mood. */
  lemma VoidIsNoMood()
    ensures MoodOfCommand(VoidMoodCommand) == None
    ensures CorrectMessage(VoidMoodCommand) == Success(VoidMoodCommand)
  {
    LiteralCommand('M', 0, 0, 0, 0);
  }

  /** The gestures: a command and its void companion. */
  datatype Gesture = WagTail | ShowYes | ShowNo

  function GestureCommands(gesture: Gesture): (string, string) {
    match gesture
    case WagTail => ("t0002", "t0000")
    case ShowYes => ("y0002", "y0000")
    case ShowNo => ("n0002", "n0000")
  }

  /** Each gesture sends value 2 and then value 0 on its own identifier, and the codec passes both unchanged. */
  lemma GestureCommandsCanonical(gesture: Gesture)
    ensures var (command, voidCommand) := GestureCommands(gesture);
      var identifier := command[0];
      voidCommand[0] == identifier
      && ParseMessage(command) == Success((identifier, 2)) && CorrectMessage(command) == Success(command)
      && ParseMessage(voidCommand) == Success((identifier, 0)) && CorrectMessage(voidCommand) == Success(voidCommand)
  {
    var (command, voidCommand) := GestureCommands(gesture);
    LiteralCommand(command[0], 0, 0, 0, 2);
    LiteralCommand(command[0], 0, 0, 0, 0);
  }

  /** The three gestures use three different identifiers. */
  lemma GesturesDistinct(a: Gesture, b: Gesture)
    ensures GestureCommands(a).0[0] == GestureCommands(b).0[0] <==> a == b
  {
  }

  /** With no transport failure, setting a mood logs its command R times followed by "M0000" R times. */
  lemma SetMoodLog(c: Channel, fault: FaultOracle, mood: Mood, repetitions: nat)
    requires NoFaults(fault, c.attempts, 2 * repetitions)
    ensures var (next, ok) := SendAll(c, fault, NonrecurrentPlan(GenerateMoodCommand(mood), VoidMoodCommand, repetitions));
      ok && next.attempts == c.attempts + 2 * repetitions
      && next.transmitted == c.transmitted + Repeat(GenerateMoodCommand(mood), repetitions) + Repeat(VoidMoodCommand, repetitions)
  {
    MoodCommandCanonical(mood);
    VoidIsNoMood();
    NonrecurrentNoFault(c, fault, GenerateMoodCommand(mood), VoidMoodCommand, repetitions);
  }

  /** With no transport failure, a gesture logs its command R times followed by its void companion R times. */
  lemma GestureLog(c: Channel, fault: FaultOracle, gesture: Gesture, repetitions: nat)
    requires NoFaults(fault, c.attempts, 2 * repetitions)
    ensures var (command, voidCommand) := GestureCommands(gesture);
      var (next, ok) := SendAll(c, fault, NonrecurrentPlan(command, voidCommand, repetitions));
      ok && next.attempts == c.attempts + 2 * repetitions
      && next.transmitted == c.transmitted + Repeat(command, repetitions) + Repeat(voidCommand, repetitions)
  {
    var (command, voidCommand) := GestureCommands(gesture);
    GestureCommandsCanonical(gesture);
    NonrecurrentNoFault(c, fault, command, voidCommand, repetitions);
  }

  /** The two faces shown by `ShowReadyToPlay` and `ShowDepression` are mood messages but stand for no mood of the enumeration. */
  lemma FacesAreNoMood()
    ensures CorrectMessage(ReadyToPlayCommand) == Success(ReadyToPlayCommand) && ParseMessage(ReadyToPlayCommand) == Success(('M', 0x102))
    ensures CorrectMessage(DepressionCommand) == Success(DepressionCommand) && ParseMessage(DepressionCommand) == Success(('M', 0x103))
    ensures MoodOfCommand(ReadyToPlayCommand) == None && MoodOfCommand(DepressionCommand) == None
  {
    LiteralCommand('M', 0, 1, 0, 2);
    LiteralCommand('M', 0, 1, 0, 3);
  }

  // ---------------------------------------------------------------------------
  // The object

  class MoodHelper {
    var mood: Mood
    const communicationHelper: CommunicationHelper
    const controlSettings: Settings.ControlSettings

    constructor(communicationHelper: CommunicationHelper, controlSettings: Settings.ControlSettings)
      ensures this.communicationHelper == communicationHelper && this.controlSettings == controlSettings
      ensures mood == Normal
    {
      this.communicationHelper := communicationHelper;
      this.controlSettings := controlSettings;
      mood := Normal;
    }

    /** `SetMood`: the mood changes whatever the send's outcome. */
    method SetMood(mood: Mood)
      modifies this, communicationHelper
      ensures this.mood == mood
      ensures communicationHelper.State()
           == SendAll(old(communicationHelper.State()), communicationHelper.fault,
                      NonrecurrentPlan(GenerateMoodCommand(mood), VoidMoodCommand, old(communicationHelper.repetitions))).0
      ensures communicationHelper.repetitions == old(communicationHelper.repetitions)
    {
      var command := GenerateMoodCommand(mood);
      var _ := communicationHelper.SendNonrecurrentMessageToRobot(command, VoidMoodCommand);
      this.mood := mood;
    }

    /** `WagTail`, `ShowYes` and `ShowNo`: the gesture's pair is sent and the mood stays. */
    method ShowGesture(gesture: Gesture)
      modifies communicationHelper
      ensures communicationHelper.State()
           == SendAll(old(communicationHelper.State()), communicationHelper.fault,
                      NonrecurrentPlan(GestureCommands(gesture).0, GestureCommands(gesture).1, old(communicationHelper.repetitions))).0
      ensures communicationHelper.repetitions == old(communicationHelper.repetitions)
    {
      var (command, voidCommand) := GestureCommands(gesture);
      var _ := communicationHelper.SendNonrecurrentMessageToRobot(command, voidCommand);
    }

    method WagTail()
      modifies communicationHelper
      ensures communicationHelper.State()
           == SendAll(old(communicationHelper.State()), communicationHelper.fault,
                      NonrecurrentPlan("t0002", "t0000", old(communicationHelper.repetitions))).0
      ensures communicationHelper.repetitions == old(communicationHelper.repetitions)
    {
      ShowGesture(Gesture.WagTail);
    }

    method ShowYes()
      modifies communicationHelper
      ensures communicationHelper.State()
           == SendAll(old(communicationHelper.State()), communicationHelper.fault,
                      NonrecurrentPlan("y0002", "y0000", old(communicationHelper.repetitions))).0
      ensures communicationHelper.repetitions == old(communicationHelper.repetitions)
    {
      ShowGesture(Gesture.ShowYes);
    }

    method ShowNo()
      modifies communicationHelper
      ensures communicationHelper.State()
           == SendAll(old(communicationHelper.State()), communicationHelper.fault,
                      NonrecurrentPlan("n0002", "n0000", old(communicationHelper.repetitions))).0
      ensures communicationHelper.repetitions == old(communicationHelper.repetitions)
    {
      ShowGesture(Gesture.ShowNo);
    }

    /** The face part of `ShowReadyToPlay` and `ShowDepression`: the face and "M0000" are sent and the mood is set. */
    method ShowFace(face: string, newMood: Mood)
      modifies this, communicationHelper
      ensures mood == newMood
      ensures communicationHelper.State()
           == SendAll(old(communicationHelper.State()), communicationHelper.fault,
                      NonrecurrentPlan(face, VoidMoodCommand, old(communicationHelper.repetitions))).0
      ensures communicationHelper.repetitions == old(communicationHelper.repetitions)
    {
      var _ := communicationHelper.SendNonrecurrentMessageToRobot(face, VoidMoodCommand);
      mood := newMood;
    }

    /**
     * The face, then a fixed look that keeps the head's horizontal degree and
     * sets the vertical one. The look helper may talk through this helper's
     * sending layer or through another one; `start` is where its sends begin.
     */
    method ShowFaceAndLook(face: string, newMood: Mood, lookHelper: Look.LookHelper, verticalDegree: int)
        returns (error: Option<CodecError>)
      modifies this, communicationHelper, lookHelper, lookHelper.communicationHelper
      ensures mood == newMood
      ensures var sent := SendAll(old(communicationHelper.State()), communicationHelper.fault,
                                  NonrecurrentPlan(face, VoidMoodCommand, old(communicationHelper.repetitions))).0;
        var start := if lookHelper.communicationHelper == communicationHelper then sent else old(lookHelper.communicationHelper.State());
        (lookHelper.communicationHelper != communicationHelper ==> communicationHelper.State() == sent)
        && (lookHelper.communicationHelper.State(), lookHelper.horizontalServoCommand, lookHelper.verticalServoCommand, error)
           == Look.FixedLookSends(start, lookHelper.communicationHelper.fault,
                                  old(lookHelper.horizontalServoCommand), old(lookHelper.verticalServoCommand),
                                  old(lookHelper.fixedLookX), verticalDegree)
      ensures lookHelper.horizontalFixedControl && lookHelper.verticalFixedControl
      ensures lookHelper.fixedLookX == old(lookHelper.fixedLookX) && lookHelper.fixedLookY == verticalDegree
      ensures lookHelper.lookX == 0.0 && lookHelper.lookY == 0.0 && lookHelper.fastModeOn == old(lookHelper.fastModeOn)
      ensures communicationHelper.repetitions == old(communicationHelper.repetitions)
      ensures lookHelper.communicationHelper.repetitions == old(lookHelper.communicationHelper.repetitions)
    {
      ShowFace(face, newMood);
      error := lookHelper.FixedLook(lookHelper.fixedLookX, verticalDegree);
    }

    /** `ShowReadyToPlay`: the ready-to-play face, Normal mood, and the head raised to the ready-to-play degree. */
    method ShowReadyToPlay(lookHelper: Look.LookHelper) returns (error: Option<CodecError>)
      modifies this, communicationHelper, lookHelper, lookHelper.communicationHelper
      ensures mood == Normal
      ensures var sent := SendAll(old(communicationHelper.State()), communicationHelper.fault,
                                  NonrecurrentPlan(ReadyToPlayCommand, VoidMoodCommand, old(communicationHelper.repetitions))).0;
        var start := if lookHelper.communicationHelper == communicationHelper then sent else old(lookHelper.communicationHelper.State());
        (lookHelper.communicationHelper != communicationHelper ==> communicationHelper.State() == sent)
        && (lookHelper.communicationHelper.State(), lookHelper.horizontalServoCommand, lookHelper.verticalServoCommand, error)
           == Look.FixedLookSends(start, lookHelper.communicationHelper.fault,
                                  old(lookHelper.horizontalServoCommand), old(lookHelper.verticalServoCommand),
                                  old(lookHelper.fixedLookX), controlSettings.verticalReadyToPlayDegree)
      ensures lookHelper.horizontalFixedControl && lookHelper.verticalFixedControl
      ensures lookHelper.fixedLookX == old(lookHelper.fixedLookX) && lookHelper.fixedLookY == controlSettings.verticalReadyToPlayDegree
      ensures lookHelper.lookX == 0.0 && lookHelper.lookY == 0.0
    {
      error := ShowFaceAndLook(ReadyToPlayCommand, Normal, lookHelper, controlSettings.verticalReadyToPlayDegree);
    }

    /** `ShowDepression`: the depression face, Blue mood, and the head lowered to the minimum vertical degree in force. */
    method ShowDepression(lookHelper: Look.LookHelper) returns (error: Option<CodecError>)
      modifies this, communicationHelper, lookHelper, lookHelper.communicationHelper
      ensures mood == Blue
      ensures var sent := SendAll(old(communicationHelper.State()), communicationHelper.fault,
                                  NonrecurrentPlan(DepressionCommand, VoidMoodCommand, old(communicationHelper.repetitions))).0;
        var start := if lookHelper.communicationHelper == communicationHelper then sent else old(lookHelper.communicationHelper.State());
        (lookHelper.communicationHelper != communicationHelper ==> communicationHelper.State() == sent)
        && (lookHelper.communicationHelper.State(), lookHelper.horizontalServoCommand, lookHelper.verticalServoCommand, error)
           == Look.FixedLookSends(start, lookHelper.communicationHelper.fault,
                                  old(lookHelper.horizontalServoCommand), old(lookHelper.verticalServoCommand),
                                  old(lookHelper.fixedLookX), old(controlSettings.vertical.minimum))
      ensures lookHelper.horizontalFixedControl && lookHelper.verticalFixedControl
      ensures lookHelper.fixedLookX == old(lookHelper.fixedLookX) && lookHelper.fixedLookY == old(controlSettings.vertical.minimum)
      ensures lookHelper.lookX == 0.0 && lookHelper.lookY == 0.0
    {
      error := ShowFaceAndLook(DepressionCommand, Blue, lookHelper, controlSettings.vertical.minimum);
    }
  }
}
