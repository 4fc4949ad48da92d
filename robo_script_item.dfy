/**
 * One of the ten stored RoboScripts (RoboScriptItem). A script's text starts with
 * an "r01xx" message, where xx is the slot number; the stored text always gets
 * the item's own slot number, and the item has a matching "r00xx" play command.
 */
module Scripts {
  import opened Wrappers
  import Messages
  import Communication
  import opened ClrArith

  const MaxRoboScriptNumber: Byte := 9

  /** `ToString("X2")` on a byte: two upper-case hex digits. */
  function Hex2(n: Byte): (s: string)
    ensures |s| == 2 && Messages.AllUpperHex(s)
    ensures Messages.AllHex(s) && Messages.HexValue(s) == n
  {
    var s := [Messages.HexChar(n / 16), Messages.HexChar(n % 16)];
    assert s[..1] == [s[0]];
    assert Messages.HexValue(s[..1]) == n / 16;
    s
  }

  /** `String.Insert(index, value)`. */
  function Insert(s: string, index: nat, value: string): string
    requires index <= |s|
  {
    s[..index] + value + s[index..]
  }

  /** `String.Remove(index, count)`. */
  function Remove(s: string, index: nat, count: nat): string
    requires index + count <= |s|
  {
    s[..index] + s[index + count..]
  }

  /** Whether a text is accepted as a script: at least one message long and starting with "r01". */
  predicate IsScriptText(value: string) {
    |value| >= Communication.MessageLength && value[..3] == "r01"
  }

  /** What `SetRoboScript` stores for slot n: the script text and the play command. */
  function Stored(value: string, n: Byte): (string, string) {
    if IsScriptText(value) then
      var numberHex := Hex2(n);
      (Remove(Insert(value, Communication.MessageLength - 2, numberHex), Communication.MessageLength, 2), "r00" + numberHex)
    else ("", "")
  }

  // ---------------------------------------------------------------------------
  // Properties

  /** An accepted text keeps its length and its characters, except that positions 3 and 4 become the slot number. */
  lemma StoredScript(value: string, n: Byte)
    requires IsScriptText(value)
    ensures var (script, play) := Stored(value, n);
      |script| == |value|
      && script[3..5] == Hex2(n)
      && (forall i :: 0 <= i < |value| && i != 3 && i != 4 ==> script[i] == value[i])
      && play == "r00" + Hex2(n)
      && IsScriptText(script)
  {
    var (script, play) := Stored(value, n);
    assert script == value[..3] + Hex2(n) + value[5..];
  }

  /** Any other text clears both. */
  lemma StoredOther(value: string, n: Byte)
    requires !IsScriptText(value)
    ensures Stored(value, n) == ("", "")
  {
  }

  /** The stored script is empty exactly when the play command is. */
  lemma StoredEmptyIff(value: string, n: Byte)
    ensures Stored(value, n).0 == "" <==> Stored(value, n).1 == ""
  {
    if IsScriptText(value) {
      StoredScript(value, n);
    }
  }

  /** Storing a stored script again changes nothing: the slot digits the input carried do not matter. */
  lemma StoredIdempotent(value: string, n: Byte)
    ensures Stored(Stored(value, n).0, n) == Stored(value, n)
  {
    var (script, play) := Stored(value, n);
    if IsScriptText(value) {
      StoredScript(value, n);
      StoredScript(script, n);
      var again := Stored(script, n).0;
      assert again == script;
    }
  }

  /** An accepted text is its first three characters, the slot number, and the text from position 5 on. */
  lemma StoredShape(value: string, n: Byte)
    requires IsScriptText(value)
    ensures Stored(value, n) == (value[..3] + Hex2(n) + value[5..], "r00" + Hex2(n))
  {
    var inserted := Insert(value, 3, Hex2(n));
    assert inserted[..5] == value[..3] + Hex2(n);
    assert inserted[7..] == value[5..];
  }

  /** The item of the unit test: slot 5 and a script written for slot 0, whatever follows its first message. */
  lemma StoredExample(rest: string)
    ensures Stored("r0100" + rest, 5) == ("r0105" + rest, "r0005")
  {
    var value := "r0100" + rest;
    assert value[..3] == "r01" && value[5..] == rest;
    StoredShape(value, 5);
    assert Hex2(5) == "05";
    assert value[..3] + Hex2(5) + value[5..] == "r0105" + rest;
    assert "r00" + Hex2(5) == "r0005";
  }

  // ---------------------------------------------------------------------------
  // The object

  class RoboScriptItem {
    const roboScriptNumber: Byte
    /** `RoboScript`; "" until the first `SetRoboScript`. */
    var roboScript: string
    var playCommand: string
    var wasSent: bool

    constructor(roboScriptNumber: Byte)
      requires roboScriptNumber <= MaxRoboScriptNumber
      ensures this.roboScriptNumber == roboScriptNumber
      ensures roboScript == "" && playCommand == "" && !wasSent
    {
      this.roboScriptNumber := roboScriptNumber;
      roboScript := "";
      playCommand := "";
      wasSent := false;
    }

    /** `IsEmpty`. */
    predicate IsEmpty()
      reads this
    {
      roboScript == ""
    }

    /** `SetRoboScript`. */
    method SetRoboScript(value: string)
      modifies this
      ensures (roboScript, playCommand) == Stored(value, roboScriptNumber)
      ensures wasSent == old(wasSent)
    {
      if |value| >= Communication.MessageLength && value[..3] == "r01" {
        var numberHex := Hex2(roboScriptNumber);
        roboScript := value;
        roboScript := Insert(roboScript, Communication.MessageLength - 2, numberHex);
        roboScript := Remove(roboScript, Communication.MessageLength, 2);
        playCommand := "r00" + numberHex;
      } else {
        roboScript := "";
        playCommand := "";
      }
    }
  }

  /** The constructor's range check: a slot number above 9 is an `ArgumentOutOfRangeException`. */
  method NewRoboScriptItem(roboScriptNumber: Byte) returns (r: Result<RoboScriptItem, string>)
    ensures r.Failure? <==> roboScriptNumber > MaxRoboScriptNumber
    ensures r.Failure? ==> r.error == "roboScriptNumber"
    ensures r.Success? ==> fresh(r.value) && r.value.roboScriptNumber == roboScriptNumber && r.value.IsEmpty()
  {
    if roboScriptNumber < 0 || roboScriptNumber > MaxRoboScriptNumber {
      return Failure("roboScriptNumber");
    }
    var item := new RoboScriptItem(roboScriptNumber);
    return Success(item);
  }
}
