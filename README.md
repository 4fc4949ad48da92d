# Robot remote control: message codec, sending layer and actuator helpers

This project models the control core of a remote-controlled robot, in Dafny.
The desktop program drives the robot by sending it short text messages. Each
message is one identifier character followed by a 16-bit value in four
upper-case hex digits, for example `L00FF` for "left motors at speed 255".

The model covers these layers:

- **Codec** (`Messages`, file `message_helper.dfy`). It checks messages and
  brings them to canonical form. A short message such as `I1`, a lower-case
  one such as `If84a` or a signed one such as `I-1974` is rewritten to its
  five-character form (`I0001`, `IF84A`, `IE68C`). A message with a missing
  identifier, a hex digit as identifier, an oversized value or non-digits is
  rejected with the codec's error.
- **Sending layer** (`Communication`). `SendMessageToRobot` corrects a message,
  hands it to the transport and records `LastSentMessage` or
  `LastErrorMessage`. Non-recurrent messages are sent R times, followed by an
  optional "void" companion R times. A RoboScript (a comma-separated list of
  messages) is sent piece by piece. Every run stops at the first failure.
  The transport is an oracle: a function that says whether transport attempt
  number k throws. The model keeps a log of every message the transport
  accepted.
- **Console** (`History`, `Processor`). The command history with its cursor,
  and the command processor. The processor splits a typed line into
  messages, sends them, writes each result to the history box, and puts the
  unsent remainder back on the command line after a failure.
- **Actuator helpers**:
  - `Drive`: keyboard and stick driving, the non-linear speed correction and
    turbo scaling.
  - `Look`: the head servos. This covers the stick mapped from circle to
    square, fixed looks, continuous turns and the "look forward" nudge.
  - `Gun`: charge percentage and firing.
  - `Flashlight`.
  - `Moods`: moods, gestures and faces.
  - `Scripts`: stored RoboScripts.
- **Game window** (`Game`): playing a stored script, the charge bar and
  key-edge detection.

C# arithmetic is written out in `ClrArith`:
- integer division truncated toward zero;
- the unchecked `(short)` cast;
- `Convert.ToInt32`/`Convert.ToByte` rounding, which sends ties to the even
  neighbour.

`String.Trim`, `Split` and `Join` are in `Text`. The settings the helpers read
are in `Settings`.

Imperative source code is modelled as classes whose methods change fields:
the sending layer, the history, the processor and the helpers. Each such
method is specified by a function of the old state: `Send`, `SendAll`,
`SendEach`, `Steps`, `Previous`, `Next`, `Stored`, `Played` and
`FixedLookSends`. Lemmas about those functions carry the properties.

## Model

| member | source | states |
|---|---|---|
| ClrArith.TruncDiv | RoboWindow/RoboControl/RoboControl/DriveHelper.cs:475-481 | C#'s `int` division: the quotient's magnitude is the floor of the magnitudes' quotient, and its sign is the product of the operands' signs (truncation toward zero) |
| ClrArith.TruncDivNeg | RoboWindow/RoboControl/RoboControl/DriveHelper.cs:475-481 | negating the dividend negates the truncated quotient |
| ClrArith.Wrap16 | RoboWindow/RoboCommon/MessageHelper.cs:100-103 | the `(short)` cast gives the short congruent to its argument modulo 2^16, and it is the identity on the short range |
| ClrArith.RoundHalfEvenNearest | RoboWindow/RoboControl/RoboControl/GunHelper.cs:79-80 | the rational `Convert.ToByte` rounding is within one half of n/d, and a tie goes to the even neighbour |
| ClrArith.RealRoundHalfEven | RoboWindow/RoboControl/RoboControl/LookHelper.cs:541-545 | `Convert.ToInt32(double)`: the result is within one half of the argument, and a tie goes to the even neighbour |
| ClrArith.RealRoundWithin | RoboWindow/RoboControl/RoboControl/DriveHelper.cs:462-468 | rounding never leaves an interval whose end points are integers |
| Text.LeadingSpace | RoboWindow/RoboCommon/CommunicationHelper.cs:103-106 | the length of the longest white-space prefix: everything before it is white space and the next character is not |
| Text.TrailingSpace | RoboWindow/RoboCommon/CommunicationHelper.cs:103-106 | the same for the longest white-space suffix |
| Text.Trim | RoboWindow/RoboCommon/CommunicationHelper.cs:103-106 | the trimmed text is empty or starts and ends with a non-white-space character; `TrimSlice` and `TrimEmptyIff` state which text it is |
| Text.TrimSlice | RoboWindow/RoboCommon/CommunicationHelper.cs:103-106 | a non-empty trimmed text is the slice of the input right after its white-space prefix, and only white space follows it: nothing but the white-space ends is removed |
| Text.TrimEmptyIff | RoboWindow/RoboCommon/CommunicationHelper.cs:103-106 | trimming gives "" exactly when the input is all white space |
| Text.TrimIdempotent | RoboWindow/RoboCommon/CommunicationHelper.cs:103-106 | trimming twice is trimming once |
| Text.Split | RoboWindow/RoboCommon/CommunicationHelper.cs:103-106 | there is one more piece than there are separators, no piece contains the separator, and joining the pieces with the separator gives the input back |
| Text.JoinSnoc | RoboWindow/RoboConsole/CommandProcessor.cs:151-166 | joining one more part appends the separator and that part |
| Text.JoinContainsParts | RoboWindow/RoboCommon/CommunicationHelper.cs:103-106 | every character of a part occurs in the joined text |
| Messages.DigitValue | RoboWindow/RoboCommon/MessageHelper.cs:91-98 | a hex digit denotes a value below 16 |
| Messages.HexChar | RoboWindow/RoboCommon/MessageHelper.cs:112-115 | the digit `X` formatting writes for d is upper case and denotes d |
| Messages.ToUnsigned16 | RoboWindow/RoboCommon/MessageHelper.cs:91-98 | a short's 16-bit pattern is below 2^16 and congruent to the short modulo 2^16 |
| Messages.ToSigned16 | RoboWindow/RoboCommon/MessageHelper.cs:91-98 | it is the inverse of `ToUnsigned16` on 0..65535 |
| Messages.Hex4 | RoboWindow/RoboCommon/MessageHelper.cs:112-115 | `X4` writes four upper-case hex digits that denote the short's 16-bit pattern |
| Messages.IntToMessageValue | RoboWindow/RoboCommon/MessageHelper.cs:53-62 | it succeeds exactly for values in the short range and gives four upper-case hex digits; otherwise it is the out-of-range exception |
| Messages.ExtractIdentifier | RoboWindow/RoboCommon/MessageHelper.cs:136-153 | an empty message and a hex digit in first position are the two errors; otherwise the first character |
| Messages.ExtractValueText | RoboWindow/RoboCommon/MessageHelper.cs:160-168 | an empty message is an error; otherwise the identifier followed by the value text is the message |
| Messages.ToUpper | RoboWindow/RoboCommon/MessageHelper.cs:73 | upper-casing works character by character and keeps the length |
| Messages.ParseHexShort | RoboWindow/RoboCommon/MessageHelper.cs:91-98 | `TryParse` with `HexNumber` succeeds exactly on a non-empty run of hex digits whose value is below 2^16; the short it returns has that value as its 16-bit pattern |
| Messages.MakeMessage | RoboWindow/RoboCommon/MessageHelper.cs:112-115 | a made message has identifier length plus value length characters |
| Messages.UpperCharHex | RoboWindow/RoboCommon/MessageHelper.cs:73 | upper-casing keeps hex digits and their values, leaves upper-case digits alone and never makes or removes a sign |
| Messages.HexValueUpper | RoboWindow/RoboCommon/MessageHelper.cs:73 | upper-casing hex text keeps its value |
| Messages.ParseHexOfHex4 | RoboWindow/RoboCommon/MessageHelper.cs:91-98 | parsing what `X4` wrote gives the short back |
| Messages.ToUpperOfHex4 | RoboWindow/RoboCommon/MessageHelper.cs:114 | the digits `X4` writes are already upper case |
| Messages.ParseMakeRoundTrip | RoboWindow/RoboCommon/MessageHelper.cs:70-115 | round trip: parsing a made message gives back its identifier and value |
| Messages.CorrectMessageOfMade | RoboWindow/RoboCommon/MessageHelper.cs:123-129 | correcting a made message leaves it unchanged |
| Messages.LiteralCommand | RoboWindow/RoboCommon/MessageHelper.cs:123-129 | a five-character command spelled digit by digit is the made message of the value it denotes, parses to that value and is left unchanged by correction |
| Messages.CorrectMessageCanonical | RoboWindow/RoboCommon/MessageHelper.cs:123-129 | a corrected message has five characters: the input's identifier, which is not a hex digit, and four upper-case hex digits |
| Messages.CorrectMessageIdempotent | RoboWindow/RoboCommon/MessageHelper.cs:123-129 | correcting twice is correcting once |
| Messages.CorrectMessageOfCanonical | RoboWindow/RoboCommon/MessageHelper.cs:123-129 | a message already in five-character canonical form parses to its identifier and the short its digits denote, and correction leaves it unchanged |
| Messages.ParseEmptyValue | RoboWindow/RoboCommon/MessageHelper.cs:75-78 | an identifier alone parses as value 0 |
| Messages.ParseUnsignedValue | RoboWindow/RoboCommon/MessageHelper.cs:91-98 | unsigned value text parses exactly when it is hex digits of at most 16 bits, which then give the value's 16-bit pattern; otherwise it is the bad-value error |
| Messages.ParsePlusSign | RoboWindow/RoboCommon/MessageHelper.cs:86-89 | a leading '+' is ignored |
| Messages.ParseMinusSign | RoboWindow/RoboCommon/MessageHelper.cs:80-103 | a leading '-' negates the parsed value with 16-bit wrap-around, or fails as the unsigned text does |
| Messages.HexValueOfFour | RoboWindow/RoboCommon/MessageHelper.cs:91-98 | four hex digits are evaluated positionally |
| Messages.Hex4Digits | RoboWindow/RoboCommon/MessageHelper.cs:114 | `X4` writes the digits of the value's 16-bit pattern, most significant first |
| Messages.Hex4OfDigits | RoboWindow/RoboCommon/MessageHelper.cs:114 | any four upper-case hex digits are what `X4` writes for the short they denote |
| Messages.CanonicalExamples | RoboWindow/RoboCommonTest/MessageHelperTest.cs:91-104 | `I1234` and `IF84A` are left as they are |
| Messages.LowerCaseExample | RoboWindow/RoboCommonTest/MessageHelperTest.cs:111-114 | `If84a` becomes `IF84A` |
| Messages.Parse1234Example | RoboWindow/RoboCommonTest/MessageHelperTest.cs:91-94 | `I1234` parses to ('I', 0x1234) |
| Messages.ParsePlus1234Example | RoboWindow/RoboCommonTest/MessageHelperTest.cs:121-124 | `I+1234` parses to ('I', 0x1234) |
| Messages.PlusSignExample | RoboWindow/RoboCommonTest/MessageHelperTest.cs:121-124 | `I+1234` becomes `I1234` |
| Messages.Parse1974Example | RoboWindow/RoboCommonTest/MessageHelperTest.cs:141-144 | `I1974` parses to ('I', 0x1974) |
| Messages.ParseE68CExample | RoboWindow/RoboCommonTest/MessageHelperTest.cs:131-134 | `IE68C` parses to ('I', -0x1974) |
| Messages.ParseMinus1974Example | RoboWindow/RoboCommonTest/MessageHelperTest.cs:131-134 | `I-1974` parses to ('I', -0x1974) |
| Messages.ParseMinusE68CExample | RoboWindow/RoboCommonTest/MessageHelperTest.cs:141-144 | `I-E68C` parses to ('I', 0x1974) |
| Messages.MinusSignExample | RoboWindow/RoboCommonTest/MessageHelperTest.cs:131-134 | `I-1974` becomes `IE68C` |
| Messages.MinusNegativeExample | RoboWindow/RoboCommonTest/MessageHelperTest.cs:141-144 | `I-E68C` becomes `I1974` |
| Messages.IdentifierErrorExamples | RoboWindow/RoboCommonTest/MessageHelperTest.cs:32-54 | "" is the empty-message error and `F0000` the bad-identifier error |
| Messages.OverflowExample | RoboWindow/RoboCommonTest/MessageHelperTest.cs:42-44 | `I12345` is the bad-value error |
| Messages.LettersExample | RoboWindow/RoboCommonTest/MessageHelperTest.cs:62-64 | `Ioooo` is the bad-value error |
| Messages.InnerSignExamples | RoboWindow/RoboCommonTest/MessageHelperTest.cs:72-84 | `I00-00` and `I00+00` are bad-value errors |
| Communication.Outcomes | RoboWindow/RoboCommon/CommunicationHelper.cs:217-231 | one codec outcome per message of a plan |
| Communication.Repeat | RoboWindow/RoboCommon/CommunicationHelper.cs:166-190 | n copies of the message |
| Communication.ParseRoboScript | RoboWindow/RoboCommon/CommunicationHelper.cs:103-106 | there is one piece more than the script has commas |
| Communication.ParseRoboScriptPieces | RoboWindow/RoboCommon/CommunicationHelper.cs:103-106 | no piece contains a comma, and every piece is empty or has no white space at either end |
| Communication.SplitTrailingSeparator | RoboWindow/RoboCommon/CommunicationHelper.cs:103-106 | text ending in a separator splits with an empty last piece |
| Communication.TrailingCommaFails | RoboWindow/RoboCommon/CommunicationHelper.cs:217-231 | a script ending in a comma has an empty last piece, which the codec rejects, so its upload reports failure |
| Communication.CorrectedMessageLength | RoboWindow/RoboCommon/CommunicationHelper.cs:37 | an accepted message becomes five characters (messageLength) and keeps its identifier |
| Communication.SendRejected | RoboWindow/RoboCommon/CommunicationHelper.cs:125-145 | a message the codec rejects is not transmitted: the result is false, LastErrorMessage holds the codec's text, and nothing else changes |
| Communication.SendTransportFailure | RoboWindow/RoboCommon/CommunicationHelper.cs:125-145 | a transport exception gives false and records its text; LastSentMessage and the log are unchanged, and one attempt is used |
| Communication.SendSuccess | RoboWindow/RoboCommon/CommunicationHelper.cs:125-145 | a send succeeds exactly when the codec and the transport accept; it then logs exactly the corrected message, which becomes LastSentMessage, and LastErrorMessage is kept |
| Communication.SendExtendsLog | RoboWindow/RoboCommon/CommunicationHelper.cs:125-145 | a send only appends to the log, at most one message |
| Communication.DeliverAllAppend | RoboWindow/RoboCommon/CommunicationHelper.cs:166-190 | running two batches of outcomes is running the first, then the second only if the first went through |
| Communication.DeliverAllSuccess | RoboWindow/RoboCommon/CommunicationHelper.cs:166-190 | a batch goes through exactly when the codec accepted every message and the transport accepts as many attempts |
| Communication.DeliverAllLog | RoboWindow/RoboCommon/CommunicationHelper.cs:166-190 | after a batch that went through, the log is extended by exactly the corrected messages, in order, one attempt each |
| Communication.DeliverAllExtendsLog | RoboWindow/RoboCommon/CommunicationHelper.cs:166-190 | a batch only appends to the log, at most one message per outcome |
| Communication.SendAllAppend | RoboWindow/RoboCommon/CommunicationHelper.cs:166-190 | sending p + q is sending p, then q only if p went through |
| Communication.SendAllSnoc | RoboWindow/RoboCommon/CommunicationHelper.cs:166-190 | one more message at the end is sent only if the rest went through |
| Communication.SendAllSuccess | RoboWindow/RoboCommon/CommunicationHelper.cs:166-190 | a plan goes through exactly when the codec accepts every message and the transport every attempt |
| Communication.SendAllLog | RoboWindow/RoboCommon/CommunicationHelper.cs:166-190 | after a plan that went through, each message's canonical form is logged in order, one attempt each |
| Communication.SendAllStopsAtFailure | RoboWindow/RoboCommon/CommunicationHelper.cs:170-176 | a plan that fails at message k ends in the state of that failing send: nothing after it is attempted |
| Communication.SendAllExtendsLog | RoboWindow/RoboCommon/CommunicationHelper.cs:166-190 | a plan only appends to the log, at most one message per entry |
| Communication.SendEachSnoc | RoboWindow/RoboControl/RoboControl/FlashlightHelper.cs:95-100 | sending one more message while ignoring results sends it after the others whatever they did |
| Communication.SendEachPair | RoboWindow/RoboControl/RoboControl/DriveHelper.cs:397-407 | two sends whose results are ignored are applied one after the other |
| Communication.SendEachAppend | RoboWindow/RoboControl/RoboControl/FlashlightHelper.cs:95-100 | ignoring results, sending p + q is sending p then q |
| Communication.SendEachAgreesWithSendAll | RoboWindow/RoboCommon/CommunicationHelper.cs:166-190 | when nothing fails, ignoring results and stopping at the first failure reach the same state |
| Communication.SendEachAttempts | RoboWindow/RoboControl/RoboControl/FlashlightHelper.cs:95-100 | with results ignored, every accepted message reaches the transport; the log only grows, by at most one per message |
| Communication.SendEachRepeat | RoboWindow/RoboControl/RoboControl/GunHelper.cs:99-104 | one more copy of a repeated message is one more send at the end |
| Communication.NoFaultsSplit | RoboWindow/RoboCommon/CommunicationHelper.cs:166-190 | a run of attempts the transport accepts splits into two consecutive runs |
| Communication.SendAllRepeatNoFault | RoboWindow/RoboCommon/CommunicationHelper.cs:170-176 | an accepted message repeated while the transport does not fail goes through |
| Communication.SendEachRepeatNoFault | RoboWindow/RoboControl/RoboControl/GunHelper.cs:99-104 | a canonical message repeated n times with no transport failure is logged n times, one attempt each |
| Communication.SendEachTwoRunsNoFault | RoboWindow/RoboControl/RoboControl/GunHelper.cs:99-111 | two canonical messages repeated n times each with no transport failure are logged as sent |
| Communication.SendAllNoFault | RoboWindow/RoboCommon/CommunicationHelper.cs:166-190 | canonical messages sent with no transport failure all go through and are logged in order, one attempt each |
| Communication.SendEachNoFault | RoboWindow/RoboControl/RoboControl/DriveHelper.cs:397-407 | the same when the results are ignored |
| Communication.SendAllRepeatLog | RoboWindow/RoboCommon/CommunicationHelper.cs:170-176 | a repeated message that went through was accepted, and its canonical form is logged n times |
| Communication.NonrecurrentSuccess | RoboWindow/RoboCommon/CommunicationHelper.cs:166-190 | after a non-recurrent send that went through, the log holds R copies of the message's canonical form, then R copies of the void message's unless it is empty |
| Communication.NonrecurrentNoFault | RoboWindow/RoboCommon/CommunicationHelper.cs:166-190 | with canonical messages and no transport failure, a non-recurrent send goes through and logs both runs, using 2R attempts |
| Communication.CommunicationHelper.constructor | RoboWindow/RoboCommon/CommunicationHelper.cs:45-50 | nothing sent, no attempts, both message properties empty, R and the transport as given |
| Communication.CommunicationHelper.TransmitMessage | RoboWindow/RoboCommon/CommunicationHelper.cs:274 | one transport attempt, decided by the oracle; on success the message is logged as given, without correction |
| Communication.CommunicationHelper.CorrectMessage2 | RoboWindow/RoboCommon/CommunicationHelper.cs:252-265 | true with the canonical form exactly when the codec accepts; otherwise "" and the codec's error text in LastErrorMessage; nothing is transmitted |
| Communication.CommunicationHelper.SendMessageToRobot | RoboWindow/RoboCommon/CommunicationHelper.cs:125-145 | the new state and the result are those of `Send` (see its lemmas) |
| Communication.CommunicationHelper.SendRepeatedly | RoboWindow/RoboCommon/CommunicationHelper.cs:170-176 | the loop sends the message n times and returns false at the first failure, as `SendAll` of n copies |
| Communication.CommunicationHelper.SendNonrecurrentMessageToRobot | RoboWindow/RoboCommon/CommunicationHelper.cs:166-190 | state and result are `SendAll` of the message R times, then the void message R times unless it is empty |
| Communication.CommunicationHelper.SendNonrecurrentMessageToRobotWithoutVoid | RoboWindow/RoboCommon/CommunicationHelper.cs:207-210 | the one-argument overload sends R copies of the message, stopping at the first failure |
| Communication.CommunicationHelper.SendRoboScriptToRobot | RoboWindow/RoboCommon/CommunicationHelper.cs:217-231 | the script's trimmed pieces are sent in order, stopping at the first failure |
| History.OperationsKeepValid | RoboWindow/RoboConsole/CommandHistory.cs:35-84 | adding and both navigations keep the cursor within 0..count; navigation leaves the list unchanged, and adding appends the command |
| History.EmptyNavigation | RoboWindow/RoboConsoleTest/CommandHistoryTest.cs:30-39 | with an empty history both navigations return "" and change nothing |
| History.PreviousClampsAtOldest | RoboWindow/RoboConsole/CommandHistory.cs:47-61 | at the oldest entry, "previous" stays there and returns it again |
| History.PreviousSelects | RoboWindow/RoboConsole/CommandHistory.cs:47-61 | "previous" moves the cursor back one place, but not below 0, and returns the entry there |
| History.NextPastNewest | RoboWindow/RoboConsole/CommandHistory.cs:69-84 | past the newest entry, "next" parks the cursor after the list and returns "" |
| History.PreviousAfterAdd | RoboWindow/RoboConsole/CommandHistory.cs:35-61 | right after adding a command, "previous" returns it |
| History.NextUndoesPrevious | RoboWindow/RoboConsole/CommandHistory.cs:47-84 | "next" after "previous" restores the cursor |
| History.PreviousUndoesNext | RoboWindow/RoboConsole/CommandHistory.cs:47-84 | "previous" after "next" restores the cursor while "next" stayed inside the list |
| History.PreviousScenario | RoboWindow/RoboConsoleTest/CommandHistoryTest.cs:45-72 | after adding A0001..A0003, the previous commands are A0003, A0002, A0001, A0001 |
| History.NextScenario | RoboWindow/RoboConsoleTest/CommandHistoryTest.cs:78-99 | after adding two commands and going back twice, "next" returns A0002, then "" |
| History.CommandHistory.constructor | RoboWindow/RoboConsole/CommandHistory.cs:22-27 | an empty history with the cursor at 0 |
| History.CommandHistory.Add | RoboWindow/RoboConsole/CommandHistory.cs:35-39 | the new state is `Added` of the old one and stays valid |
| History.CommandHistory.GetPreviousCommand | RoboWindow/RoboConsole/CommandHistory.cs:47-61 | state and result are `Previous` of the old state |
| History.CommandHistory.GetNextCommand | RoboWindow/RoboConsole/CommandHistory.cs:69-84 | state and result are `Next` of the old state |
| Processor.NonEmpty | RoboWindow/RoboConsole/CommandProcessor.cs:85-88 | no kept piece trims to "", and there are at most as many kept pieces as pieces; `NonEmptyKeeps`, `NonEmptySubMultiset` and `NonEmptyAppend` state which pieces are kept |
| Processor.NonEmptySubMultiset | RoboWindow/RoboConsole/CommandProcessor.cs:85-88 | the filter adds nothing: the kept pieces are a sub-multiset of the pieces |
| Processor.NonEmptyKeeps | RoboWindow/RoboConsole/CommandProcessor.cs:85-88 | every piece that does not trim to "" is kept |
| Processor.NonEmptyAppend | RoboWindow/RoboConsole/CommandProcessor.cs:85-88 | the filter keeps the order: the kept pieces of a + b are those of a followed by those of b |
| Processor.StepsSendNonEmpty | RoboWindow/RoboConsole/CommandProcessor.cs:75-120 | the loop's invariant: the non-empty pieces are sent while nothing has failed; the first failure is written to the history box as an error line, and it and every later piece are queued unsent |
| Processor.ProcessSendsNonEmptyPieces | RoboWindow/RoboConsole/CommandProcessor.cs:79-107 | the loop sends the non-empty pieces, stopping at the first failure, and leaves nothing unsent exactly when they all went through |
| Processor.ProcessAllAccepted | RoboWindow/RoboConsole/CommandProcessor.cs:97-119 | when every piece went through, the command line is cleared and the history box gains each piece's canonical form in order |
| Processor.ProcessKeepsUnsent | RoboWindow/RoboConsole/CommandProcessor.cs:91-119 | after the first failing piece k, pieces k.. are put back on the command line, joined by ", ", and the error line for piece k is the last line of the history box |
| Processor.EmptyPiecesIgnored | RoboWindow/RoboConsole/CommandProcessor.cs:85-88 | pieces that trim to "" change nothing |
| Processor.BlankScriptIgnored | RoboWindow/RoboConsole/CommandProcessor.cs:85-88 | a line of commas and white space sends nothing and writes nothing |
| Processor.BlankLineExamples | RoboWindow/RoboConsoleTest/CommandProcessorTest.cs:138-175 | "" and a line of commas only change nothing |
| Processor.GenerateCommandLine | RoboWindow/RoboConsole/CommandProcessor.cs:151-166 | the loop's result is the commands joined by ", " |
| Processor.CommandProcessor.constructor | RoboWindow/RoboConsole/CommandProcessor.cs:60-70 | the command line as given, an empty history box, and the given helpers |
| Processor.CommandProcessor.ProcessPiece | RoboWindow/RoboConsole/CommandProcessor.cs:85-107 | one iteration of the loop is `Step`: skip a blank piece, queue it after a failure, otherwise send it and write the result line |
| Processor.CommandProcessor.ProcessPieces | RoboWindow/RoboConsole/CommandProcessor.cs:81-110 | the loop over the pieces leaves the sending state, the history box and the unsent pieces that `Steps` gives from an empty queue; the command line is untouched |
| Processor.CommandProcessor.ProcessCommand | RoboWindow/RoboConsole/CommandProcessor.cs:75-120 | the line is added to the history; the sending state, the history box and the new command line are those of the loop over the line's pieces (see the lemmas above) |
| Processor.CommandProcessor.SelectPreviousCommand | RoboWindow/RoboConsole/CommandProcessor.cs:126-130 | the command line becomes the history's previous command |
| Processor.CommandProcessor.SelectNextCommand | RoboWindow/RoboConsole/CommandProcessor.cs:136-140 | the command line becomes the history's next command |
| Scripts.Hex2 | RoboWindow/RoboControl/RoboControl/RoboScriptItem.cs:78-98 | `X2` on a byte: two upper-case hex digits denoting it |
| Scripts.StoredScript | RoboWindow/RoboControl/RoboControl/RoboScriptItem.cs:78-98 | an accepted text keeps its length and every character except positions 3 and 4, which become the slot number; the play command is "r00" and the slot number; the result is again a script text |
| Scripts.StoredOther | RoboWindow/RoboControl/RoboControl/RoboScriptItem.cs:78-98 | any other text clears the script and the play command |
| Scripts.StoredEmptyIff | RoboWindow/RoboControl/RoboControl/RoboScriptItem.cs:66-98 | the stored script is empty exactly when the play command is |
| Scripts.StoredIdempotent | RoboWindow/RoboControl/RoboControl/RoboScriptItem.cs:78-98 | storing the stored script again changes nothing |
| Scripts.StoredShape | RoboWindow/RoboControl/RoboControl/RoboScriptItem.cs:78-98 | an accepted text becomes its first three characters, the slot number and the rest from position 5 |
| Scripts.StoredExample | RoboWindow/RoboControlTest/RoboScriptItemTest.cs:56-63 | slot 5 and a script for slot 0 give "r0105…" and "r0005" |
| Scripts.RoboScriptItem.constructor | RoboWindow/RoboControl/RoboControl/RoboScriptItem.cs:33-41 | the slot as given, no script, no play command, not sent |
| Scripts.RoboScriptItem.SetRoboScript | RoboWindow/RoboControl/RoboControl/RoboScriptItem.cs:78-98 | script and play command become `Stored` of the text; `WasSent` is kept |
| Scripts.NewRoboScriptItem | RoboWindow/RoboControl/RoboControl/RoboScriptItem.cs:35-38 | a slot number above 9 is the out-of-range exception; otherwise a fresh empty item for that slot |
| Flashlight.CommandsCanonical | RoboWindow/RoboControl/RoboControl/FlashlightHelper.cs:151-164 | `I0001` and `I0000` are canonical, carry value 1 and 0, and differ |
| Flashlight.OperationLog | RoboWindow/RoboControl/RoboControl/FlashlightHelper.cs:89-101 | with no transport failure an operation logs its command 3R times |
| Flashlight.FlashlightHelper.constructor | RoboWindow/RoboControl/RoboControl/FlashlightHelper.cs:45-53 | off, no command yet |
| Flashlight.FlashlightHelper.SendFlashlightCommand | RoboWindow/RoboControl/RoboControl/FlashlightHelper.cs:95-100 | the loop sends the current command three times per repetition, ignoring results |
| Flashlight.FlashlightHelper.TurnOn | RoboWindow/RoboControl/RoboControl/FlashlightHelper.cs:89-101 | on, command `I0001`, sent 3R times |
| Flashlight.FlashlightHelper.TurnOff | RoboWindow/RoboControl/RoboControl/FlashlightHelper.cs:106-118 | off, command `I0000`, sent 3R times |
| Flashlight.FlashlightHelper.Switch | RoboWindow/RoboControl/RoboControl/FlashlightHelper.cs:123-135 | the state flips; the command is the one for the new state, sent 3R times |
| Gun.RoundedPercentRange | RoboWindow/RoboControl/RoboControl/GunHelper.cs:79-80 | a rounded share between −0.5 and 100 lies in 0..100 |
| Gun.RoundedNegativeShare | RoboWindow/RoboControl/RoboControl/GunHelper.cs:79-80 | a share between −0.5 and 0 rounds to 0, as `Convert.ToByte` does |
| Gun.ChargePercentRange | RoboWindow/RoboControl/RoboControl/GunHelper.cs:72-82 | whenever the charge percentage can be computed it lies in 0..100 |
| Gun.ChargeOverflowIff | RoboWindow/RoboControl/RoboControl/GunHelper.cs:79-80 | the percentage fails with the byte overflow exactly when the clock reads more than half a percent of the charge time before the last shot |
| Gun.ClockBehind | RoboWindow/RoboControl/RoboControl/GunHelper.cs:79-80 | a clock that has gone back by at most half a percent of the charge time gives 0 |
| Gun.RoundedFullIff | RoboWindow/RoboControl/RoboControl/GunHelper.cs:79-80 | the rounded percentage is 100 exactly when the ratio is at least 99.5 percent |
| Gun.ChargedIff | RoboWindow/RoboControl/RoboControl/GunHelper.cs:72-82 | the gun counts as charged exactly when 99.5 percent of the charge time has passed, because of rounding; a clock gone back never counts as charged |
| Gun.JustFired | RoboWindow/RoboControl/RoboControl/GunHelper.cs:79-80 | at the moment of a shot the charge is 0 |
| Gun.GunCommandsCanonical | RoboWindow/RoboControl/RoboControl/GunHelper.cs:99-111 | `s0001` and `s0000` are canonical and carry value 1 and 0 |
| Gun.ShotLog | RoboWindow/RoboControl/RoboControl/GunHelper.cs:99-111 | with no transport failure a shot logs `s0001` 3R times, then `s0000` 3R times |
| Gun.GunHelper.constructor | RoboWindow/RoboControl/RoboControl/GunHelper.cs:50-64 | no charge start time, so the gun starts charged |
| Gun.GunHelper.GetChargePercent | RoboWindow/RoboControl/RoboControl/GunHelper.cs:72-82 | the result is `ChargePercent` at the clock's reading, including its byte-overflow failure (see its lemmas) |
| Gun.GunHelper.SendThreeTimesPerRepetition | RoboWindow/RoboControl/RoboControl/GunHelper.cs:99-104 | the loop sends the message 3R times, ignoring results |
| Gun.GunHelper.Fire | RoboWindow/RoboControl/RoboControl/GunHelper.cs:87-114 | a failing charge check escapes before anything is sent; a charged gun sends the shot plan and restarts charging at the second clock reading; otherwise nothing happens |
| Gun.GunHelper.Shoot | RoboWindow/RoboControl/RoboControl/GunHelper.cs:99-113 | the fire commands 3R times, the reset commands 3R times, then the new charge start |
| Moods.MoodCommandCanonical | RoboWindow/RoboControl/RoboControl/MoodHelper.cs:198-215 | each mood command is the canonical 'M' message carrying the mood's number, and correction leaves it unchanged |
| Moods.MoodCommandRoundTrip | RoboWindow/RoboControl/RoboControl/MoodHelper.cs:198-215 | decoding a mood command gives the mood back, and no mood command is the void `M0000` |
| Moods.MoodCommandInjective | RoboWindow/RoboControl/RoboControl/MoodHelper.cs:198-215 | different moods have different commands |
| Moods.VoidIsNoMood | RoboWindow/RoboControl/RoboControl/MoodHelper.cs:121-128 | the void command `M0000` is canonical and stands for no mood |
| Moods.GestureCommandsCanonical | RoboWindow/RoboControl/RoboControl/MoodHelper.cs:133-152 | each gesture sends value 2 and then value 0 on one identifier, both canonical |
| Moods.GesturesDistinct | RoboWindow/RoboControl/RoboControl/MoodHelper.cs:133-152 | the three gestures use three different identifiers |
| Moods.SetMoodLog | RoboWindow/RoboControl/RoboControl/MoodHelper.cs:121-128 | with no transport failure, setting a mood logs its command R times, then `M0000` R times |
| Moods.GestureLog | RoboWindow/RoboControl/RoboControl/MoodHelper.cs:133-152 | the same for a gesture and its companion |
| Moods.FacesAreNoMood | RoboWindow/RoboControl/RoboControl/MoodHelper.cs:160-180 | the face commands `M0102` and `M0103` are canonical and are not mood commands |
| Moods.MoodHelper.constructor | RoboWindow/RoboControl/RoboControl/MoodHelper.cs:79-93 | the mood starts as Normal |
| Moods.MoodHelper.SetMood | RoboWindow/RoboControl/RoboControl/MoodHelper.cs:121-128 | the mood becomes the given one; its command and `M0000` are sent non-recurrently |
| Moods.MoodHelper.ShowGesture | RoboWindow/RoboControl/RoboControl/MoodHelper.cs:133-152 | a gesture's command and companion are sent non-recurrently |
| Moods.MoodHelper.WagTail | RoboWindow/RoboControl/RoboControl/MoodHelper.cs:133-136 | `t0002` then `t0000`, non-recurrently |
| Moods.MoodHelper.ShowYes | RoboWindow/RoboControl/RoboControl/MoodHelper.cs:141-144 | `y0002` then `y0000`, non-recurrently |
| Moods.MoodHelper.ShowNo | RoboWindow/RoboControl/RoboControl/MoodHelper.cs:149-152 | `n0002` then `n0000`, non-recurrently |
| Moods.MoodHelper.ShowFace | RoboWindow/RoboControl/RoboControl/MoodHelper.cs:160-180 | the face and `M0000` are sent non-recurrently and the mood is set |
| Moods.MoodHelper.ShowFaceAndLook | RoboWindow/RoboControl/RoboControl/MoodHelper.cs:160-180 | after the face, the head takes a fixed look at its current horizontal degree and the given vertical one; this holds whether or not the look helper sends through the same sending layer |
| Moods.MoodHelper.ShowReadyToPlay | RoboWindow/RoboControl/RoboControl/MoodHelper.cs:160-166 | `M0102` is sent, the mood becomes Normal, and the head looks at the ready-to-play vertical degree |
| Moods.MoodHelper.ShowDepression | RoboWindow/RoboControl/RoboControl/MoodHelper.cs:174-180 | `M0103` is sent, the mood becomes Blue, and the head looks at the lowest vertical degree |
| Drive.FloorSqrt | RoboWindow/RoboControl/RoboControl/DriveHelper.cs:170-185 | the integer square root rounded down: k² ≤ n < (k+1)² |
| Drive.NearestSqrt | RoboWindow/RoboControl/RoboControl/DriveHelper.cs:170-185 | the square root rounded to the nearest integer: (2k−1)² < 4n < (2k+1)² |
| Drive.NearestSqrtUnique | RoboWindow/RoboControl/RoboControl/DriveHelper.cs:170-185 | that characterisation has exactly one solution |
| Drive.NearestSqrtMonotone | RoboWindow/RoboControl/RoboControl/DriveHelper.cs:170-185 | the rounded square root is monotone |
| Drive.NonlinearSpeedCorrection | RoboWindow/RoboControl/RoboControl/DriveHelper.cs:170-185 | the corrected speed lies in −255..255 |
| Drive.NonlinearOdd | RoboWindow/RoboControl/RoboControl/DriveHelper.cs:170-185 | the correction is odd: reversing the speed reverses the result |
| Drive.NonlinearSign | RoboWindow/RoboControl/RoboControl/DriveHelper.cs:170-185 | the result is positive exactly for speeds in 1..509 and negative exactly for speeds in −509..−1 |
| Drive.NonlinearBoosts | RoboWindow/RoboControl/RoboControl/DriveHelper.cs:170-185 | on 0..255 the correction never lowers a speed, and full speed stays full |
| Drive.NonlinearMonotone | RoboWindow/RoboControl/RoboControl/DriveHelper.cs:170-185 | on 0..255 the correction is monotone |
| Drive.NonlinearHalfStick | RoboWindow/RoboControl/RoboControl/DriveHelper.cs:170-185 | ±128 becomes ±221 |
| Drive.NonlinearFull | RoboWindow/RoboControl/RoboControl/DriveHelper.cs:170-185 | ±255 stays ±255 and 0 stays 0 |
| Drive.TurboScaleBounds | RoboWindow/RoboControl/RoboControl/DriveHelper.cs:475-481 | scaling a speed of at most 255 stays within the cap and keeps the sign, and a cap of 255 changes nothing |
| Drive.TurboScaleOdd | RoboWindow/RoboControl/RoboControl/DriveHelper.cs:475-481 | scaling is odd, because C# division truncates |
| Drive.KeyboardTable | RoboWindow/RoboControl/RoboControl/DriveHelper.cs:248-358 | the wheel speeds for each single key and for the listed key combinations |
| Drive.KeyboardForwardPrecedence | RoboWindow/RoboControl/RoboControl/DriveHelper.cs:248-358 | while turning, forward takes precedence over backward |
| Drive.KeyboardMirror | RoboWindow/RoboControl/RoboControl/DriveHelper.cs:248-358 | swapping left and right swaps the wheels |
| Drive.KeyboardReverse | RoboWindow/RoboControl/RoboControl/DriveHelper.cs:248-358 | backward is forward with both wheels reversed |
| Drive.KeyboardWithin | RoboWindow/RoboControl/RoboControl/DriveHelper.cs:248-358 | keyboard speeds never exceed the keyboard speed |
| Drive.KeyboardMotorSpeeds | RoboWindow/RoboControl/RoboControl/DriveHelper.cs:416-426 | after scaling, keyboard speeds never exceed the cap |
| Drive.Clamp01 | RoboWindow/RoboControl/RoboControl/DriveHelper.cs:462-468 | the value clamped to 0..1, unchanged inside it |
| Drive.Map | RoboWindow/RoboControl/RoboControl/DriveHelper.cs:462-468 | the rounded linear map stays between its two end points, whichever is larger |
| Drive.StickWheels | RoboWindow/RoboControl/RoboControl/DriveHelper.cs:194-230 | the stick speeds before correction lie in −255..255 |
| Drive.CorrectedWheels | RoboWindow/RoboControl/RoboControl/DriveHelper.cs:233-236 | non-linear correction then scaling keeps both speeds within the cap |
| Drive.StickMotorSpeedsAsWritten | RoboWindow/RoboControl/RoboControl/DriveHelper.cs:194-237 | the joystick speeds as the code computes them, with the inner wheel reversed whenever rotation mode is on, lie within the cap |
| Drive.StickAsWrittenDirections | RoboWindow/RoboControl/RoboControl/DriveHelper.cs:211-236 | as written, rotation mode always turns the wheels against each other, and without it both wheels follow the stick's forward or backward direction |
| Drive.AsWrittenAgreesWithGate | RoboWindow/RoboControl/RoboControl/DriveHelper.cs:208-230 | the code as written and the corrected gate give the same speeds when rotation mode is off or the angle is below the bound |
| Drive.StickMotorSpeeds | RoboWindow/RoboControl/RoboControl/DriveHelper.cs:194-237 | corrected half of the finding: the joystick speeds, with the inner wheel reversed only at small angles, lie within the cap |
| Drive.ReversedStaysOpposite | RoboWindow/RoboControl/RoboControl/DriveHelper.cs:211-236 | with the inner wheel reversed, the two corrected wheels turn in opposite directions at equal speed |
| Drive.UnreversedSameDirection | RoboWindow/RoboControl/RoboControl/DriveHelper.cs:211-236 | without reversal, both wheels follow the stick's forward or backward direction |
| Drive.RotationAsWritten | RoboWindow/RoboControl/RoboControl/DriveHelper.cs:208-230 | as written, rotation mode reverses the inner wheel at every angle, so the robot can only spin on the spot |
| Drive.RotationGated | RoboWindow/RoboControl/RoboControl/DriveHelper.cs:208-230 | corrected: the robot spins on the spot exactly when rotation mode is on and the angle is below the bound; otherwise both wheels follow the stick's direction |
| Drive.RotationStraightAhead | RoboWindow/RoboControl/RoboControl/DriveHelper.cs:208-230 | the stick straight ahead in rotation mode spins the robot as written (255, −255), but drives straight as corrected (255, 255) |
| Drive.FullStick | RoboWindow/RoboControl/RoboControl/DriveHelper.cs:233-236 | full speed is unchanged by correction at a cap of 255 |
| Drive.HalfStickExample | RoboWindow/RoboControlTest/DriveHelperTest.cs:69-96 | half stick forward and backward gives ±221 (00DD and FF23) |
| Drive.CorrectedFull | RoboWindow/RoboControl/RoboControl/DriveHelper.cs:233-236 | correcting full and zero speeds is scaling them |
| Drive.CorrectedHalf | RoboWindow/RoboControl/RoboControl/DriveHelper.cs:233-236 | correcting ±128 is scaling ±221 |
| Drive.NormalCapValues | RoboWindow/RoboControlTest/DriveHelperTest.cs:61-62 | a cap of 190 scales 255 to 190 and ±221 to ±164 |
| Drive.TurboCapValues | RoboWindow/RoboControlTest/DriveHelperTest.cs:61-62 | a cap of 255 leaves 0, ±221 and ±255 unchanged |
| Drive.NormalFullForward | RoboWindow/RoboControlTest/DriveHelperTest.cs:102-129 | full stick forward at cap 190 gives 190 (BE) on both wheels |
| Drive.NormalHalfForward | RoboWindow/RoboControlTest/DriveHelperTest.cs:102-129 | half stick forward at cap 190 gives 164 (A4) |
| Drive.NormalHalfBackward | RoboWindow/RoboControlTest/DriveHelperTest.cs:102-129 | half stick backward at cap 190 gives −164 (FF5C) |
| Drive.NormalModeExample | RoboWindow/RoboControlTest/DriveHelperTest.cs:102-129 | the three cases above together |
| Drive.SidewaysRotationExample | RoboWindow/RoboControlTest/DriveHelperTest.cs:199-262 | the stick sideways spins the robot in rotation mode (255/−255 and 221/−221) and drives one wheel without it (255/0) |
| Drive.StickCentre | RoboWindow/RoboControlTest/DriveHelperTest.cs:135-141 | a centred stick stops both wheels |
| Drive.MotorCommandsDecode | RoboWindow/RoboControl/RoboControl/DriveHelper.cs:377-381 | speeds in −255..255 become canonical L and R messages that decode back to the speeds |
| Drive.MotorCommandOutOfRange | RoboWindow/RoboControl/RoboControl/DriveHelper.cs:489-494 | a left speed outside the short range is the codec's out-of-range exception |
| Drive.StopCommands | RoboWindow/RoboControl/RoboControl/DriveHelper.cs:365-368 | stopping sends `L0000` and `R0000`, both canonical |
| Drive.DriveLog | RoboWindow/RoboControl/RoboControl/DriveHelper.cs:397-407 | with no transport failure a drive logs its L command, then its R command |
| Drive.DriveHelper.constructor | RoboWindow/RoboControl/RoboControl/DriveHelper.cs:77-93 | turbo and rotation off, the keyboard speed is the settings' `Speed3`, no motor commands yet |
| Drive.DriveHelper.SwitchTurboMode | RoboWindow/RoboControl/RoboControl/DriveHelper.cs:439-442 | turbo mode flips and nothing else changes |
| Drive.DriveHelper.StoreAndSend | RoboWindow/RoboControl/RoboControl/DriveHelper.cs:397-407 | the two commands are stored and sent left first, ignoring results |
| Drive.DriveHelper.DriveByKeys | RoboWindow/RoboControl/RoboControl/DriveHelper.cs:416-426 | the keyboard speeds for the keys, scaled by the mode's cap, are sent as L and R commands |
| Drive.DriveHelper.DriveByStick | RoboWindow/RoboControl/RoboControl/DriveHelper.cs:397-407 | the stick speeds as the code computes them (rotation mode always spins), corrected and scaled by the mode's cap, are stored and sent as L and R commands |
| Drive.DriveHelper.Stop | RoboWindow/RoboControl/RoboControl/DriveHelper.cs:431-434 | `L0000` and `R0000` are stored and sent |
| Look.Clamp | RoboWindow/RoboControl/RoboControl/LookHelper.cs:247-250 | the coordinate clamped to −1..1, unchanged inside it |
| Look.CircleToSquare | RoboWindow/RoboControl/RoboControl/LookHelper.cs:220-251 | the mapped point lies in the unit square |
| Look.CircleToSquareReflects | RoboWindow/RoboControl/RoboControl/LookHelper.cs:222-245 | every quadrant is handled as its mirror image in the first one |
| Look.CircleToSquareOrigin | RoboWindow/RoboControl/RoboControl/LookHelper.cs:485-488 | the stick at rest stays at rest |
| Look.CircleToSquareOnAxis | RoboWindow/RoboControl/RoboControl/LookHelper.cs:485-488 | on the vertical axis only the clamp acts |
| Look.CircleToSquareExamples | RoboWindow/RoboControlTest/LookHelperTest.cs:90-160 | full deflection along an axis is unchanged |
| Look.CircleToSquareSigns | RoboWindow/RoboControl/RoboControl/LookHelper.cs:220-251 | each coordinate keeps its sign, given a distance that is zero only at the origin |
| Look.CircleToSquareRadius | RoboWindow/RoboControl/RoboControl/LookHelper.cs:482-516 | off the vertical axis the point is scaled along its ray until its larger coordinate equals the distance r |
| Look.HorizontalDegree | RoboWindow/RoboControl/RoboControl/LookHelper.cs:541-545 | the horizontal degree lies between the horizontal limits |
| Look.VerticalDegree | RoboWindow/RoboControl/RoboControl/LookHelper.cs:570-575 | the vertical degree lies between the vertical limits in force |
| Look.CentredDegrees | RoboWindow/RoboControl/RoboControl/LookHelper.cs:541-575 | the centred stick looks half-way across each span (C# integer halving) |
| Look.DefaultCentredIsForward | RoboWindow/RoboControl/RoboControl/ControlSettings.cs:40-54 | with the default limits, the centred degrees are 90 horizontally and 30 or 45 vertically, which are the forward degrees |
| Look.ServoCommand | RoboWindow/RoboControl/RoboControl/LookHelper.cs:527-530 | a servo command exists exactly for degrees in the short range; otherwise it is the out-of-range exception |
| Look.ServoCommandDecodes | RoboWindow/RoboControl/RoboControl/LookHelper.cs:556-559 | a servo command in range is the canonical message of its degree and decodes back to it |
| Look.TurnPeriodsOpposite | RoboWindow/RoboControl/RoboControl/LookHelper.cs:364-458 | opposite turns carry opposite periods, and reversed tangage swaps up and down |
| Look.TurnCommandsDecode | RoboWindow/RoboControl/RoboControl/LookHelper.cs:364-475 | turn commands are canonical and decode to their period; the stops are `h0000` and `v0000` |
| Look.NudgeBack | RoboWindow/RoboControl/RoboControl/LookHelper.cs:347-358 | `++value` then `--value` on a short returns to the value, even through wrap-around |
| Look.NudgePlanDiffers | RoboWindow/RoboControl/RoboControl/LookHelper.cs:347-358 | the two messages of a nudge differ, so the head never ignores the second as a repeat; the second carries the intended degree; both are canonical |
| Look.NudgeLog | RoboWindow/RoboControl/RoboControl/LookHelper.cs:347-358 | with no transport failure both nudge messages are logged |
| Look.LookForwardLog | RoboWindow/RoboControl/RoboControl/LookHelper.cs:333-359 | with no transport failure looking forward logs the four nudge messages, horizontal pair first |
| Look.FixedLookInRange | RoboWindow/RoboControl/RoboControl/LookHelper.cs:312-328 | for short degrees a fixed look sends one H and one V message carrying exactly those degrees |
| Look.FixedLookOutOfRange | RoboWindow/RoboControl/RoboControl/LookHelper.cs:312-328 | a horizontal degree outside the short range throws before anything is sent |
| Look.LookHelper.constructor | RoboWindow/RoboControl/RoboControl/LookHelper.cs:92-109 | not fast, no axis held, stick centred, fixed degrees at forward |
| Look.LookHelper.SetWalkModeOn | RoboWindow/RoboControl/RoboControl/LookHelper.cs:165-179 | limit set 1 for walking, set 2 otherwise; walk mode reads back as on after being set on |
| Look.LookHelper.FixedLook | RoboWindow/RoboControl/RoboControl/LookHelper.cs:312-328 | both axes are held at the given degrees, the stick is forgotten, and the sends are `FixedLookSends` (see its lemmas) |
| Look.LookHelper.SendNudged | RoboWindow/RoboControl/RoboControl/LookHelper.cs:347-352 | one axis's command is re-parsed and nudged up and back |
| Look.LookHelper.SendUpAndBack | RoboWindow/RoboControl/RoboControl/LookHelper.cs:349-352 | value + 1, then the value, both with 16-bit wrap-around |
| Look.LookHelper.NudgeTo | RoboWindow/RoboControl/RoboControl/LookHelper.cs:347-358 | the horizontal pair, then the vertical pair |
| Look.LookHelper.LookForward | RoboWindow/RoboControl/RoboControl/LookHelper.cs:333-359 | the fixed degrees return to forward and the stick to centre; the commands are those of the centred stick, and each is nudged |
| Look.LookHelper.ResetForward | RoboWindow/RoboControl/RoboControl/LookHelper.cs:337-342 | the field updates of looking forward |
| Look.LookHelper.ReleaseIfMoved | RoboWindow/RoboControl/RoboControl/LookHelper.cs:278-291 | once the stick moves, a held axis is released and its fixed degree goes back to forward |
| Look.LookHelper.FollowStick | RoboWindow/RoboControl/RoboControl/LookHelper.cs:293-304 | only when neither axis is held do both servos follow the stick (H first, then V); otherwise nothing changes |
| Look.LookHelper.Look | RoboWindow/RoboControl/RoboControl/LookHelper.cs:267-305 | the stick point is mapped to the square, with y inverted unless tangage is reversed; it releases the held axes once it moves, and both servos follow it when neither axis is held |
| Look.LookHelper.TurnHorizontally | RoboWindow/RoboControl/RoboControl/LookHelper.cs:364-377 | the horizontal axis is held (the stick's x reset on first hold) and an `h` command with the period is sent non-recurrently |
| Look.LookHelper.TurnVertically | RoboWindow/RoboControl/RoboControl/LookHelper.cs:417-435 | the vertical counterpart |
| Look.LookHelper.StartLeftTurn | RoboWindow/RoboControl/RoboControl/LookHelper.cs:364-377 | `h` with the fast or slow period |
| Look.LookHelper.StartRightTurn | RoboWindow/RoboControl/RoboControl/LookHelper.cs:382-395 | `h` with the negated period |
| Look.LookHelper.StopHorizontalTurn | RoboWindow/RoboControl/RoboControl/LookHelper.cs:400-412 | `h0000`, and the axis stays held |
| Look.LookHelper.StartUpTurn | RoboWindow/RoboControl/RoboControl/LookHelper.cs:417-435 | `v` with the period, negated when tangage is reversed |
| Look.LookHelper.StartDownTurn | RoboWindow/RoboControl/RoboControl/LookHelper.cs:440-458 | `v` with the negated period, flipped back when tangage is reversed |
| Look.LookHelper.StopVerticalTurn | RoboWindow/RoboControl/RoboControl/LookHelper.cs:463-475 | `v0000`, and the axis stays held |
| Game.ChargeBar | RoboWindow/RoboControl/RoboControl/GameRobot.cs:946-965 | the bar has 20 characters |
| Game.ChargeBarPrefix | RoboWindow/RoboControl/RoboControl/GameRobot.cs:946-965 | the '+' signs form a prefix as long as the number of whole 5-percent steps, at most 20; every other character is '-' |
| Game.ChargeBarEnds | RoboWindow/RoboControl/RoboControl/GameRobot.cs:946-965 | a full charge fills the bar; less than one step leaves it empty |
| Game.PercentToText | RoboWindow/RoboControl/RoboControl/GameRobot.cs:946-965 | the loop builds exactly `ChargeBar` |
| Game.PlayedAgain | RoboWindow/RoboControl/RoboControl/GameRobot.cs:546-558 | once marked as sent, an item only sends its play command, whatever the upload's outcome was |
| Game.PlayedFirst | RoboWindow/RoboControl/RoboControl/GameRobot.cs:546-558 | the first play uploads the script, then sends the play command; the log only grows |
| Game.GameRobot.constructor | RoboWindow/RoboControl/RoboControl/GameRobot.cs:153 | no key down in the previous state |
| Game.GameRobot.KeyEdges | RoboWindow/RoboControl/RoboControl/GameRobot.cs:396-410 | the down and up edges exclude each other, and there is an edge exactly when the key's state changed |
| Game.GameRobot.PlayRoboScript | RoboWindow/RoboControl/RoboControl/GameRobot.cs:546-558 | the sends are `Played`; the item is marked as sent unless it is empty; its script and play command are kept |
| Settings.ControlSettings.constructor | RoboWindow/RoboControl/RoboControl/ControlSettings.cs:31-73 | the default settings; the vertical limits in force start as set 1 |

## Left out

- Transports. UDP and COM transmission, `Dispose`/`FinalizePort`, the windows
  and forms, and the events are not modelled. A transport is an oracle that
  says whether an attempt throws, and its exception text.
- Clock. Each reading of `DateTime.Now` is a parameter, in milliseconds:
  `GetChargePercent` takes `now`, and `Fire` takes `now` for the charge check
  and `restartTime` for the reading after the sends. No relation between
  readings is assumed, so a clock that goes back is covered.
- Floating point. The source's `float`/`double` are exact reals, so NaN and
  infinities, and the rounding of float arithmetic, are not modelled.
- `Math.Sqrt`. The stick's vector length and corrected sine (`DriveByStick`)
  and the distance `r` (`CircleToSquare`, `Look`) are parameters. The
  parameters carry no constraint, so the properties hold for any value
  passed in.
- Drive.NonlinearSpeedCorrection: computed exactly on integers, as the
  nearest integer to √(|s|(510 − |s|)). The source computes `Math.Sqrt` on
  doubles. Exact ties cannot occur, because the radicand is an integer. The
  floating-point half-stick tests (DriveHelperTest.cs lines 268-358) are not
  modelled.
- `short.TryParse` with `HexNumber` also accepts leading and trailing white
  space; `Messages.ParseHexShort` accepts only digits.
- `String.ToUpper` is modelled on ASCII letters only.
- Strings are sequences of Unicode scalar values, where C# strings are UTF-16
  code units. A character outside the Basic Multilingual Plane is one
  character in the model but a surrogate pair in C#. So a message such as
  "\U{1F600}1" is accepted in the model, while the source takes the high
  surrogate as its identifier and rejects the low one as a bad value. The
  message-length check counts such characters differently too.
- `Communication.CommunicationHelper`: R (`NonrecurrentMessageRepetitions`) is
  a `nat` set at construction. The property setters of
  `NonrecurrentMessageRepetitions` and `LastErrorMessage` are left out.
- `RoboScript` is null until it is first set; the model starts it as "".
- Constructor argument null checks and the `Check*Helper` null checks are
  left out: every reference in the model is non-null.
- `DriveHelper.Initialize` is left out.
- Renamed overloads, since Dafny has no overloading:
  - `Drive(x, y)` is `DriveByStick`;
  - `Drive(keys)` is `DriveByKeys`;
  - the one-argument `SendNonrecurrentMessageToRobot(message)` is
    `SendNonrecurrentMessageToRobotWithoutVoid`.
- Factored helpers. Some methods have no C# counterpart of their own: they
  name a block of a source method so that it can be specified on its own:
  `SendRepeatedly`, `ShowGesture`, `ShowFace`, `ShowFaceAndLook`,
  `StoreAndSend`, `SendUpAndBack`, `SendNudged`, `NudgeTo`, `ResetForward`,
  `ReleaseIfMoved`, `FollowStick`, `TurnHorizontally`, `TurnVertically`,
  `SendThreeTimesPerRepetition`, `Shoot`, `SendFlashlightCommand`,
  `ProcessPiece` and `ProcessPieces`.
- `GenerateLookForwardServoCommand` (LookHelper.cs lines 595-599) is not
  called by `LookForward`, which uses the centred stick instead, so it is
  not modelled.
- Plain C# properties are public fields: `TurboModeOn`, `RotationModeOn`,
  `SpeedForKeyboardControl`, `FastModeOn`, `WasSent` and the like are set by
  assigning the field.
- Settings.ControlSettings: the network, webcam, audio and video settings,
  `MinCommandInterval` and the ten stored RoboScripts are not modelled. The
  head speeds are left out too, because the core does not read them.
  Head-turn periods are limited to −32767..32767 so that both directions can
  be encoded.
- Settings.ControlSettings: the head degrees (the horizontal limits, both
  stored vertical limit sets and `VerticalReadyToPlayDegree`) are `Int16`,
  where the source's properties are `int`. A configured degree outside the
  short range would make `IntToMessageValue` throw in `Look`, `LookForward`
  and the `FixedLook` of `ShowDepression`. The model cannot configure such a
  degree and so does not express that exception.
- Game: only `PlayRoboScript`, `PercentToText` and the two key-edge tests are
  modelled. The keyboard state is the set of keys that are down.
- Flashlight, Gun and Moods: that these helpers send with no transport
  failure is stated in the `*Log` lemmas. Each helper's method ignores the
  results, as the source does.

## Findings

| source | as written | input that shows it | evidently intended | confidence | as-written member | corrected member |
|---|---|---|---|---|---|---|
| RoboWindow/RoboControl/RoboControl/DriveHelper.cs:208-230 | the quadrant branches reverse the inner wheel whenever rotation mode is on; the local flag that combines rotation mode with the small-angle test (`sinAlpha < SinAlphaBound`) is computed but never read | rotation mode on, stick straight ahead (0, 1), cap 255: as written the wheels get (255, −255), so the robot spins on the spot | reverse the inner wheel only when the corrected sine is below `SinAlphaBound`, so the stick straight ahead gives (255, 255) | not executed | Drive.RotationAsWritten | Drive.RotationGated |
