/**
 * The command codec (MessageHelper). A command on the wire is one identifier
 * character followed by four upper-case hex digits holding a 16-bit
 * two's-complement value; the codec also accepts shortened forms such as
 * "I+12", "If84a" or "I-1974" and rewrites them into that canonical form.
 */
module Messages {
  import opened Wrappers
  import opened ClrArith

  const IdentifierLength: nat := 1
  const ValueLength: nat := 4

  const ErrorEmptyMessage := "Отсутствует сообщение."
  const ErrorBadIdentifier := "Неверный идентификатор сообщения."
  const ErrorBadValue := "Неверно задано значение сообщения."
  const ErrorValueRange := "Параметр сообщения должен находиться в интервале от -32 768 до 32 767."

  /** The exceptions the codec throws. */
  datatype CodecError = EmptyMessage | BadIdentifier | BadValue | ValueOutOfRange

  /** The exception's Message text, as the callers record it. */
  function ErrorText(e: CodecError): string {
    match e
    case EmptyMessage => ErrorEmptyMessage
    case BadIdentifier => ErrorBadIdentifier
    case BadValue => ErrorBadValue
    case ValueOutOfRange => ErrorValueRange
  }

  predicate IsHexDigit(c: char) {
    ('0' <= c <= '9') || ('A' <= c <= 'F') || ('a' <= c <= 'f')
  }

  predicate IsUpperHexDigit(c: char) {
    ('0' <= c <= '9') || ('A' <= c <= 'F')
  }

  predicate AllHex(s: string) {
    forall i :: 0 <= i < |s| ==> IsHexDigit(s[i])
  }

  predicate AllUpperHex(s: string) {
    forall i :: 0 <= i < |s| ==> IsUpperHexDigit(s[i])
  }

  function DigitValue(c: char): (d: nat)
    requires IsHexDigit(c)
    ensures d < 16
  {
    if '0' <= c <= '9' then c as int - '0' as int
    else if 'A' <= c <= 'F' then c as int - 'A' as int + 10
    else c as int - 'a' as int + 10
  }

  /** The upper-case digit for d, as `ToString("X")` writes it. */
  function HexChar(d: nat): (c: char)
    requires d < 16
    ensures IsUpperHexDigit(c) && DigitValue(c) == d
  {
    if d < 10 then ('0' as int + d) as char else ('A' as int + d - 10) as char
  }

  /** The number a string of hex digits denotes, most significant digit first. */
  function HexValue(s: string): nat
    requires AllHex(s)
  {
    if s == [] then 0 else HexValue(s[..|s| - 1]) * 16 + DigitValue(s[|s| - 1])
  }

  /** The 16-bit pattern of a short. */
  function ToUnsigned16(v: Int16): (u: nat)
    ensures u < 65536 && (u - v) % 65536 == 0
  {
    if v < 0 then v + 65536 else v
  }

  /** The short whose 16-bit pattern is u. */
  function ToSigned16(u: nat): (v: Int16)
    requires u < 65536
    ensures ToUnsigned16(v) == u
  {
    if u >= 32768 then u - 65536 else u
  }

  /** `value.ToString("X4")` on a short: four upper-case hex digits of its two's complement. */
  function Hex4(v: Int16): (s: string)
    ensures |s| == ValueLength && AllUpperHex(s)
    ensures AllHex(s) && HexValue(s) == ToUnsigned16(v)
  {
    var u := ToUnsigned16(v);
    var s := [HexChar(u / 4096), HexChar(u / 256 % 16), HexChar(u / 16 % 16), HexChar(u % 16)];
    HexValueOfFour(s);
    assert u / 4096 * 16 + u / 256 % 16 == u / 256;
    assert u / 256 * 16 + u / 16 % 16 == u / 16;
    assert u / 16 * 16 + u % 16 == u;
    s
  }

  /** `IntToMessageValue`: four hex digits for a value in the 16-bit range, otherwise an ArgumentException. */
  function IntToMessageValue(value: int): (r: Result<string, CodecError>)
    ensures r.Success? <==> -32768 <= value <= 32767
    ensures r.Failure? ==> r.error == ValueOutOfRange
    ensures r.Success? ==> |r.value| == 4 && AllUpperHex(r.value) && AllHex(r.value)
                           && HexValue(r.value) == (if value < 0 then value + 65536 else value)
  {
    if value < -32768 || value > 32767 then Failure(ValueOutOfRange)
    else Success(Hex4(value))
  }

  /** `ExtractIdentifier`: the first character, which must not be a hex digit. */
  function ExtractIdentifier(message: string): (r: Result<char, CodecError>)
    ensures message == [] ==> r == Failure(EmptyMessage)
    ensures message != [] && IsHexDigit(message[0]) ==> r == Failure(BadIdentifier)
    ensures message != [] && !IsHexDigit(message[0]) ==> r == Success(message[0])
  {
    if |message| == 0 then Failure(EmptyMessage)
    else
      var identifier := message[..IdentifierLength][0];
      if IsHexDigit(identifier) then Failure(BadIdentifier) else Success(identifier)
  }

  /** `ExtractValueText`: everything after the identifier. */
  function ExtractValueText(message: string): (r: Result<string, CodecError>)
    ensures message == [] ==> r == Failure(EmptyMessage)
    ensures message != [] ==> r.Success? && [message[0]] + r.value == message
  {
    if |message| == 0 then Failure(EmptyMessage)
    else Success(message[IdentifierLength..])
  }

  function UpperChar(c: char): char {
    if 'a' <= c <= 'z' then (c as int - 32) as char else c
  }

  /** `String.ToUpper` on the characters that matter here (ASCII letters). */
  function ToUpper(s: string): (r: string)
    ensures |r| == |s| && forall i :: 0 <= i < |s| ==> r[i] == UpperChar(s[i])
  {
    seq(|s|, i requires 0 <= i < |s| => UpperChar(s[i]))
  }

  /**
   * `short.TryParse(text, NumberStyles.HexNumber, ...)`: one or more hex digits
   * whose value fits in 16 bits, read as a two's-complement short.
   */
  function ParseHexShort(text: string): (r: Option<Int16>)
    ensures r.Some? <==> text != [] && AllHex(text) && HexValue(text) < 65536
    ensures r.Some? ==> ToUnsigned16(r.value) == HexValue(text)
  {
    if text != [] && AllHex(text) && HexValue(text) < 65536 then Some(ToSigned16(HexValue(text)))
    else None
  }

  /** `ParseMessage`: identifier and short value of a possibly shortened message. */
  function ParseMessage(message: string): Result<(char, Int16), CodecError>
  {
    var identifier :- ExtractIdentifier(message);
    var rawText :- ExtractValueText(message);
    var upper := ToUpper(rawText);
    var valueText := if |upper| == 0 then "0" else upper;
    var isNegative := valueText[0] == '-';
    var digits := if valueText[0] == '-' || valueText[0] == '+' then valueText[1..] else valueText;
    match ParseHexShort(digits)
    case None => Failure(BadValue)
    case Some(value) => Success((identifier, if isNegative then Wrap16(-(value as int)) else value))
  }

  /** `MakeMessage`: the identifier followed by the four-digit value. */
  function MakeMessage(identifier: char, value: Int16): (m: string)
    ensures |m| == IdentifierLength + ValueLength
  {
    [identifier] + Hex4(value)
  }

  /** `CorrectMessage`: a possibly shortened message rewritten into its canonical form. */
  function CorrectMessage(message: string): Result<string, CodecError> {
    var parsed :- ParseMessage(message);
    Success(MakeMessage(parsed.0, parsed.1))
  }

  // ---------------------------------------------------------------------------
  // Properties of the codec

  /** Upper-casing leaves hex digits alone, and a character is a hex digit exactly when its upper case is. */
  lemma UpperCharHex(c: char)
    ensures IsHexDigit(UpperChar(c)) <==> IsHexDigit(c)
    ensures IsHexDigit(c) ==> DigitValue(UpperChar(c)) == DigitValue(c)
    ensures IsUpperHexDigit(c) ==> UpperChar(c) == c
    ensures (UpperChar(c) == '-') <==> (c == '-')
    ensures (UpperChar(c) == '+') <==> (c == '+')
  {
  }

  lemma {:induction false} HexValueUpper(s: string)
    requires AllHex(s)
    ensures AllHex(ToUpper(s)) && HexValue(ToUpper(s)) == HexValue(s)
  {
    forall i | 0 <= i < |s| ensures IsHexDigit(ToUpper(s)[i]) { UpperCharHex(s[i]); }
    if s != [] {
      var p := s[..|s| - 1];
      HexValueUpper(p);
      assert ToUpper(s)[..|s| - 1] == ToUpper(p);
      UpperCharHex(s[|s| - 1]);
    }
  }

  /** Parsing the four digits `Hex4` writes gives the value back. */
  lemma ParseHexOfHex4(v: Int16)
    ensures ParseHexShort(Hex4(v)) == Some(v)
  {
    assert ToSigned16(ToUnsigned16(v)) == v;
  }

  lemma ToUpperOfHex4(v: Int16)
    ensures ToUpper(Hex4(v)) == Hex4(v)
  {
    var s := Hex4(v);
    forall i | 0 <= i < |s| ensures ToUpper(s)[i] == s[i] { UpperCharHex(s[i]); }
  }

  /** Round trip: a canonical message parses back to its identifier and value. */
  lemma ParseMakeRoundTrip(identifier: char, value: Int16)
    requires !IsHexDigit(identifier)
    ensures ParseMessage(MakeMessage(identifier, value)) == Success((identifier, value))
  {
    var m := MakeMessage(identifier, value);
    assert m[1..] == Hex4(value);
    ToUpperOfHex4(value);
    ParseHexOfHex4(value);
    assert IsUpperHexDigit(Hex4(value)[0]);
  }

  /** A message made by the codec is left as it is by `CorrectMessage`. */
  lemma CorrectMessageOfMade(identifier: char, value: Int16)
    requires !IsHexDigit(identifier)
    ensures CorrectMessage(MakeMessage(identifier, value)) == Success(MakeMessage(identifier, value))
  {
    ParseMakeRoundTrip(identifier, value);
  }

  /**
   * A command written out digit by digit, as the actuators spell their fixed
   * commands ("s0001", "M0102"), is the codec's message for its value.
   */
  lemma LiteralCommand(identifier: char, a: nat, b: nat, c: nat, d: nat)
    requires !IsHexDigit(identifier) && a < 8 && b < 16 && c < 16 && d < 16
    ensures var value := ((a * 16 + b) * 16 + c) * 16 + d;
      var m := [identifier, HexChar(a), HexChar(b), HexChar(c), HexChar(d)];
      -32768 <= value <= 32767 && MakeMessage(identifier, value) == m
      && ParseMessage(m) == Success((identifier, value)) && CorrectMessage(m) == Success(m)
  {
    var value := ((a * 16 + b) * 16 + c) * 16 + d;
    Hex4Digits(value, a, b, c, d);
    CorrectMessageOfMade(identifier, value);
    ParseMakeRoundTrip(identifier, value);
  }

  /** A corrected message is five characters: the input's identifier and four upper-case hex digits. */
  lemma CorrectMessageCanonical(message: string)
    requires CorrectMessage(message).Success?
    ensures var r := CorrectMessage(message).value;
      |r| == 5 && r[0] == message[0] && !IsHexDigit(r[0]) && AllUpperHex(r[1..])
  {
    var r := CorrectMessage(message).value;
    assert r[1..] == Hex4(ParseMessage(message).value.1);
  }

  /** Correcting an already corrected message changes nothing. */
  lemma CorrectMessageIdempotent(message: string)
    requires CorrectMessage(message).Success?
    ensures CorrectMessage(CorrectMessage(message).value) == CorrectMessage(message)
  {
    var parsed := ParseMessage(message).value;
    assert !IsHexDigit(parsed.0);
    ParseMakeRoundTrip(parsed.0, parsed.1);
  }

  /** An identifier alone stands for the value 0. */
  lemma ParseEmptyValue(identifier: char)
    requires !IsHexDigit(identifier)
    ensures ParseMessage([identifier]) == Success((identifier, 0))
  {
    assert [identifier][1..] == [];
    assert "0"[..1] == "0";
  }

  /** The value text after the identifier, when it is digits only, parses as a 16-bit hex number or fails with BadValue. */
  lemma ParseUnsignedValue(identifier: char, text: string)
    requires !IsHexDigit(identifier)
    requires text != [] && text[0] != '-' && text[0] != '+'
    ensures var r := ParseMessage([identifier] + text);
      if AllHex(text) && HexValue(text) < 65536
      then r.Success? && r.value.0 == identifier && ToUnsigned16(r.value.1) == HexValue(text)
      else r == Failure(BadValue)
  {
    var m := [identifier] + text;
    assert m[1..] == text;
    var upper := ToUpper(text);
    UpperCharHex(text[0]);
    if AllHex(text) {
      HexValueUpper(text);
    } else {
      var i :| 0 <= i < |text| && !IsHexDigit(text[i]);
      UpperCharHex(text[i]);
      assert !AllHex(upper);
    }
  }

  /** A leading '+' is dropped. */
  lemma ParsePlusSign(identifier: char, text: string)
    requires !IsHexDigit(identifier)
    requires text != [] && text[0] != '-' && text[0] != '+'
    ensures ParseMessage([identifier] + "+" + text) == ParseMessage([identifier] + text)
  {
    var m := [identifier] + "+" + text;
    assert m[1..] == "+" + text;
    assert ([identifier] + text)[1..] == text;
    UpperCharHex(text[0]);
    assert ToUpper("+" + text)[1..] == ToUpper(text);
  }

  /** A leading '-' negates the parsed value, wrapping -(-32768) back to -32768 as the `(short)` cast does. */
  lemma ParseMinusSign(identifier: char, text: string)
    requires !IsHexDigit(identifier)
    requires text != [] && text[0] != '-' && text[0] != '+'
    ensures var r := ParseMessage([identifier] + text);
      ParseMessage([identifier] + "-" + text)
        == if r.Success? then Success((identifier, Wrap16(-(r.value.1 as int)))) else r
  {
    var m := [identifier] + "-" + text;
    assert m[1..] == "-" + text;
    assert ([identifier] + text)[1..] == text;
    UpperCharHex(text[0]);
    assert ToUpper("-" + text)[1..] == ToUpper(text);
  }

  /** Four hex digits, evaluated positionally. */
  lemma HexValueOfFour(s: string)
    requires |s| == 4 && AllHex(s)
    ensures HexValue(s)
      == ((DigitValue(s[0]) * 16 + DigitValue(s[1])) * 16 + DigitValue(s[2])) * 16 + DigitValue(s[3])
  {
    assert HexValue(s[..1]) == DigitValue(s[0]) by { assert s[..1][..0] == []; }
    assert HexValue(s[..2]) == DigitValue(s[0]) * 16 + DigitValue(s[1]) by { assert s[..2][..1] == s[..1]; }
    assert HexValue(s[..3]) == HexValue(s[..2]) * 16 + DigitValue(s[2]) by { assert s[..3][..2] == s[..2]; }
    assert s[..3] == s[..|s| - 1];
  }

  /** The digits `Hex4` writes for a value whose 16-bit pattern has hex digits a, b, c, d. */
  lemma Hex4Digits(v: Int16, a: nat, b: nat, c: nat, d: nat)
    requires a < 16 && b < 16 && c < 16 && d < 16
    requires ToUnsigned16(v) == ((a * 16 + b) * 16 + c) * 16 + d
    ensures Hex4(v) == [HexChar(a), HexChar(b), HexChar(c), HexChar(d)]
  {
    var u := ToUnsigned16(v);
    assert u / 16 == (a * 16 + b) * 16 + c && u % 16 == d;
    assert u / 256 == a * 16 + b && u / 16 % 16 == c;
    assert u / 4096 == a && u / 256 % 16 == b;
  }

  lemma HexCharOfDigit(c: char)
    requires IsUpperHexDigit(c)
    ensures HexChar(DigitValue(c)) == c
  {
  }

  /** Four upper-case digits are what `Hex4` writes for the short they denote. */
  lemma Hex4OfDigits(s: string)
    requires |s| == 4 && AllUpperHex(s)
    ensures AllHex(s) && HexValue(s) < 65536 && Hex4(ToSigned16(HexValue(s))) == s
  {
    HexValueOfFour(s);
    Hex4Digits(ToSigned16(HexValue(s)), DigitValue(s[0]), DigitValue(s[1]), DigitValue(s[2]), DigitValue(s[3]));
    HexCharOfDigit(s[0]);
    HexCharOfDigit(s[1]);
    HexCharOfDigit(s[2]);
    HexCharOfDigit(s[3]);
  }

  /** A message already in canonical form is left as it is. */
  lemma CorrectMessageOfCanonical(message: string)
    requires |message| == 5 && !IsHexDigit(message[0]) && AllUpperHex(message[1..])
    ensures AllHex(message[1..]) && HexValue(message[1..]) < 65536
    ensures ParseMessage(message) == Success((message[0], ToSigned16(HexValue(message[1..]))))
    ensures CorrectMessage(message) == Success(message)
  {
    var digits := message[1..];
    Hex4OfDigits(digits);
    var v := ToSigned16(HexValue(digits));
    assert message == MakeMessage(message[0], v);
    ParseMakeRoundTrip(message[0], v);
  }

  /** The examples the codec's unit tests check: canonical messages stay as they are. */
  lemma CanonicalExamples()
    ensures CorrectMessage("I1234") == Success("I1234")
    ensures CorrectMessage("IF84A") == Success("IF84A")
  {
    CorrectMessageOfCanonical("I1234");
    CorrectMessageOfCanonical("IF84A");
  }

  /** Lower-case digits are upper-cased. */
  lemma LowerCaseExample()
    ensures CorrectMessage("If84a") == Success("IF84A")
  {
    assert ParseMessage("If84a") == Success(('I', -1974)) by {
      assert "If84a" == ['I'] + "f84a";
      HexValueOfFour("f84a");
      ParseUnsignedValue('I', "f84a");
    }
    assert MakeMessage('I', -1974) == "IF84A" by { Hex4Digits(-1974, 15, 8, 4, 10); }
  }

  lemma Parse1234Example()
    ensures ParseMessage("I1234") == Success(('I', 0x1234))
  {
    CorrectMessageOfCanonical("I1234");
    HexValueOfFour("1234");
    assert "I1234"[1..] == "1234";
  }

  lemma ParsePlus1234Example()
    ensures ParseMessage("I+1234") == Success(('I', 0x1234))
  {
    Parse1234Example();
    assert "I+1234" == ['I'] + "+" + "1234";
    assert "I1234" == ['I'] + "1234";
    ParsePlusSign('I', "1234");
  }

  /** A '+' sign is dropped. */
  lemma PlusSignExample()
    ensures CorrectMessage("I+1234") == Success("I1234")
  {
    ParsePlus1234Example();
    assert MakeMessage('I', 0x1234) == "I1234" by { Hex4Digits(0x1234, 1, 2, 3, 4); }
  }

  lemma Parse1974Example()
    ensures ParseMessage("I1974") == Success(('I', 0x1974))
  {
    CorrectMessageOfCanonical("I1974");
    HexValueOfFour("1974");
    assert "I1974"[1..] == "1974";
  }

  lemma ParseE68CExample()
    ensures ParseMessage("IE68C") == Success(('I', -0x1974))
  {
    CorrectMessageOfCanonical("IE68C");
    HexValueOfFour("E68C");
    assert "IE68C"[1..] == "E68C";
  }

  lemma ParseMinus1974Example()
    ensures ParseMessage("I-1974") == Success(('I', -0x1974))
  {
    Parse1974Example();
    assert "I-1974" == ['I'] + "-" + "1974";
    assert "I1974" == ['I'] + "1974";
    ParseMinusSign('I', "1974");
  }

  lemma ParseMinusE68CExample()
    ensures ParseMessage("I-E68C") == Success(('I', 0x1974))
  {
    ParseE68CExample();
    assert "I-E68C" == ['I'] + "-" + "E68C";
    assert "IE68C" == ['I'] + "E68C";
    ParseMinusSign('I', "E68C");
  }

  /** A '-' sign negates in two's complement. */
  lemma MinusSignExample()
    ensures CorrectMessage("I-1974") == Success("IE68C")
  {
    ParseMinus1974Example();
    assert MakeMessage('I', -0x1974) == "IE68C" by { Hex4Digits(-0x1974, 14, 6, 8, 12); }
  }

  /** Negating a negative value gives the positive one back. */
  lemma MinusNegativeExample()
    ensures CorrectMessage("I-E68C") == Success("I1974")
  {
    ParseMinusE68CExample();
    assert MakeMessage('I', 0x1974) == "I1974" by { Hex4Digits(0x1974, 1, 9, 7, 4); }
  }

  /** A missing message and a hex digit in place of the identifier are rejected. */
  lemma IdentifierErrorExamples()
    ensures CorrectMessage("") == Failure(EmptyMessage)
    ensures CorrectMessage("F0000") == Failure(BadIdentifier)
  {
  }

  /** A value of more than 16 bits is rejected. */
  lemma OverflowExample()
    ensures CorrectMessage("I12345") == Failure(BadValue)
  {
    assert "I12345" == ['I'] + "12345";
    HexValueOfFour("1234");
    assert "12345"[..4] == "1234";
    ParseUnsignedValue('I', "12345");
  }

  /** Non-digits are rejected. */
  lemma LettersExample()
    ensures CorrectMessage("Ioooo") == Failure(BadValue)
  {
    assert "Ioooo" == ['I'] + "oooo";
    assert !IsHexDigit("oooo"[0]);
    ParseUnsignedValue('I', "oooo");
  }

  /** A sign is only allowed in front of the digits. */
  lemma InnerSignExamples()
    ensures CorrectMessage("I00-00") == Failure(BadValue)
    ensures CorrectMessage("I00+00") == Failure(BadValue)
  {
    assert "I00-00" == ['I'] + "00-00";
    assert !IsHexDigit("00-00"[2]);
    ParseUnsignedValue('I', "00-00");
    assert "I00+00" == ['I'] + "00+00";
    assert !IsHexDigit("00+00"[2]);
    ParseUnsignedValue('I', "00+00");
  }
}
