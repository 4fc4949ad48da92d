/**
 * The .NET string operations the command pipeline relies on: `String.Trim`,
 * `String.Split(char)` and joining with a separator.
 */
module Text {

  /** `Char.IsWhiteSpace`: the Unicode space separators, line and paragraph separators, U+0009..U+000D and U+0085. */
  predicate IsWhiteSpace(c: char) {
    c == ' ' || ('\t' <= c <= '\r') || c == '\U{0085}' || c == '\U{00A0}' || c == '\U{1680}'
    || ('\U{2000}' <= c <= '\U{200A}') || c == '\U{2028}' || c == '\U{2029}' || c == '\U{202F}'
    || c == '\U{205F}' || c == '\U{3000}'
  }

  predicate AllWhiteSpace(s: string) {
    forall i :: 0 <= i < |s| ==> IsWhiteSpace(s[i])
  }

  /** Length of the white-space prefix of s. */
  function LeadingSpace(s: string): (k: nat)
    ensures k <= |s| && AllWhiteSpace(s[..k])
    ensures k < |s| ==> !IsWhiteSpace(s[k])
  {
    if s == [] || !IsWhiteSpace(s[0]) then 0
    else
      var k := LeadingSpace(s[1..]);
      assert s[..k + 1] == [s[0]] + s[1..][..k];
      k + 1
  }

  /** Length of the white-space suffix of s. */
  function TrailingSpace(s: string): (k: nat)
    ensures k <= |s| && AllWhiteSpace(s[|s| - k..])
    ensures k < |s| ==> !IsWhiteSpace(s[|s| - k - 1])
  {
    if s == [] || !IsWhiteSpace(s[|s| - 1]) then 0
    else
      var p := s[..|s| - 1];
      var k := TrailingSpace(p);
      assert s[|s| - (k + 1)..] == p[|p| - k..] + [s[|s| - 1]];
      k + 1
  }

  function TrimStart(s: string): string {
    s[LeadingSpace(s)..]
  }

  function TrimEnd(s: string): string {
    s[..|s| - TrailingSpace(s)]
  }

  /** `String.Trim()`: strips white space from both ends. */
  function Trim(s: string): (r: string)
    ensures r == [] || (!IsWhiteSpace(r[0]) && !IsWhiteSpace(r[|r| - 1]))
  {
    var t := TrimStart(s);
    var r := TrimEnd(t);
    assert r != [] ==> r[0] == t[0];
    r
  }

  /**
   * Trimming removes white space at the ends and nothing else: a non-empty
   * result is the text of s right after its white-space prefix, and only
   * white space follows it in s (`TrimEmptyIff` covers the empty result).
   */
  lemma TrimSlice(s: string)
    ensures var r := Trim(s); var k := LeadingSpace(s);
      r != [] ==>
        (k + |r| <= |s|
         && (forall i :: 0 <= i < |r| ==> r[i] == s[k + i])
         && (forall i :: k + |r| <= i < |s| ==> IsWhiteSpace(s[i])))
  {
    TrimKeepsMiddle(s);
    TrimDropsOnlySpace(s);
  }

  lemma TrimKeepsMiddle(s: string)
    ensures LeadingSpace(s) + |Trim(s)| <= |s|
    ensures forall i :: 0 <= i < |Trim(s)| ==> Trim(s)[i] == s[LeadingSpace(s) + i]
  {
    var k := LeadingSpace(s);
    var t := s[k..];
    var r := Trim(s);
    assert r == t[..|t| - TrailingSpace(t)];
    forall i | 0 <= i < |r|
      ensures r[i] == s[k + i]
    {
      assert r[i] == t[i];
    }
  }

  lemma TrimDropsOnlySpace(s: string)
    ensures forall i :: LeadingSpace(s) + |Trim(s)| <= i < |s| ==> IsWhiteSpace(s[i])
  {
    var k := LeadingSpace(s);
    var t := s[k..];
    var m := |t| - TrailingSpace(t);
    assert |Trim(s)| == m;
    forall i | k + m <= i < |s|
      ensures IsWhiteSpace(s[i])
    {
      assert s[i] == t[m..][i - k - m];
    }
  }

  /** A trimmed string is empty exactly when the input was all white space. */
  lemma TrimEmptyIff(s: string)
    ensures Trim(s) == [] <==> AllWhiteSpace(s)
  {
    var k := LeadingSpace(s);
    if AllWhiteSpace(s) {
      assert k == |s|;
    }
  }

  /** Trimming is idempotent. */
  lemma TrimIdempotent(s: string)
    ensures Trim(Trim(s)) == Trim(s)
  {
    var r := Trim(s);
    if r != [] {
      assert LeadingSpace(r) == 0;
      assert TrailingSpace(r) == 0;
    }
  }

  /** Number of occurrences of c in s. */
  function Count(s: string, c: char): nat {
    if s == [] then 0 else (if s[0] == c then 1 else 0) + Count(s[1..], c)
  }

  /** The parts joined with sep between consecutive parts; "" for no parts. */
  function Join(parts: seq<string>, sep: string): string {
    if |parts| == 0 then ""
    else if |parts| == 1 then parts[0]
    else parts[0] + sep + Join(parts[1..], sep)
  }

  /**
   * `String.Split(sep)`: the maximal pieces between separators, empty pieces kept.
   * Joining the pieces back with the separator gives the input.
   */
  function Split(s: string, sep: char): (parts: seq<string>)
    ensures |parts| == Count(s, sep) + 1
    ensures forall i :: 0 <= i < |parts| ==> sep !in parts[i]
    ensures Join(parts, [sep]) == s
  {
    if s == [] then [""]
    else
      var rest := Split(s[1..], sep);
      if s[0] == sep then
        assert s == [sep] + s[1..];
        [""] + rest
      else
        var parts := [[s[0]] + rest[0]] + rest[1..];
        assert parts[1..] == rest[1..];
        assert s == [s[0]] + s[1..];
        parts
  }

  /** Joining one more part adds the separator and that part at the end. */
  lemma {:induction false} JoinSnoc(parts: seq<string>, sep: string, last: string)
    requires parts != []
    ensures Join(parts + [last], sep) == Join(parts, sep) + sep + last
    decreases |parts|
  {
    var all := parts + [last];
    if |parts| == 1 {
      assert all[1..] == [last];
    } else {
      assert all[1..] == parts[1..] + [last];
      JoinSnoc(parts[1..], sep, last);
    }
  }

  /** Every character of a part appears in the joined string. */
  lemma {:induction false} JoinContainsParts(parts: seq<string>, sep: string, i: nat, c: char)
    requires i < |parts| && c in parts[i]
    ensures c in Join(parts, sep)
    decreases |parts|
  {
    if |parts| > 1 && i > 0 {
      JoinContainsParts(parts[1..], sep, i - 1, c);
    }
  }
}
