/** Java string and null conventions shared by the other modules.
    A nullable Java reference is an Option; a Java string is a sequence of characters. */
module Text {

  datatype Option<+T> = None | Some(value: T)

  /** Map.get: null for an absent key. */
  function Lookup<V>(entries: map<string, V>, key: string): Option<V>
  {
    if key in entries then Some(entries[key]) else None
  }

  /** Character.isWhitespace. */
  predicate IsWhite(c: char)
  {
    var n := c as int;
    || 0x09 <= n <= 0x0D
    || 0x1C <= n <= 0x20
    || n == 0x1680
    || 0x2000 <= n <= 0x2006
    || 0x2008 <= n <= 0x200A
    || n == 0x2028 || n == 0x2029 || n == 0x205F || n == 0x3000
  }

  /** White space are tabs, line ends, separators and blanks, but no non-breaking blanks. */
  lemma WhiteSpaceIs(c: char)
    ensures IsWhite(c) ==> c == ' ' || '\t' <= c <= '\r' || '\U{1C}' <= c <= '\U{1F}' || c >= '\U{1680}'
    ensures c == ' ' || '\t' <= c <= '\r' || '\U{1C}' <= c <= '\U{1F}' ==> IsWhite(c)
    ensures c >= '\U{1680}' ==> (IsWhite(c) <==>
      || c in {'\U{1680}', '\U{2028}', '\U{2029}', '\U{205F}', '\U{3000}'}
      || ('\U{2000}' <= c <= '\U{200A}' && c != '\U{2007}'))
  {
  }

  /** String.isBlank. */
  predicate IsBlank(s: string)
  {
    forall i :: 0 <= i < |s| ==> IsWhite(s[i])
  }

  /** The recurring guard `s != null && !s.isBlank()`. */
  predicate Present(s: Option<string>)
  {
    s.Some? && !IsBlank(s.value)
  }

  /** The recurring helper `a non-blank, else b non-blank, else null`. */
  function FirstNonBlank(a: Option<string>, b: Option<string>): Option<string>
  {
    if Present(a) then a else if Present(b) then b else None
  }

  function OrElse(s: Option<string>, fallback: string): string
  {
    if s.Some? then s.value else fallback
  }

  function TrimLeft(s: string): (t: string)
    ensures |t| <= |s|
  {
    if s != "" && s[0] <= ' ' then TrimLeft(s[1..]) else s
  }

  function TrimRight(s: string): string
  {
    if s != "" && s[|s| - 1] <= ' ' then TrimRight(s[..|s| - 1]) else s
  }

  /** String.trim: strips characters up to and including U+0020 at both ends. */
  function Trim(s: string): string
  {
    TrimRight(TrimLeft(s))
  }

  predicate Stripped(c: char)
  {
    c <= ' '
  }

  /** trim cuts exactly the characters up to U+0020 at both ends: what is left is the middle of the text and has none of
      them at an end. */
  lemma TrimShape(s: string) returns (left: string, right: string)
    ensures s == left + Trim(s) + right
    ensures forall i :: 0 <= i < |left| ==> Stripped(left[i])
    ensures forall i :: 0 <= i < |right| ==> Stripped(right[i])
    ensures Trim(s) != "" ==> !Stripped(Trim(s)[0]) && !Stripped(Trim(s)[|Trim(s)| - 1])
  {
    hide TrimLeft, TrimRight;
    left := TrimLeftShape(s);
    right := TrimRightShape(TrimLeft(s));
    assert s == left + (Trim(s) + right);
  }

  lemma {:induction false} TrimLeftShape(s: string) returns (left: string)
    ensures s == left + TrimLeft(s) && forall i :: 0 <= i < |left| ==> Stripped(left[i])
    ensures TrimLeft(s) != "" ==> !Stripped(TrimLeft(s)[0])
  {
    left := "";
    if s != "" && s[0] <= ' ' {
      left := TrimLeftShape(s[1..]);
      left := [s[0]] + left;
    }
  }

  lemma {:induction false} TrimRightShape(s: string) returns (right: string)
    ensures s == TrimRight(s) + right && forall i :: 0 <= i < |right| ==> Stripped(right[i])
    ensures TrimRight(s) != "" ==> TrimRight(s)[0] == s[0] && !Stripped(TrimRight(s)[|TrimRight(s)| - 1])
  {
    right := "";
    if s != "" && s[|s| - 1] <= ' ' {
      right := TrimRightShape(s[..|s| - 1]);
      right := right + [s[|s| - 1]];
    }
  }

  function LowerChar(c: char): char
  {
    if 'A' <= c <= 'Z' then c - 'A' + 'a' else c
  }

  /** toLowerCase on text whose letters are all ASCII. */
  function AsciiLower(s: string): (t: string)
    ensures |t| == |s|
    ensures forall i :: 0 <= i < |s| ==> t[i] == LowerChar(s[i])
  {
    seq(|s|, i requires 0 <= i < |s| => LowerChar(s[i]))
  }

  /** substring(0, limit) when the text is longer than the limit. */
  function Truncate(s: string, limit: nat): (t: string)
    ensures |t| == (if |s| <= limit then |s| else limit) && t <= s
  {
    if |s| > limit then s[..limit] else s
  }
}
