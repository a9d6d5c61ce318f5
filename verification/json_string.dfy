/**
 * JSON string literals as section 7 of RFC 8259 defines them: how a reader
 * takes the characters after an opening quote up to the closing quote, and
 * an escaper whose output that reader always gives back unchanged. A
 * character outside the Basic Multilingual Plane may be written as a
 * surrogate pair of `\u` escapes; a lone surrogate escape, which the grammar
 * admits but which names no character (section 8.2), is refused.
 */
module JsonString {
  import opened Wrappers

  /** The value of a hexadecimal digit (either case). */
  function HexValue(c: char): (r: Option<nat>)
    ensures r.Some? ==> r.value < 16
  {
    if '0' <= c <= '9' then Some(c as int - '0' as int)
    else if 'a' <= c <= 'f' then Some(c as int - 'a' as int + 10)
    else if 'A' <= c <= 'F' then Some(c as int - 'A' as int + 10)
    else None
  }

  /** The lower-case hexadecimal digit for d. */
  function HexDigit(d: nat): (c: char)
    requires d < 16
    ensures HexValue(c) == Some(d)
  {
    if d < 10 then ('0' as int + d) as char else ('a' as int + d - 10) as char
  }

  /** The value of the four hexadecimal digits `s` starts with, if it does. */
  function HexQuad(s: string): (r: Option<nat>)
    ensures r.Some? ==> r.value < 0x10000
  {
    if |s| < 4 then None
    else
      match (HexValue(s[0]), HexValue(s[1]), HexValue(s[2]), HexValue(s[3]))
      case (Some(a), Some(b), Some(c), Some(d)) => Some(((a * 16 + b) * 16 + c) * 16 + d)
      case _ => None
  }

  /**
   * The character an escape sequence stands for, and how many characters of
   * `s` (the text after the backslash) it takes up. A `\u` escape naming a
   * high surrogate must be followed by one naming a low surrogate, and the
   * pair stands for one character beyond U+FFFF; a lone surrogate is refused.
   */
  function Unescape(s: string): (r: Option<(char, nat)>)
    ensures r.Some? ==> 1 <= r.value.1 <= |s|
  {
    if s == [] then None
    else if s[0] == '"' then Some(('"', 1))
    else if s[0] == '\\' then Some(('\\', 1))
    else if s[0] == '/' then Some(('/', 1))
    else if s[0] == 'b' then Some((8 as char, 1))
    else if s[0] == 'f' then Some((12 as char, 1))
    else if s[0] == 'n' then Some(('\n', 1))
    else if s[0] == 'r' then Some(('\r', 1))
    else if s[0] == 't' then Some(('\t', 1))
    else if s[0] == 'u' then
      match HexQuad(s[1..])
      case None => None
      case Some(v) =>
        if 0xD800 <= v < 0xDC00 then
          if |s| < 11 || s[5] != '\\' || s[6] != 'u' then None
          else
            match HexQuad(s[7..])
            case None => None
            case Some(w) =>
              if 0xDC00 <= w < 0xE000 then Some(((0x10000 + (v - 0xD800) * 0x400 + (w - 0xDC00)) as char, 11))
              else None
        else if 0xDC00 <= v < 0xE000 then None
        else Some((v as char, 5))
    else None
  }

  /**
   * Reads the content of a string literal whose opening quote has already
   * been consumed: the decoded text and what follows the closing quote, or
   * None when the literal is malformed or unterminated.
   */
  function ReadString(s: string): Option<(string, string)>
    decreases |s|
  {
    if s == [] then None
    else if s[0] == '"' then Some(("", s[1..]))
    else if s[0] == '\\' then
      match Unescape(s[1..])
      case None => None
      case Some((c, n)) =>
        match ReadString(s[1 + n..])
        case None => None
        case Some((text, rest)) => Some(([c] + text, rest))
    else if s[0] < ' ' then None
    else
      match ReadString(s[1..])
      case None => None
      case Some((text, rest)) => Some(([s[0]] + text, rest))
  }

  /** Text that may stand between quotes as it is: no quote, no backslash, no control character. */
  predicate Plain(s: string)
  {
    forall i :: 0 <= i < |s| ==> s[i] != '"' && s[i] != '\\' && s[i] >= ' '
  }

  /** A reader stops at the first quote of its input: plain text before it is the whole value. */
  lemma {:induction false} ReadPlain(p: string, q: string)
    requires Plain(p)
    ensures ReadString(p + "\"" + q) == Some((p, q))
    decreases |p|
  {
    if p == [] {
      assert p + "\"" + q == "\"" + q;
    } else {
      assert (p + "\"" + q)[1..] == p[1..] + "\"" + q;
      ReadPlain(p[1..], q);
      assert [p[0]] + p[1..] == p;
    }
  }

  /** The escape sequence for one character. */
  function EscapeChar(c: char): string
  {
    if c == '"' then "\\\""
    else if c == '\\' then "\\\\"
    else if c < ' ' then "\\u00" + [HexDigit(c as int / 16), HexDigit(c as int % 16)]
    else [c]
  }

  /** The content of a string literal for t: every quote, backslash and control character escaped. */
  function Escape(t: string): string
  {
    if t == [] then "" else EscapeChar(t[0]) + Escape(t[1..])
  }

  /** Reading past one escaped character gives that character back in front of what follows. */
  lemma ReadEscapedChar(c: char, s: string)
    ensures ReadString(EscapeChar(c) + s) ==
      match ReadString(s)
      case None => None
      case Some((text, rest)) => Some(([c] + text, rest))
  {
  }

  /** Escaping round-trips: the reader gives back exactly the escaped text and what follows it. */
  lemma {:induction false} EscapeRoundTrip(t: string, rest: string)
    ensures ReadString(Escape(t) + "\"" + rest) == Some((t, rest))
    decreases |t|
  {
    if t == [] {
      assert Escape(t) + "\"" + rest == "\"" + rest;
    } else {
      assert Escape(t) + "\"" + rest == EscapeChar(t[0]) + (Escape(t[1..]) + "\"" + rest);
      EscapeRoundTrip(t[1..], rest);
      ReadEscapedChar(t[0], Escape(t[1..]) + "\"" + rest);
      assert [t[0]] + t[1..] == t;
    }
  }

  /** A character beyond U+FFFF written as a surrogate pair of escapes reads back as that one character. */
  lemma SurrogatePairEscape()
    ensures ReadString("\\ud83d\\ude00\"") == Some(("\U{1F600}", ""))
  {
    var e := "ud83d\\ude00\"";
    assert "\\ud83d\\ude00\"" == "\\" + e;
    assert HexQuad(e[1..]) == Some(0xD83D);
    assert HexQuad(e[7..]) == Some(0xDE00);
    assert Unescape(e) == Some(('\U{1F600}', 11));
    assert e[11..] == "\"";
    assert ("\\" + e)[1..] == e && ("\\" + e)[12..] == "\"";
    assert ReadString("\"") == Some(("", ""));
    assert ['\U{1F600}'] + "" == "\U{1F600}";
  }
}
