/**
 * Escaping for text placed inside a double-quoted JavaScript string
 * literal, the context of the `new Image().src="..."` prefetch script.
 * Backslash and both quote characters are backslash-escaped, and the two
 * line terminators, which may not appear raw in a literal, become `\n` and `\r`.
 */
module JsEscaping {
  import opened Wrappers

  function EscapeChar(c: char): string {
    if c == '\\' then "\\\\"
    else if c == '"' then "\\\""
    else if c == '\'' then "\\'"
    else if c == '\n' then "\\n"
    else if c == '\r' then "\\r"
    else [c]
  }

  function Escape(s: string): (r: string)
    decreases |s|
  {
    if |s| == 0 then "" else EscapeChar(s[0]) + Escape(s[1..])
  }

  /**
   * How far a double-quoted literal body extends in `t`: up to the first
   * quote that no backslash escapes (or the end of `t`). This is where a
   * JavaScript lexer would end the string.
   */
  function LiteralBodyLength(t: string): (n: nat)
    ensures n <= |t|
    decreases |t|
  {
    if |t| == 0 || t[0] == '"' then 0
    else if t[0] == '\\' && |t| >= 2 then 2 + LiteralBodyLength(t[2..])
    else 1 + LiteralBodyLength(t[1..])
  }

  /**
   * The string value of a literal body. None when the body is not one: it
   * holds an unescaped quote or a raw line terminator, or ends in a lone backslash.
   */
  function Decode(t: string): (r: Option<string>)
    decreases |t|
  {
    if |t| == 0 then Some("")
    else if t[0] == '"' || t[0] == '\n' || t[0] == '\r' then None
    else if t[0] == '\\' then
      if |t| < 2 then None
      else
        var c := if t[1] == 'n' then '\n' else if t[1] == 'r' then '\r' else t[1];
        var tail := Decode(t[2..]);
        if tail.Some? then Some([c] + tail.value) else None
    else
      var tail := Decode(t[1..]);
      if tail.Some? then Some([t[0]] + tail.value) else None
  }

  lemma DecodeEscapeChar(c: char, rest: string)
    ensures Decode(EscapeChar(c) + rest) == (if Decode(rest).Some? then Some([c] + Decode(rest).value) else None)
  {
    var e := EscapeChar(c);
    var t := e + rest;
    if |e| == 2 {
      assert t[0] == '\\' && t[1] == e[1] && t[2..] == rest;
    } else {
      assert t[0] == c && t[1..] == rest;
    }
  }

  /** The escaped text is a well-formed literal body whose value is the original string. */
  lemma {:induction false} DecodeEscape(s: string)
    ensures Decode(Escape(s)) == Some(s)
    decreases |s|
  {
    if |s| > 0 {
      DecodeEscape(s[1..]);
      DecodeEscapeChar(s[0], Escape(s[1..]));
      assert [s[0]] + s[1..] == s;
    }
  }

  /** An escaped character is lexed as one unit of the literal body. */
  lemma BodyLengthEscapeChar(c: char, tail: string)
    ensures LiteralBodyLength(EscapeChar(c) + tail) == |EscapeChar(c)| + LiteralBodyLength(tail)
  {
    var e := EscapeChar(c);
    var t := e + tail;
    if |e| == 2 {
      assert t[0] == '\\' && t[2..] == tail;
    } else {
      assert t[0] == c && t[1..] == tail;
    }
  }

  lemma Regroup(a: string, b: string, c: string, d: string)
    ensures a + b + c + d == a + (b + c + d)
  {
  }

  /**
   * No value can end the literal early: when the escaped text is followed by
   * the closing quote, the lexer's literal body is exactly the escaped text.
   */
  lemma {:induction false} LiteralEndsAtClosingQuote(s: string, rest: string)
    ensures LiteralBodyLength(Escape(s) + "\"" + rest) == |Escape(s)|
    decreases |s|
  {
    if |s| == 0 {
      assert Escape(s) + "\"" + rest == "\"" + rest;
    } else {
      var e := EscapeChar(s[0]);
      var tail := Escape(s[1..]);
      Regroup(e, tail, "\"", rest);
      LiteralEndsAtClosingQuote(s[1..], rest);
      BodyLengthEscapeChar(s[0], tail + "\"" + rest);
    }
  }
}
