/**
 * HTML character references as the attribute model uses them: the escaper
 * that SetValue applies to a raw value, and the decoder that SetEscapedValue
 * applies to text taken verbatim from the document. Only 7-bit ASCII can be
 * decoded; anything else is a decoding error, never a garbled value.
 */
module HtmlEscaping {
  import opened Wrappers
  import opened Strings

  predicate StartsWith(s: string, prefix: string) {
    |prefix| <= |s| && s[..|prefix|] == prefix
  }

  lemma StartsWithAppend(prefix: string, rest: string)
    ensures StartsWith(prefix + rest, prefix)
  {
    assert (prefix + rest)[..|prefix|] == prefix;
  }

  /** Characters that may not appear literally inside a quoted attribute value. */
  predicate NeedsEscape(c: char) {
    c == '&' || c == '"' || c == '\'' || c == '<' || c == '>'
  }

  /** The named character reference written for `c`, or `c` itself. */
  function EscapeChar(c: char): string {
    if c == '&' then "&amp;"
    else if c == '"' then "&quot;"
    else if c == '\'' then "&apos;"
    else if c == '<' then "&lt;"
    else if c == '>' then "&gt;"
    else [c]
  }

  /** Text in which no character can end or open a quoted attribute value. */
  predicate QuoteSafe(s: string) {
    forall i :: 0 <= i < |s| ==> s[i] != '"' && s[i] != '\'' && s[i] != '<' && s[i] != '>'
  }

  lemma EscapeCharSafe(c: char)
    ensures QuoteSafe(EscapeChar(c)) && |EscapeChar(c)| >= 1
    ensures IsAsciiChar(c) ==> IsAscii(EscapeChar(c))
  {
  }

  lemma SafeAppend(a: string, b: string)
    ensures QuoteSafe(a) && QuoteSafe(b) ==> QuoteSafe(a + b)
    ensures IsAscii(a) && IsAscii(b) ==> IsAscii(a + b)
  {
    assert forall i :: |a| <= i < |a + b| ==> (a + b)[i] == b[i - |a|];
  }

  /**
   * Escapes a raw value for placement between attribute quotes. The result
   * holds no quote of either kind, so it cannot end the attribute early.
   */
  function Escape(s: string): (r: string)
    ensures QuoteSafe(r)
    ensures |r| >= |s|
    ensures IsAscii(s) ==> IsAscii(r)
    decreases |s|
  {
    if |s| == 0 then ""
    else
      var head := EscapeChar(s[0]);
      var tail := Escape(s[1..]);
      EscapeCharSafe(s[0]);
      SafeAppend(head, tail);
      assert IsAscii(s) ==> IsAsciiChar(s[0]) && IsAscii(s[1..]);
      head + tail
  }

  /** Length of the run of decimal digits at the start of `s`. */
  function DigitPrefix(s: string): (n: nat)
    ensures n <= |s| && AllDigits(s[..n])
    ensures n < |s| ==> !IsDigit(s[n])
    decreases |s|
  {
    if |s| > 0 && IsDigit(s[0]) then
      var n := 1 + DigitPrefix(s[1..]);
      assert s[..n] == [s[0]] + s[1..][..n - 1];
      n
    else 0
  }

  predicate IsHexDigit(c: char) {
    IsDigit(c) || 'a' <= c <= 'f' || 'A' <= c <= 'F'
  }

  function HexDigitValue(c: char): (d: nat)
    requires IsHexDigit(c)
    ensures d < 16
  {
    if IsDigit(c) then DigitValue(c)
    else if 'a' <= c <= 'f' then c as int - 'a' as int + 10
    else c as int - 'A' as int + 10
  }

  /** Length of the run of hexadecimal digits at the start of `s`. */
  function HexPrefix(s: string): (n: nat)
    ensures n <= |s| && forall i :: 0 <= i < n ==> IsHexDigit(s[i])
    ensures n < |s| ==> !IsHexDigit(s[n])
    decreases |s|
  {
    if |s| > 0 && IsHexDigit(s[0]) then 1 + HexPrefix(s[1..]) else 0
  }

  function HexValue(s: string): nat
    requires forall i :: 0 <= i < |s| ==> IsHexDigit(s[i])
    decreases |s|
  {
    if |s| == 0 then 0 else HexValue(s[..|s| - 1]) * 16 + HexDigitValue(s[|s| - 1])
  }

  /** A character reference recognised at the start of the text: the code point and how many characters it spans. */
  datatype Reference = Reference(code: nat, length: nat)

  /**
   * Recognises `&name;` for the five names the escaper writes, `&#digits;`
   * and `&#xhex;`. A reference must end with a semicolon; an ampersand that
   * starts no reference stands for itself.
   */
  function ReadReference(s: string): (r: Option<Reference>)
    requires |s| > 0 && s[0] == '&'
    ensures r.Some? ==> 2 <= r.value.length <= |s|
  {
    if StartsWith(s, "&amp;") then Some(Reference('&' as nat, 5))
    else if StartsWith(s, "&quot;") then Some(Reference('"' as nat, 6))
    else if StartsWith(s, "&apos;") then Some(Reference('\'' as nat, 6))
    else if StartsWith(s, "&lt;") then Some(Reference('<' as nat, 4))
    else if StartsWith(s, "&gt;") then Some(Reference('>' as nat, 4))
    else if StartsWith(s, "&#x") || StartsWith(s, "&#X") then
      var n := HexPrefix(s[3..]);
      if n > 0 && 3 + n < |s| && s[3 + n] == ';' then Some(Reference(HexValue(s[3..3 + n]), n + 4)) else None
    else if StartsWith(s, "&#") then
      var n := DigitPrefix(s[2..]);
      assert s[2..2 + n] == s[2..][..n];
      if n > 0 && 2 + n < |s| && s[2 + n] == ';' then Some(Reference(DigitsValue(s[2..2 + n]), n + 3)) else None
    else None
  }

  /** A reference the decoder can represent: a non-NUL 7-bit code point. */
  predicate Decodable(code: nat) {
    0 < code < 128
  }

  function Prepend(c: char, r: Option<string>): Option<string> {
    if r.Some? then Some([c] + r.value) else None
  }

  /**
   * Decodes an escaped attribute value. None is the decoding error: a
   * character outside 7-bit ASCII in the source, or a reference to a code
   * point the decoder cannot represent.
   */
  function Unescape(s: string): (r: Option<string>)
    ensures r.Some? ==> IsAscii(r.value) && |r.value| <= |s|
    decreases |s|
  {
    if |s| == 0 then Some("")
    else if !IsAsciiChar(s[0]) then None
    else if s[0] == '&' && ReadReference(s).Some? then
      var ref := ReadReference(s).value;
      if Decodable(ref.code) then Prepend(ref.code as char, Unescape(s[ref.length..])) else None
    else Prepend(s[0], Unescape(s[1..]))
  }

  /** The reference the escaper writes for `c` decodes to `c`, whatever follows it. */
  lemma UnescapeEscapeChar(c: char, rest: string)
    requires IsAsciiChar(c)
    ensures Unescape(EscapeChar(c) + rest) == Prepend(c, Unescape(rest))
  {
    var e := EscapeChar(c);
    var t := e + rest;
    StartsWithAppend(e, rest);
    assert t[..|e|] == e;
    assert t[|e|..] == rest;
    if c == '&' {
      assert ReadReference(t) == Some(Reference('&' as nat, 5));
    } else if c == '"' {
      assert t[1] == 'q';
      assert ReadReference(t) == Some(Reference('"' as nat, 6));
    } else if c == '\'' {
      assert t[1] == 'a' && t[2] == 'p';
      assert ReadReference(t) == Some(Reference('\'' as nat, 6));
    } else if c == '<' {
      assert t[1] == 'l';
      assert ReadReference(t) == Some(Reference('<' as nat, 4));
    } else if c == '>' {
      assert t[1] == 'g';
      assert ReadReference(t) == Some(Reference('>' as nat, 4));
    } else {
      assert t[0] == c && t[1..] == rest;
    }
  }

  /** Escaping then decoding gives back every 7-bit value: the escaped and decoded forms agree. */
  lemma {:induction false} UnescapeEscape(s: string)
    requires IsAscii(s)
    ensures Unescape(Escape(s)) == Some(s)
    decreases |s|
  {
    if |s| > 0 {
      UnescapeEscape(s[1..]);
      UnescapeEscapeChar(s[0], Escape(s[1..]));
      assert [s[0]] + s[1..] == s;
    }
  }

  /** Text with no ampersand decodes to itself; only references change anything. */
  lemma {:induction false} UnescapePlain(s: string)
    requires IsAscii(s) && '&' !in s
    ensures Unescape(s) == Some(s)
    decreases |s|
  {
    if |s| > 0 {
      assert s[0] in s;
      assert forall c :: c in s[1..] ==> c in s;
      UnescapePlain(s[1..]);
      assert [s[0]] + s[1..] == s;
    }
  }

  /** A byte outside 7-bit ASCII anywhere in the source makes the whole value undecodable. */
  lemma {:induction false} UnescapeNonAscii(s: string, i: nat)
    requires i < |s| && !IsAsciiChar(s[i])
    ensures Unescape(s).None?
    decreases |s|
  {
    if IsAsciiChar(s[0]) {
      if s[0] == '&' && ReadReference(s).Some? {
        var ref := ReadReference(s).value;
        if Decodable(ref.code) {
          if i >= ref.length {
            UnescapeNonAscii(s[ref.length..], i - ref.length);
          } else {
            // every character a recognised reference spans is ASCII
            assert i > 0;
            ReferenceIsAscii(s, i);
          }
        }
      } else {
        UnescapeNonAscii(s[1..], i - 1);
      }
    }
  }

  /** The characters a recognised reference spans are all ASCII. */
  lemma ReferenceIsAscii(s: string, i: nat)
    requires |s| > 0 && s[0] == '&' && ReadReference(s).Some?
    requires i < ReadReference(s).value.length
    ensures IsAsciiChar(s[i])
  {
    if StartsWith(s, "&amp;") || StartsWith(s, "&quot;") || StartsWith(s, "&apos;") || StartsWith(s, "&lt;") || StartsWith(s, "&gt;") {
    } else if StartsWith(s, "&#x") || StartsWith(s, "&#X") {
      var n := HexPrefix(s[3..]);
      if 3 <= i < 3 + n {
        assert IsHexDigit(s[3..][i - 3]);
      }
    } else {
      var n := DigitPrefix(s[2..]);
      if 2 <= i < 2 + n {
        assert s[2..][..n][i - 2] == s[i];
      }
    }
  }

  lemma UnescapeEscapeIfAscii(s: string)
    ensures IsAscii(s) ==> Unescape(Escape(s)) == Some(s)
  {
    if IsAscii(s) {
      UnescapeEscape(s);
    }
  }

  /** What the decoder does with text that has a non-ASCII byte, and with plain ASCII text. */
  lemma UnescapeCases(s: string)
    ensures !IsAscii(s) ==> Unescape(s).None?
    ensures IsAscii(s) && '&' !in s ==> Unescape(s) == Some(s)
  {
    if !IsAscii(s) {
      var i :| 0 <= i < |s| && !IsAsciiChar(s[i]);
      UnescapeNonAscii(s, i);
    } else if '&' !in s {
      UnescapePlain(s);
    }
  }
}
