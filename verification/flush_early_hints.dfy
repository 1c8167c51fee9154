/**
 * The hints carry URLs in two contexts: between double quotes of an HTML
 * attribute, and inside a double-quoted JavaScript string. Whatever the URL,
 * an HTML tokenizer reading an attribute hint, and a JavaScript lexer reading
 * the string of an image hint, find the value ending where the hint means it
 * to end and decoding back to the URL. The JavaScript escaping leaves `<` and
 * `/` alone, so what an HTML tokenizer makes of a `</script>` inside a URL
 * in an image hint is not covered here.
 */
module FlushEarlyHints {
  import opened Wrappers
  import opened Strings
  import opened FlushEarlyWriter
  import HtmlEscaping
  import JsEscaping

  /** What an HTML tokenizer takes as a double-quoted attribute value: the text up to the next double quote. */
  function QuotedValue(s: string): (r: string)
    ensures |r| <= |s| && r == s[..|r|] && '"' !in r
    ensures |r| < |s| ==> s[|r|] == '"'
    decreases |s|
  {
    if |s| == 0 || s[0] == '"' then "" else [s[0]] + QuotedValue(s[1..])
  }

  lemma {:induction false} QuotedValueStops(e: string, rest: string)
    requires '"' !in e
    ensures QuotedValue(e + "\"" + rest) == e
    decreases |e|
  {
    if |e| == 0 {
      assert e + "\"" + rest == "\"" + rest;
    } else {
      var t := e + "\"" + rest;
      assert t[0] == e[0] && t[1..] == e[1..] + "\"" + rest;
      assert e[0] != '"';
      QuotedValueStops(e[1..], rest);
      assert [e[0]] + e[1..] == e;
    }
  }

  lemma EscapedHasNoQuote(url: string)
    ensures '"' !in HtmlEscaping.Escape(url)
  {
    var e := HtmlEscaping.Escape(url);
    assert forall i :: 0 <= i < |e| ==> e[i] != '"';
  }

  /** Cuts a hint after its opening part; the closing part starts with its quote. */
  lemma SplitAfterOpen(open: string, e: string, close: string)
    requires |close| > 0 && close[0] == '"'
    ensures (open + e + close)[..|open|] == open
    ensures (open + e + close)[|open|..] == e + "\"" + close[1..]
  {
    assert close == "\"" + close[1..];
  }

  /**
   * For any hint of the shape open + escaped URL + closing quote ...: the
   * tokenizer reads exactly the escaped URL as the value, and that decodes
   * to the URL whenever the URL is ASCII.
   */
  lemma AttributeHintReadsBack(open: string, url: string, close: string)
    requires |close| > 0 && close[0] == '"'
    ensures var html := open + HtmlEscaping.Escape(url) + close;
            && html[..|open|] == open
            && QuotedValue(html[|open|..]) == HtmlEscaping.Escape(url)
            && (IsAscii(url) ==> HtmlEscaping.Unescape(QuotedValue(html[|open|..])) == Some(url))
  {
    var e := HtmlEscaping.Escape(url);
    SplitAfterOpen(open, e, close);
    EscapedHasNoQuote(url);
    QuotedValueStops(e, close[1..]);
    HtmlEscaping.UnescapeEscapeIfAscii(url);
  }

  /** The three attribute-borne hint forms each hand the URL back to a reader intact. */
  lemma HintAttributesReadBack(url: string)
    ensures QuotedValue(StylesheetLink(url)[|StylesheetLinkOpen|..]) == HtmlEscaping.Escape(url)
    ensures QuotedValue(PsaPrefetchScript(url)[|PsaPrefetchOpen|..]) == HtmlEscaping.Escape(url)
    ensures QuotedValue(PrefetchLink(url)[|PrefetchLinkOpen|..]) == HtmlEscaping.Escape(url)
    ensures IsAscii(url) ==>
              && HtmlEscaping.Unescape(QuotedValue(StylesheetLink(url)[|StylesheetLinkOpen|..])) == Some(url)
              && HtmlEscaping.Unescape(QuotedValue(PsaPrefetchScript(url)[|PsaPrefetchOpen|..])) == Some(url)
              && HtmlEscaping.Unescape(QuotedValue(PrefetchLink(url)[|PrefetchLinkOpen|..])) == Some(url)
  {
    AttributeHintReadsBack(StylesheetLinkOpen, url, "\"/>\n");
    AttributeHintReadsBack(PsaPrefetchOpen, url, "\"></script>\n");
    AttributeHintReadsBack(PrefetchLinkOpen, url, "\"/>\n");
  }

  /**
   * In the image hint the JavaScript string literal ends exactly after the
   * escaped URL, is followed by the statement's `";`, and has the URL as its value.
   */
  lemma ImageHintReadsBack(url: string)
    ensures var h := ImageSrc(url);
            var t := h[|ImageSrcOpen|..];
            var n := JsEscaping.LiteralBodyLength(t);
            && h[..|ImageSrcOpen|] == ImageSrcOpen
            && t[n..] == "\";"
            && JsEscaping.Decode(t[..n]) == Some(url)
  {
    var h := ImageSrc(url);
    var e := JsEscaping.Escape(url);
    assert h[..|ImageSrcOpen|] == ImageSrcOpen;
    var t := h[|ImageSrcOpen|..];
    assert t == e + "\"" + ";";
    JsEscaping.LiteralEndsAtClosingQuote(url, ";");
    assert t[..|e|] == e;
    assert t[|e|..] == "\";";
    JsEscaping.DecodeEscape(url);
  }

  // ------------------------------------------------- quotes inside URLs

  lemma {:induction false} HtmlEscapeAppend(a: string, b: string)
    ensures HtmlEscaping.Escape(a + b) == HtmlEscaping.Escape(a) + HtmlEscaping.Escape(b)
    decreases |a|
  {
    if |a| == 0 {
      assert a + b == b;
    } else {
      assert (a + b)[0] == a[0] && (a + b)[1..] == a[1..] + b;
      HtmlEscapeAppend(a[1..], b);
    }
  }

  lemma {:induction false} JsEscapeAppend(a: string, b: string)
    ensures JsEscaping.Escape(a + b) == JsEscaping.Escape(a) + JsEscaping.Escape(b)
    decreases |a|
  {
    if |a| == 0 {
      assert a + b == b;
    } else {
      assert (a + b)[0] == a[0] && (a + b)[1..] == a[1..] + b;
      JsEscapeAppend(a[1..], b);
    }
  }

  /** Text that neither escaping touches. */
  predicate Plain(s: string) {
    forall i :: 0 <= i < |s| ==> !HtmlEscaping.NeedsEscape(s[i]) && s[i] != '\\' && s[i] != '\n' && s[i] != '\r'
  }

  lemma {:induction false} PlainEscapesToItself(s: string)
    requires Plain(s)
    ensures HtmlEscaping.Escape(s) == s && JsEscaping.Escape(s) == s
    decreases |s|
  {
    if |s| > 0 {
      assert Plain(s[1..]) by {
        forall i | 0 <= i < |s[1..]|
          ensures !HtmlEscaping.NeedsEscape(s[1..][i]) && s[1..][i] != '\\' && s[1..][i] != '\n' && s[1..][i] != '\r'
        {
          assert s[1..][i] == s[i + 1];
        }
      }
      PlainEscapesToItself(s[1..]);
      assert !HtmlEscaping.NeedsEscape(s[0]);
      assert [s[0]] + s[1..] == s;
    }
  }

  lemma HtmlEscapeThree(x: string, q: string, y: string)
    ensures HtmlEscaping.Escape(x + q + y) == HtmlEscaping.Escape(x) + HtmlEscaping.Escape(q) + HtmlEscaping.Escape(y)
  {
    HtmlEscapeAppend(x + q, y);
    HtmlEscapeAppend(x, q);
  }

  lemma JsEscapeThree(x: string, q: string, y: string)
    ensures JsEscaping.Escape(x + q + y) == JsEscaping.Escape(x) + JsEscaping.Escape(q) + JsEscaping.Escape(y)
  {
    JsEscapeAppend(x + q, y);
    JsEscapeAppend(x, q);
  }

  lemma EscapeOneChar(c: char)
    ensures HtmlEscaping.Escape([c]) == HtmlEscaping.EscapeChar(c)
    ensures JsEscaping.Escape([c]) == JsEscaping.EscapeChar(c)
  {
    assert [c][1..] == [];
  }

  lemma HtmlQuoteInUrl(x: string, y: string)
    requires Plain(x)
    ensures HtmlEscaping.Escape(x + "\"" + y) == x + "&quot;" + HtmlEscaping.Escape(y)
  {
    PlainEscapesToItself(x);
    HtmlEscapeThree(x, "\"", y);
    EscapeOneChar('"');
  }

  lemma JsQuoteInUrl(x: string, y: string)
    requires Plain(x)
    ensures JsEscaping.Escape(x + "\"" + y) == x + "\\\"" + JsEscaping.Escape(y)
  {
    PlainEscapesToItself(x);
    JsEscapeThree(x, "\"", y);
    EscapeOneChar('"');
  }

  /**
   * A double quote inside a URL never reaches the output raw: in an
   * attribute it becomes `&quot;`, in a JavaScript string `\"`.
   */
  lemma QuoteInUrl(x: string, y: string)
    requires Plain(x)
    ensures HtmlEscaping.Escape(x + "\"" + y) == x + "&quot;" + HtmlEscaping.Escape(y)
    ensures JsEscaping.Escape(x + "\"" + y) == x + "\\\"" + JsEscaping.Escape(y)
  {
    HtmlQuoteInUrl(x, y);
    JsQuoteInUrl(x, y);
  }
}
