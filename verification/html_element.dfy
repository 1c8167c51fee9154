/**
 * An HTML element as the parser and the rewrite filters see it: a tag name
 * and an ordered list of attributes. Every attribute keeps its value twice,
 * as written in the document (escaped) and decoded, and a decoding-error
 * flag that hides a value the decoder could not interpret.
 */
module HtmlElement {
  import opened Wrappers
  import opened Strings
  import HtmlEscaping

  /**
   * A tag or attribute name: the keyword the name table resolved it to, which
   * lookups compare, and the name as written, which need not be case-folded.
   */
  datatype HtmlName = HtmlName(keyword: string, text: string)

  /** The quotation mark the value was written with, kept for re-serialisation. */
  datatype Quote = DoubleQuote | SingleQuote | NoQuote

  datatype CloseStyle = AutoClose | ImplicitClose | ExplicitClose | BriefClose | Unclosed

  /**
   * `escapedValue` is None for a valueless attribute (`<tag a>`), which is
   * not the same as the empty value (`<tag a="">`). When `decodingError`
   * holds, `value` is None and only the escaped form is meaningful.
   */
  datatype Attribute = Attribute(
    name: HtmlName,
    escapedValue: Option<string>,
    value: Option<string>,
    quote: Quote,
    decodingError: bool)

  /** The decoded value is the decoding of the escaped one, and the error flag says exactly when that failed. */
  predicate InSync(a: Attribute) {
    match a.escapedValue
    case None => a.value.None? && !a.decodingError
    case Some(e) => a.value == HtmlEscaping.Unescape(e) && a.decodingError == a.value.None?
  }

  /** The decoded value, or None when there is none or it could not be decoded. */
  function DecodedValueOrNull(a: Attribute): (r: Option<string>)
    ensures r.None? <==> a.decodingError || a.value.None?
    ensures r.Some? ==> r == a.value
  {
    if a.decodingError then None else a.value
  }

  /** Renames an attribute, leaving its value alone. */
  function SetAttributeName(a: Attribute, name: HtmlName): (r: Attribute)
    ensures r.name == name
    ensures r.escapedValue == a.escapedValue && r.value == a.value && r.decodingError == a.decodingError
    ensures r.quote == a.quote
    ensures DecodedValueOrNull(r) == DecodedValueOrNull(a)
  {
    a.(name := name)
  }

  /**
   * Sets the raw value (None: no value at all) and recomputes the escaped
   * form from it. The escaped form can be written between quotes of either
   * kind, and for a 7-bit value it decodes back to the value.
   */
  function SetValue(a: Attribute, v: Option<string>): (r: Attribute)
    ensures r.name == a.name && r.quote == a.quote
    ensures DecodedValueOrNull(r) == v
    ensures r.escapedValue.Some? <==> v.Some?
    ensures r.escapedValue.Some? ==> '"' !in r.escapedValue.value && '\'' !in r.escapedValue.value
    ensures v.None? || IsAscii(v.value) ==> InSync(r)
  {
    match v
    case None => a.(escapedValue := None, value := None, decodingError := false)
    case Some(s) =>
      HtmlEscaping.UnescapeEscapeIfAscii(s);
      a.(escapedValue := Some(HtmlEscaping.Escape(s)), value := Some(s), decodingError := false)
  }

  /**
   * Sets the value as written in the document and recomputes the decoded
   * form from it. A value with a byte outside 7-bit ASCII cannot be decoded.
   */
  function SetEscapedValue(a: Attribute, e: Option<string>): (r: Attribute)
    ensures r.name == a.name && r.quote == a.quote
    ensures r.escapedValue == e
    ensures InSync(r)
    ensures e.Some? && !IsAscii(e.value) ==> r.decodingError
    ensures e.Some? && IsAscii(e.value) && '&' !in e.value ==> DecodedValueOrNull(r) == e
  {
    match e
    case None => a.(escapedValue := None, value := None, decodingError := false)
    case Some(s) =>
      HtmlEscaping.UnescapeCases(s);
      var d := HtmlEscaping.Unescape(s);
      a.(escapedValue := e, value := d, decodingError := d.None?)
  }

  /** An attribute built from a raw value, as AddAttribute(name, value, quote) builds it. */
  function NewAttribute(name: HtmlName, v: Option<string>, quote: Quote): Attribute {
    SetValue(Attribute(name, None, None, quote, false), v)
  }

  /** An attribute built from text as written, as the lexer builds it through AddEscapedAttribute. */
  function NewEscapedAttribute(name: HtmlName, e: Option<string>, quote: Quote): Attribute {
    SetEscapedValue(Attribute(name, None, None, quote, false), e)
  }

  /**
   * For an attribute whose forms agree, the decoded accessor depends on the
   * escaped text alone: None for a valueless attribute or an undecodable
   * value, the decoding otherwise.
   */
  lemma DecodedValueFromEscaped(a: Attribute)
    requires InSync(a)
    ensures DecodedValueOrNull(a) == (if a.escapedValue.None? then None else HtmlEscaping.Unescape(a.escapedValue.value))
  {
  }

  /**
   * Going through both entry points leaves the forms in step: decoding the
   * document text, then setting that decoded value, gives an attribute with
   * the same decoded value and its own canonical escaped form.
   */
  lemma SetValueOfDecoded(a: Attribute, e: string)
    requires !NewEscapedAttribute(a.name, Some(e), a.quote).decodingError
    ensures var d := NewEscapedAttribute(a.name, Some(e), a.quote);
            var r := SetValue(d, DecodedValueOrNull(d));
            InSync(r) && DecodedValueOrNull(r) == DecodedValueOrNull(d)
  {
  }

  /** The five cases the attribute comment lists, with the decoded accessor's answer for each. */
  lemma DecodedValueExamples()
    ensures DecodedValueOrNull(NewEscapedAttribute(HtmlName("a", "a"), Some("val"), DoubleQuote)) == Some("val")
    ensures DecodedValueOrNull(NewEscapedAttribute(HtmlName("a", "a"), Some("&amp;"), DoubleQuote)) == Some("&")
    ensures DecodedValueOrNull(NewEscapedAttribute(HtmlName("a", "a"), Some(""), DoubleQuote)) == Some("")
    ensures DecodedValueOrNull(NewEscapedAttribute(HtmlName("a", "a"), None, NoQuote)) == None
    ensures var bad := NewEscapedAttribute(HtmlName("a", "a"), Some("muñecos"), DoubleQuote);
            DecodedValueOrNull(bad) == None && bad.decodingError
  {
    HtmlEscaping.UnescapeEscapeChar('&', "");
    assert HtmlEscaping.EscapeChar('&') + "" == "&amp;";
    assert HtmlEscaping.Unescape("") == Some("");
    assert ['&'] + "" == "&";
    assert HtmlEscaping.Unescape("&amp;") == Some("&");
    assert !IsAsciiChar("muñecos"[2]);
  }

  datatype Element = Element(name: HtmlName, attributes: seq<Attribute>, closeStyle: CloseStyle)

  /** Attribute `i` is the first one whose keyword is `k`. */
  predicate IsFirstWithKeyword(attrs: seq<Attribute>, k: string, i: nat) {
    i < |attrs| && attrs[i].name.keyword == k && forall j :: 0 <= j < i ==> attrs[j].name.keyword != k
  }

  predicate HasKeyword(attrs: seq<Attribute>, k: string) {
    exists i :: 0 <= i < |attrs| && attrs[i].name.keyword == k
  }

  /** Changes the tag; the attributes stay as they are. */
  function SetName(e: Element, name: HtmlName): (r: Element)
    ensures r.name == name && r.attributes == e.attributes && r.closeStyle == e.closeStyle
  {
    e.(name := name)
  }

  /**
   * Appends a copy of `a` after the existing attributes. There is no check
   * for a duplicate name.
   */
  function AddAttribute(e: Element, a: Attribute): (r: Element)
    ensures r.name == e.name && r.closeStyle == e.closeStyle
    ensures |r.attributes| == |e.attributes| + 1
    ensures r.attributes[..|e.attributes|] == e.attributes
    ensures r.attributes[|e.attributes|] == a
  {
    e.(attributes := e.attributes + [a])
  }

  /** AddAttribute(name, value, quote): appends an attribute whose escaped form is computed from the raw value. */
  function AddAttributeValue(e: Element, name: HtmlName, v: Option<string>, quote: Quote): (r: Element)
    ensures r.name == e.name && r.closeStyle == e.closeStyle
    ensures |r.attributes| == |e.attributes| + 1
    ensures r.attributes[..|e.attributes|] == e.attributes
    ensures var last := r.attributes[|e.attributes|];
            last.name == name && last.quote == quote && DecodedValueOrNull(last) == v
  {
    AddAttribute(e, NewAttribute(name, v, quote))
  }

  /** AddEscapedAttribute: appends an attribute whose decoded form is computed from the text as written. */
  function AddEscapedAttribute(e: Element, name: HtmlName, escaped: Option<string>, quote: Quote): (r: Element)
    ensures r.name == e.name && r.closeStyle == e.closeStyle
    ensures |r.attributes| == |e.attributes| + 1
    ensures r.attributes[..|e.attributes|] == e.attributes
    ensures var last := r.attributes[|e.attributes|];
            last.name == name && last.quote == quote && last.escapedValue == escaped && InSync(last)
  {
    AddAttribute(e, NewEscapedAttribute(name, escaped, quote))
  }

  /** Removes attribute `i`; the later ones move down one place and keep their order. */
  function DeleteAttributeAt(e: Element, i: nat): (r: Element)
    requires i < |e.attributes|
    ensures r.name == e.name && r.closeStyle == e.closeStyle
    ensures |r.attributes| == |e.attributes| - 1
    ensures forall j :: 0 <= j < i ==> r.attributes[j] == e.attributes[j]
    ensures forall j :: i <= j < |r.attributes| ==> r.attributes[j] == e.attributes[j + 1]
  {
    e.(attributes := e.attributes[..i] + e.attributes[i + 1..])
  }

  /** Looks an attribute up by keyword; the handle is the index of the first match. */
  function FindAttribute(e: Element, k: string): (r: Option<nat>)
    ensures r.None? <==> !HasKeyword(e.attributes, k)
    ensures r.Some? ==> IsFirstWithKeyword(e.attributes, k, r.value)
  {
    FindFrom(e.attributes, k, 0)
  }

  function FindFrom(attrs: seq<Attribute>, k: string, from: nat): (r: Option<nat>)
    requires from <= |attrs|
    requires forall j :: 0 <= j < from ==> attrs[j].name.keyword != k
    ensures r.None? <==> !HasKeyword(attrs, k)
    ensures r.Some? ==> IsFirstWithKeyword(attrs, k, r.value)
    decreases |attrs| - from
  {
    if from == |attrs| then None
    else if attrs[from].name.keyword == k then Some(from)
    else FindFrom(attrs, k, from + 1)
  }

  /**
   * Removes the first attribute named `k`. The flag says whether there was
   * one; when there was none the element is returned unchanged.
   */
  function DeleteAttribute(e: Element, k: string): (r: (Element, bool))
    ensures r.1 <==> HasKeyword(e.attributes, k)
    ensures !r.1 ==> r.0 == e
    ensures r.1 ==> |r.0.attributes| == |e.attributes| - 1
    ensures r.1 ==> exists i :: IsFirstWithKeyword(e.attributes, k, i) && r.0 == DeleteAttributeAt(e, i)
  {
    match FindAttribute(e, k)
    case None => (e, false)
    case Some(i) => (DeleteAttributeAt(e, i), true)
  }

  /**
   * The decoded value of the first attribute named `k`. None covers three
   * cases a caller cannot tell apart here: no such attribute, an attribute
   * without a value, and a value that could not be decoded.
   */
  function AttributeValue(e: Element, k: string): (r: Option<string>)
    ensures r.None? <==>
      !HasKeyword(e.attributes, k) ||
      exists i: nat :: IsFirstWithKeyword(e.attributes, k, i) && (e.attributes[i].value.None? || e.attributes[i].decodingError)
    ensures r.Some? ==> exists i: nat :: IsFirstWithKeyword(e.attributes, k, i) && r == e.attributes[i].value
  {
    match FindAttribute(e, k)
    case None => None
    case Some(i) => DecodedValueOrNull(e.attributes[i])
  }

  /** Writes an attribute back through the handle FindAttribute returned. */
  function ReplaceAttribute(e: Element, i: nat, a: Attribute): (r: Element)
    requires i < |e.attributes|
    ensures r.name == e.name && r.closeStyle == e.closeStyle
    ensures |r.attributes| == |e.attributes| && r.attributes[i] == a
    ensures forall j :: 0 <= j < |r.attributes| && j != i ==> r.attributes[j] == e.attributes[j]
  {
    e.(attributes := e.attributes[i := a])
  }

  /** Number of attributes named `k`: duplicates are legal in this model, as in HtmlElement. */
  function CountKeyword(attrs: seq<Attribute>, k: string): nat
    decreases |attrs|
  {
    if |attrs| == 0 then 0
    else (if attrs[|attrs| - 1].name.keyword == k then 1 else 0) + CountKeyword(attrs[..|attrs| - 1], k)
  }

  lemma {:induction false} CountKeywordAppend(xs: seq<Attribute>, ys: seq<Attribute>, k: string)
    ensures CountKeyword(xs + ys, k) == CountKeyword(xs, k) + CountKeyword(ys, k)
    decreases |ys|
  {
    if |ys| == 0 {
      assert xs + ys == xs;
    } else {
      assert (xs + ys)[..|xs + ys| - 1] == xs + ys[..|ys| - 1];
      CountKeywordAppend(xs, ys[..|ys| - 1], k);
    }
  }

  lemma {:induction false} CountKeywordZero(attrs: seq<Attribute>, k: string)
    requires forall j :: 0 <= j < |attrs| ==> attrs[j].name.keyword != k
    ensures CountKeyword(attrs, k) == 0
    decreases |attrs|
  {
    if |attrs| > 0 {
      CountKeywordZero(attrs[..|attrs| - 1], k);
    }
  }

  /** Deleting by keyword removes exactly one attribute of that name, even when there are duplicates. */
  lemma DeleteAttributeRemovesOne(e: Element, k: string)
    requires HasKeyword(e.attributes, k)
    ensures CountKeyword(DeleteAttribute(e, k).0.attributes, k) == CountKeyword(e.attributes, k) - 1
  {
    var i := FindAttribute(e, k).value;
    var xs := e.attributes;
    assert xs == xs[..i] + [xs[i]] + xs[i + 1..];
    CountKeywordAppend(xs[..i] + [xs[i]], xs[i + 1..], k);
    CountKeywordAppend(xs[..i], [xs[i]], k);
    CountKeywordAppend(xs[..i], xs[i + 1..], k);
    assert CountKeyword([xs[i]], k) == 1 by {
      assert [xs[i]][..0] == [];
    }
  }

  /** Adding then deleting the added attribute restores the element. */
  lemma AddThenDeleteLast(e: Element, a: Attribute)
    ensures DeleteAttributeAt(AddAttribute(e, a), |e.attributes|) == e
  {
    var r := DeleteAttributeAt(AddAttribute(e, a), |e.attributes|);
    assert r.attributes == e.attributes;
  }

  /**
   * Because there is no duplicate check, an added attribute is found by its
   * keyword only when no earlier attribute has that keyword.
   */
  lemma FindAfterAdd(e: Element, a: Attribute, k: string)
    ensures FindAttribute(AddAttribute(e, a), k) ==
      if HasKeyword(e.attributes, k) then FindAttribute(e, k)
      else if a.name.keyword == k then Some(|e.attributes|)
      else None
  {
    var r := AddAttribute(e, a);
    var before := FindAttribute(e, k);
    var after := FindAttribute(r, k);
    if HasKeyword(e.attributes, k) {
      var j :| 0 <= j < |e.attributes| && e.attributes[j].name.keyword == k;
      assert r.attributes[j] == e.attributes[j];
      assert after.value <= j;
      assert r.attributes[after.value] == e.attributes[after.value];
      assert r.attributes[before.value] == e.attributes[before.value];
    } else if a.name.keyword == k {
      assert r.attributes[|e.attributes|].name.keyword == k;
    } else {
      assert forall j :: 0 <= j < |r.attributes| ==> r.attributes[j].name.keyword != k by {
        forall j | 0 <= j < |r.attributes|
          ensures r.attributes[j].name.keyword != k
        {
          if j < |e.attributes| {
            assert r.attributes[j] == e.attributes[j];
          }
        }
      }
    }
  }

  /**
   * Updating through the handle: after SetValue on the attribute FindAttribute
   * located, the same lookup finds it again and AttributeValue reads the new value.
   */
  lemma SetValueThroughHandle(e: Element, k: string, v: Option<string>)
    requires HasKeyword(e.attributes, k)
    ensures var i := FindAttribute(e, k).value;
            var r := ReplaceAttribute(e, i, SetValue(e.attributes[i], v));
            FindAttribute(r, k) == Some(i) && AttributeValue(r, k) == v
  {
    var i := FindAttribute(e, k).value;
    var r := ReplaceAttribute(e, i, SetValue(e.attributes[i], v));
    assert IsFirstWithKeyword(r.attributes, k, i);
  }

  /**
   * `<tag a>`, `<tag a="">` and an undecodable value all look alike through
   * AttributeValue except the empty value, and FindAttribute tells all three apart.
   */
  lemma ThreeAbsentCases()
    ensures var name := HtmlName("a", "a");
            var tag := Element(HtmlName("tag", "tag"), [], AutoClose);
            var valueless := AddEscapedAttribute(tag, name, None, NoQuote);
            var empty := AddEscapedAttribute(tag, name, Some(""), DoubleQuote);
            var bad := AddEscapedAttribute(tag, name, Some("muñecos"), DoubleQuote);
            && AttributeValue(tag, "a") == None
            && AttributeValue(valueless, "a") == None
            && AttributeValue(empty, "a") == Some("")
            && AttributeValue(bad, "a") == None
            && FindAttribute(tag, "a") == None
            && FindAttribute(valueless, "a") == Some(0) && valueless.attributes[0].escapedValue == None
            && FindAttribute(bad, "a") == Some(0) && bad.attributes[0].decodingError
  {
    var name := HtmlName("a", "a");
    var tag := Element(HtmlName("tag", "tag"), [], AutoClose);
    var valueless := AddEscapedAttribute(tag, name, None, NoQuote);
    var empty := AddEscapedAttribute(tag, name, Some(""), DoubleQuote);
    var bad := AddEscapedAttribute(tag, name, Some("muñecos"), DoubleQuote);
    assert valueless.attributes[0].name.keyword == "a";
    assert empty.attributes[0].name.keyword == "a";
    assert bad.attributes[0].name.keyword == "a";
    assert !IsAsciiChar("muñecos"[2]);
  }
}
