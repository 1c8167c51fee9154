/**
 * How the walk sees a parsed element: a tag that references a resource
 * (a stylesheet link, a script, an image), an existing prefetch link to copy
 * through, a critical-CSS style block, or nothing of interest. URLs and
 * sizes are read as decoded attribute values, as the parser delivers them.
 */
module ResourceScan {
  import opened Wrappers
  import opened Strings
  import opened DecisionLog
  import opened HtmlElement
  import opened FlushEarlyWriter
  import HtmlEscaping
  import FlushEarlyHints

  /** The attribute in which a rewriter records a resource's size in bytes. */
  const SizeAttribute: string := "data-pagespeed-size"
  /** The attribute marking a style block as critical CSS, carrying its id. */
  const FlushStyleAttribute: string := "data-pagespeed-flush-style"

  /** The attribute naming the resource an element fetches, and the resource's type. */
  function ResourceAttribute(e: Element): Option<(string, ContentType)> {
    if e.name.keyword == "link" && AttributeValue(e, "rel") == Some("stylesheet") then Some(("href", Css))
    else if e.name.keyword == "script" then Some(("src", Js))
    else if e.name.keyword == "img" then Some(("src", Image))
    else None
  }

  /** The declared size, when the size attribute holds a decimal number. */
  function DeclaredSize(e: Element): Option<nat> {
    match AttributeValue(e, SizeAttribute)
    case None => None
    case Some(v) => ParseNat(v)
  }

  predicate IsPrefetchLink(e: Element) {
    e.name.keyword == "link"
    && (AttributeValue(e, "rel") == Some("dns-prefetch") || AttributeValue(e, "rel") == Some("prefetch"))
  }

  /** A `<style>` block marked as critical CSS. */
  predicate IsFlushStyleBlock(e: Element) {
    e.name.keyword == "style" && AttributeValue(e, FlushStyleAttribute).Some?
  }

  /**
   * The walk's node for an element. `resolve` resolves a URL against the
   * page; `markup` is the element as written and `text` its character content.
   * A prefetch link is copied through; a marked style block carries its id
   * and CSS; an element that fetches a resource and names it yields a
   * resource node; anything else yields nothing.
   */
  function NodeOf(e: Element, inHead: bool, resolve: string -> string, markup: string, text: string): (r: Option<Node>)
    ensures IsPrefetchLink(e) ==> r == Some(PrefetchHint(markup))
    ensures !IsPrefetchLink(e) && IsFlushStyleBlock(e) ==>
              r == Some(FlushStyle(AttributeValue(e, FlushStyleAttribute).value, text))
    ensures (!IsPrefetchLink(e) && !IsFlushStyleBlock(e) && ResourceAttribute(e).Some?
             && AttributeValue(e, ResourceAttribute(e).value.0).Some?) ==> r.Some? && r.value.Resource?
    ensures r.Some? && r.value.Resource? ==>
              && ResourceAttribute(e).Some?
              && AttributeValue(e, ResourceAttribute(e).value.0) == Some(r.value.ref.url)
              && r.value.ref.resolvedUrl == resolve(r.value.ref.url)
              && r.value.ref.contentType == ResourceAttribute(e).value.1
              && r.value.ref.declaredSize == DeclaredSize(e)
              && r.value.ref.inHead == inHead
    ensures ResourceAttribute(e).Some? && AttributeValue(e, ResourceAttribute(e).value.0).None? ==> r.None? || !r.value.Resource?
    ensures !IsPrefetchLink(e) && !IsFlushStyleBlock(e) && ResourceAttribute(e).None? ==> r.None?
  {
    if IsPrefetchLink(e) then Some(PrefetchHint(markup))
    else if IsFlushStyleBlock(e) then
      Some(FlushStyle(AttributeValue(e, FlushStyleAttribute).value, text))
    else
      match ResourceAttribute(e)
      case None => None
      case Some((attr, ct)) =>
        match AttributeValue(e, attr)
        case None => None
        case Some(url) => Some(Resource(ResourceRef(url, resolve(url), ct, DeclaredSize(e), inHead)))
  }

  /**
   * A size recorded with the number's decimal text, on an element that had
   * no size yet, is read back as that number.
   */
  lemma SizeAttributeRoundTrip(e: Element, name: HtmlName, n: nat, quote: Quote)
    requires name.keyword == SizeAttribute && !HasKeyword(e.attributes, SizeAttribute)
    ensures DeclaredSize(AddAttributeValue(e, name, Some(NatToString(n)), quote)) == Some(n)
  {
    var a := NewAttribute(name, Some(NatToString(n)), quote);
    FindAfterAdd(e, a, SizeAttribute);
    ParseNatToString(n);
  }

  /** A size attribute that is not a plain decimal number leaves the resource without a size. */
  lemma MalformedSizeIsAbsent(e: Element)
    requires AttributeValue(e, SizeAttribute).Some?
    requires !AllDigits(AttributeValue(e, SizeAttribute).value) || AttributeValue(e, SizeAttribute).value == ""
    ensures DeclaredSize(e).None?
  {
  }

  /**
   * The hint names the very resource the page references: when the
   * element's attributes are as the parser builds them (decoded value in
   * step with the text as written), the value a reader decodes from any
   * attribute-borne hint is the value the parser decoded from the page.
   */
  lemma HintNamesSameResource(e: Element, inHead: bool, resolve: string -> string, markup: string, text: string)
    requires forall i :: 0 <= i < |e.attributes| ==> InSync(e.attributes[i])
    requires NodeOf(e, inHead, resolve, markup, text).Some? && NodeOf(e, inHead, resolve, markup, text).value.Resource?
    ensures var url := NodeOf(e, inHead, resolve, markup, text).value.ref.url;
            var k := ResourceAttribute(e).value.0;
            exists i: nat :: IsFirstWithKeyword(e.attributes, k, i)
              && e.attributes[i].escapedValue.Some?
              && HtmlEscaping.Unescape(e.attributes[i].escapedValue.value) == Some(url)
              && HtmlEscaping.Unescape(FlushEarlyHints.QuotedValue(StylesheetLink(url)[|StylesheetLinkOpen|..])) == Some(url)
              && HtmlEscaping.Unescape(FlushEarlyHints.QuotedValue(PsaPrefetchScript(url)[|PsaPrefetchOpen|..])) == Some(url)
              && HtmlEscaping.Unescape(FlushEarlyHints.QuotedValue(PrefetchLink(url)[|PrefetchLinkOpen|..])) == Some(url)
  {
    var url := NodeOf(e, inHead, resolve, markup, text).value.ref.url;
    var k := ResourceAttribute(e).value.0;
    var i: nat :| IsFirstWithKeyword(e.attributes, k, i) && Some(url) == e.attributes[i].value;
    assert InSync(e.attributes[i]);
    assert IsAscii(url);
    FlushEarlyHints.HintAttributesReadBack(url);
  }
}
