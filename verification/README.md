# Flush-early hints and the HTML element model, in Dafny

This project models two cooperating pieces of mod_pagespeed's HTML-rewriting
pipeline and proves properties of the model.

**The element and attribute model.** An `HtmlElement` is a tag name and an
ordered list of attributes. Each attribute keeps its value in two forms:

- the escaped text, as written in the document;
- the decoded value.

A decoding-error flag makes the decoded accessor answer "absent" rather than
hand back garbled bytes. Three cases look absent through `AttributeValue`:

- no such attribute;
- a valueless attribute (`<tag a>`);
- a value that could not be decoded.

The empty value (`<tag a="">`) is different from all three. Attributes are
added without any duplicate check. They can be deleted by index or by
keyword, and they are found by keyword (the first match wins).

`SetValue` and `SetEscapedValue` each recompute the other form. The model
uses HTML character references restricted to 7-bit ASCII: the five named
references for `& " ' < >`, and decimal and hexadecimal numeric references
to code points 1-127. Any byte outside 7-bit ASCII is a decoding error.
(Modules `HtmlElement`, `HtmlEscaping`, `Strings`.)

**The flush-early content writer.** Before the page itself is ready, the
writer looks at the resources the page references, in document order. It
decides which ones to hint to the client, and writes those hints in the one
form the client supports:

- `<script type="psa_prefetch">` and stylesheet links for a link/script-tag client;
- `new Image().src` fetches in an inline script for an image-tag client;
- `<link rel="prefetch">` for a rel=prefetch client.

Images always go through the inline image script. Existing dns-prefetch and
prefetch links are copied through unchanged.

Every decision goes into the request's log, which has a maximum size and a
limit-exceeded flag. The output ends with the disable-link snippet, but only
when stylesheet links were written. After that comes the summary script
carrying the number of hints.

The decision rule works in three steps.

1. **Classification.** A URL is one of:
   - rewritten by this server (its name has the form `base.pagespeed.<filter>.<hash>.<ext>`);
   - privately cacheable;
   - publicly cacheable;
   - none of these.

   The classes are checked in that order.
2. **Eligibility.** A resource is eligible when it is rewritten, privately
   cacheable, or publicly cacheable and matched by a Disallow pattern.
3. **Time budget.** Some resources are subject to a time budget: images,
   resources in the body, and scripts while JavaScript deferral is on. Such a
   resource is hinted only if it declares a size no larger than the budget.

While deferral is on, a link/script-tag client gets no script hints at all.
Instead it gets the deferral script's hint, as a rel=prefetch client does.
(Modules `ResourceClassifier`, `Wildcard`, `DecisionLog`, `FlushEarlyWriter`,
`JsEscaping`, `FlushEarlyHints`, `ResourceScan`.)

The filter's implementation file is not part of this model. Its behaviour is
taken from the expectations of
`net/instaweb/rewriter/flush_early_content_writer_filter_test.cc`. The
decision rule above is a rule that reproduces every expectation there; the
test pins it down only as far as its pages go (see "## Left out").
`FlushEarlyProperties` states that rule's general consequences.
`FlushEarlyContents` proves that every hinted resource's hint is in the output.
`FlushEarlyScenarios` walks each page of the test suite through the model,
with URLs left symbolic, and proves the expected text and log.

A Disallow pattern makes a publicly cacheable resource eligible. The test
expects the disallowed public stylesheet to be flushed and logged as applied
(`flush_early_content_writer_filter_test.cc` lines 674-717), and the same
stylesheet without the pattern to be logged as not applied (lines 720-769).

## Model

| member | source | states |
|---|---|---|
| HtmlElement.DecodedValueOrNull | src/net/instaweb/htmlparse/public/html_element.h:77-104 | absent exactly when the decoding-error flag is set or the attribute has no value; otherwise the stored decoded value |
| HtmlElement.DecodedValueExamples | src/net/instaweb/htmlparse/public/html_element.h:83-88 | the five listed cases: `val`, `&amp;` reads as `&`, the empty value, a valueless attribute reads as absent, a non-ASCII value reads as absent with the error flag set |
| HtmlElement.SetAttributeName | src/net/instaweb/htmlparse/public/html_element.h:70-71 | renaming leaves both value forms, the decoding-error flag, the quote character and the decoded accessor unchanged |
| HtmlElement.SetValue | src/net/instaweb/htmlparse/public/html_element.h:114-132 | the decoded accessor then returns the new value (absent stays absent); an escaped form exists exactly when a value does, holds no quote of either kind, and for an ASCII value decodes back to the value |
| HtmlElement.SetEscapedValue | src/net/instaweb/htmlparse/public/html_element.h:134-137 | the escaped text is kept verbatim and the decoded form is its decoding; a non-ASCII byte raises the decoding error; ASCII text without `&` decodes to itself |
| HtmlElement.DecodedValueFromEscaped | src/net/instaweb/htmlparse/public/html_element.h:88-104 | for an attribute whose two forms agree, the decoded accessor depends only on the escaped text |
| HtmlElement.SetValueOfDecoded | src/net/instaweb/htmlparse/public/html_element.h:128-137 | decoding document text and then setting that decoded value keeps the forms in step and the decoded value unchanged |
| HtmlElement.SetName | src/net/instaweb/htmlparse/public/html_element.h:245-248 | changing the tag keeps the attributes and close style |
| HtmlElement.AddAttribute | src/net/instaweb/htmlparse/public/html_element.h:171-173 | appends the attribute at the end; size grows by one and earlier attributes are unchanged |
| HtmlElement.AddAttributeValue | src/net/instaweb/htmlparse/public/html_element.h:175-187 | appends one attribute with the given name and quote whose decoded accessor returns the given raw value (absent for a valueless one); earlier attributes, tag and close style unchanged |
| HtmlElement.AddEscapedAttribute | src/net/instaweb/htmlparse/public/html_element.h:188-191 | appends one attribute with the given name and quote holding the given escaped text, with its decoded form in step; earlier attributes, tag and close style unchanged |
| HtmlElement.DeleteAttributeAt | src/net/instaweb/htmlparse/public/html_element.h:193-196 | removes index i; lower indices keep their attribute, higher ones shift down by one; size shrinks by one |
| HtmlElement.DeleteAttribute | src/net/instaweb/htmlparse/public/html_element.h:198-200 | returns true exactly when an attribute with the keyword exists, and then removes the first such one; on false the element is unchanged |
| HtmlElement.DeleteAttributeRemovesOne | src/net/instaweb/htmlparse/public/html_element.h:198-200 | with duplicate names, deleting by keyword lowers the count of that name by exactly one |
| HtmlElement.FindAttribute | src/net/instaweb/htmlparse/public/html_element.h:202-210 | absent exactly when no attribute has the keyword; otherwise the first attribute with that keyword |
| HtmlElement.ReplaceAttribute | src/net/instaweb/htmlparse/public/html_element.h:202-206 | writing through the handle changes that attribute only: the others, their number, the tag and the close style are kept |
| HtmlElement.SetValueThroughHandle | src/net/instaweb/htmlparse/public/html_element.h:202-210 | after setting a value through the handle FindAttribute returned, the lookup finds the same attribute and AttributeValue reads the new value |
| HtmlElement.AttributeValue | src/net/instaweb/htmlparse/public/html_element.h:212-227 | absent exactly when there is no attribute with the keyword, or the first one has no value or a decoding error; otherwise that attribute's decoded value |
| HtmlElement.ThreeAbsentCases | src/net/instaweb/htmlparse/public/html_element.h:212-217 | a missing, a valueless and an undecodable attribute all read as absent, the empty value reads as the empty string, and FindAttribute tells the three absent cases apart |
| HtmlElement.AddThenDeleteLast | src/net/instaweb/htmlparse/public/html_element.h:171-196 | adding an attribute and then deleting it by its index gives back the original element |
| HtmlElement.FindAfterAdd | src/net/instaweb/htmlparse/public/html_element.h:181-205 | since there is no duplicate check, an added attribute is found by its keyword only when no earlier attribute has that keyword |
| HtmlEscaping.Escape | src/net/instaweb/htmlparse/public/html_element.h:128-131 | the escaped form contains no quote of either kind and no angle bracket, and is ASCII when the value is |
| HtmlEscaping.Unescape | src/net/instaweb/htmlparse/public/html_element.h:88-101 | a successful decoding is 7-bit ASCII and no longer than the text |
| HtmlEscaping.UnescapeEscapeChar | src/net/instaweb/htmlparse/public/html_element.h:85 | the reference written for one ASCII character decodes back to that character |
| HtmlEscaping.UnescapeEscape | src/net/instaweb/htmlparse/public/html_element.h:128-137 | decoding the escaped form of an ASCII value gives back the value |
| HtmlEscaping.UnescapePlain | src/net/instaweb/htmlparse/public/html_element.h:84 | ASCII text without `&` decodes to itself |
| HtmlEscaping.UnescapeNonAscii | src/net/instaweb/htmlparse/public/html_element.h:88-96 | any byte outside 7-bit ASCII makes decoding fail |
| HtmlEscaping.UnescapeCases | src/net/instaweb/htmlparse/public/html_element.h:92-98 | non-ASCII text fails to decode; ASCII text without references decodes to itself |
| JsEscaping.DecodeEscape | net/instaweb/rewriter/flush_early_content_writer_filter_test.cc:443-447 | reading the JavaScript string literal written for a URL gives back the URL |
| JsEscaping.LiteralEndsAtClosingQuote | net/instaweb/rewriter/flush_early_content_writer_filter_test.cc:443-447 | a string literal written for any URL ends at its own closing quote, so a `"` in the URL cannot end it early |
| FlushEarlyHints.EscapedHasNoQuote | net/instaweb/rewriter/flush_early_content_writer_filter_test.cc:449-472 | an attribute-escaped URL contains no double quote |
| FlushEarlyHints.HintAttributesReadBack | net/instaweb/rewriter/flush_early_content_writer_filter_test.cc:449-472 | in a stylesheet link, a psa_prefetch script and a prefetch link, the quoted attribute ends right after the escaped URL, and for an ASCII URL it decodes back to the URL |
| FlushEarlyHints.ImageHintReadsBack | net/instaweb/rewriter/flush_early_content_writer_filter_test.cc:443-447 | an image fetch's string literal ends just before `";` and decodes back to the URL |
| FlushEarlyHints.QuoteInUrl | net/instaweb/rewriter/flush_early_content_writer_filter_test.cc:435-473 | after a plain prefix, a `"` is written as `&quot;` in attribute context and as `\"` in JavaScript string context |
| ResourceClassifier.DecodeEncode | net/instaweb/rewriter/flush_early_content_writer_filter_test.cc:234-249 | a well-formed rewritten name `base.pagespeed.<filter>.<hash>.<ext>` reads back as its parts |
| ResourceClassifier.EncodeDecode | net/instaweb/rewriter/flush_early_content_writer_filter_test.cc:234-249 | any name that reads as a rewritten name is well formed and is written back as the same text |
| ResourceClassifier.PagespeedUrlInDirectory | net/instaweb/rewriter/flush_early_content_writer_filter_test.cc:234-249 | a URL whose last path segment is a well-formed rewritten name is recognised, in any directory |
| ResourceClassifier.EncodedNameIsRewritten | net/instaweb/rewriter/flush_early_content_writer_filter_test.cc:54 | such a URL classifies as rewritten whatever cacheable sets it is in |
| ResourceClassifier.Classify | net/instaweb/rewriter/flush_early_content_writer_filter_test.cc:181-194 | each class holds exactly under its condition: rewritten wins, then private, then public, then none |
| Wildcard.ContainsPattern | net/instaweb/rewriter/flush_early_content_writer_filter_test.cc:674-676 | the pattern `*x*`, for `x` without wildcards, matches exactly the strings containing `x` |
| Strings.ParseNatToString | net/instaweb/rewriter/flush_early_content_writer_filter_test.cc:231-241 | a size written in decimal reads back as the same number |
| Strings.NatToStringInjective | net/instaweb/rewriter/flush_early_content_writer_filter_test.cc:43-46 | the count printed in the summary script determines the count |
| DecisionLog.Append | net/instaweb/rewriter/flush_early_content_writer_filter_test.cc:519-524 | with room left the entry is added at the end; otherwise the entries stay and the limit flag is raised; the size never exceeds the capacity |
| DecisionLog.AppendAllKeepsPrefix | net/instaweb/rewriter/flush_early_content_writer_filter_test.cc:519-524 | a batch of entries keeps the longest prefix that fits, in order, and the flag is raised exactly when something was dropped or it was already up |
| DecisionLog.FreshLogKeepsPrefix | net/instaweb/rewriter/flush_early_content_writer_filter_test.cc:519-524 | an empty log given n entries keeps all of them when they fit, and otherwise keeps the first `capacity` with the flag up |
| ResourceScan.NodeOf | net/instaweb/rewriter/flush_early_content_writer_filter_test.cc:228-250 | a prefetch link yields its own markup and a marked style block its id and CSS; otherwise a stylesheet link, script or image that names a URL yields a resource node, and that node carries the decoded URL attribute, its resolved URL, content type, declared size and head flag; without the URL attribute, or for any other element, there is no resource |
| ResourceScan.SizeAttributeRoundTrip | net/instaweb/rewriter/flush_early_content_writer_filter_test.cc:231-249 | a `data-pagespeed-size` attribute written from a number declares that number |
| ResourceScan.MalformedSizeIsAbsent | net/instaweb/rewriter/flush_early_content_writer_filter_test.cc:231-249 | a size attribute that is empty or not all decimal digits declares no size |
| ResourceScan.HintNamesSameResource | net/instaweb/rewriter/flush_early_content_writer_filter_test.cc:273-282 | the URL in each attribute-form hint decodes to the same URL the element's attribute decodes to |
| FlushEarlyWriter.EmitHint | net/instaweb/rewriter/flush_early_content_writer_filter_test.cc:271-432 | each hint counts once and sets the stylesheet flag exactly for a stylesheet that is not given as a rel=prefetch link |
| FlushEarlyWriter.Finish | net/instaweb/rewriter/flush_early_content_writer_filter_test.cc:381-432 | finishing adds one hint per kept-back resource, plus one for the deferral script when it is hinted |
| FlushEarlyWriter.FlushEarly | net/instaweb/rewriter/flush_early_content_writer_filter_test.cc:131-139 | the output ends with the summary script carrying the hint count; an unsupported client gets only the count-0 summary; the log respects its capacity; the reported time is the seeded latency |
| FlushEarlyProperties.DisallowedPublicResourceIsFlushed | net/instaweb/rewriter/flush_early_content_writer_filter_test.cc:674-744 | a publicly cacheable head stylesheet is hinted exactly when a Disallow pattern matches it, and is never bandwidth-affected |
| FlushEarlyProperties.NonPagespeedNeverFlushed | net/instaweb/rewriter/flush_early_content_writer_filter_test.cc:289-304 | a URL that is neither rewritten nor cacheable is never hinted and never bandwidth-affected |
| FlushEarlyProperties.SizeThresholdDecides | net/instaweb/rewriter/flush_early_content_writer_filter_test.cc:321-353 | an eligible time-budgeted resource is hinted exactly when it declares a size within the budget, and is bandwidth-affected either way |
| FlushEarlyProperties.HeadResourceIgnoresSize | net/instaweb/rewriter/flush_early_content_writer_filter_test.cc:568-583 | without deferral, an eligible head resource that is not an image is hinted whatever its size, even with none declared |
| FlushEarlyProperties.DeferralSuppressesScripts | net/instaweb/rewriter/flush_early_content_writer_filter_test.cc:402-415 | with deferral on, a link/script-tag client gets no script hint, and the script is not bandwidth-affected |
| FlushEarlyProperties.FlushedCountAccounts | net/instaweb/rewriter/flush_early_content_writer_filter_test.cc:131-139 | the count in the summary is the number of hinted resources, plus the deferral script when it is hinted, plus the critical-CSS blocks written |
| FlushEarlyProperties.OutputEnding | net/instaweb/rewriter/flush_early_content_writer_filter_test.cc:131-139 | the output ends with the disable-link snippet exactly when a stylesheet link was hinted, followed by the summary script |
| FlushEarlyProperties.DeferJsHintIsLast | net/instaweb/rewriter/flush_early_content_writer_filter_test.cc:402-432 | when the deferral script is hinted, its hint comes immediately before the closing snippets |
| FlushEarlyProperties.DeferJsAlwaysFlushed | net/instaweb/rewriter/flush_early_content_writer_filter_test.cc:527-555 | with deferral on and a client that takes script hints, the deferral script is hinted last whatever the page, and the last log entry is an applied, bandwidth-affected deferral entry |
| FlushEarlyProperties.UnsupportedClientGetsSummaryOnly | net/instaweb/rewriter/flush_early_content_writer_filter_test.cc:253-269 | an unsupported client gets only the count-0 summary script and a single not-applied deferral log entry |
| FlushEarlyProperties.DecisionsEndWithDeferJs | net/instaweb/rewriter/flush_early_content_writer_filter_test.cc:287-363 | there is one decision per resource (none for an unsupported client) plus one closing deferral decision, which comes last |
| FlushEarlyProperties.LogBounded | net/instaweb/rewriter/flush_early_content_writer_filter_test.cc:501-525 | the log holds every decision when they fit, and otherwise exactly `capacity` entries with the limit flag raised |
| FlushEarlyProperties.LogRecordsResources | net/instaweb/rewriter/flush_early_content_writer_filter_test.cc:155-179 | log entry i has id "fs"; for i below the resource count it records resource i's index, type, class and head flag, applied exactly when hinted and bandwidth-affected exactly when time-budgeted; the entry after them is the deferral entry |
| FlushEarlyProperties.CountMatchesLog | net/instaweb/rewriter/flush_early_content_writer_filter_test.cc:284-363 | when nothing was dropped, the hint count equals the number of applied log entries plus the critical-CSS blocks |
| FlushEarlyProperties.LargerBudgetKeepsHints | net/instaweb/rewriter/flush_early_content_writer_filter_test.cc:321-353 | raising the time budget never turns an applied log entry into a not-applied one and never lowers the number of hints |
| FlushEarlyProperties.MoreDisallowKeepsHints | net/instaweb/rewriter/flush_early_content_writer_filter_test.cc:674-769 | adding Disallow patterns never turns an applied log entry into a not-applied one and never lowers the number of hints |
| FlushEarlyContents.EmitHintWrites | net/instaweb/rewriter/flush_early_content_writer_filter_test.cc:271-285 | emitting a hint writes the form the client's table gives: image fetch, stylesheet link, psa_prefetch script or prefetch link, with the resource's URL |
| FlushEarlyProperties.SelectedGrows | net/instaweb/rewriter/flush_early_content_writer_filter_test.cc:321-353 | when every resource one configuration hints is also hinted by another, the second selects at least as many resources |
| FlushEarlyContents.WalkWrites | net/instaweb/rewriter/flush_early_content_writer_filter_test.cc:271-285 | after the walk, every resource hinted as it is met has its hint, in the client's form and with its URL, in the text written or buffered |
| FlushEarlyContents.SelectedHintsWritten | net/instaweb/rewriter/flush_early_content_writer_filter_test.cc:271-285 | every resource the pass decides to hint has its hint, in the client's form and with its own URL, somewhere in the output |
| FlushEarlyProperties.StylesIgnoredWhenDisabled | net/instaweb/rewriter/flush_early_content_writer_filter_test.cc:812-836 | with critical-CSS flushing off, removing the style blocks from the page changes nothing in the outcome |
| FlushEarlyScenarios.BrowsersLinkScriptTag | net/instaweb/rewriter/flush_early_content_writer_filter_test.cc:271-285 | link/script-tag client: image script, copied prefetch links, rewritten script and stylesheet, small body script, disable snippet, count 4 |
| FlushEarlyScenarios.BrowsersLinkScriptTagLog | net/instaweb/rewriter/flush_early_content_writer_filter_test.cc:287-363 | the nine log entries of that run, in order, with their statuses, classes and bandwidth flags |
| FlushEarlyScenarios.BrowsersImageTag | net/instaweb/rewriter/flush_early_content_writer_filter_test.cc:365-379 | image-tag client: the rewritten script joins the image in the inline script, and the small body script gets its own inline script; count 4 |
| FlushEarlyScenarios.BrowsersImageTagDefer | net/instaweb/rewriter/flush_early_content_writer_filter_test.cc:381-400 | image-tag client with deferral: both small scripts share an inline script after the prefetch links; count 4 |
| FlushEarlyScenarios.BrowsersLinkScriptTagDefer | net/instaweb/rewriter/flush_early_content_writer_filter_test.cc:402-415 | link/script-tag client with deferral: no script hints, the deferral script after the stylesheet; count 3 |
| FlushEarlyScenarios.BrowsersRelPrefetchDefer | net/instaweb/rewriter/flush_early_content_writer_filter_test.cc:417-432 | rel=prefetch client: prefetch links for the stylesheet, the scripts and the deferral script, and no disable snippet; count 5 |
| FlushEarlyScenarios.EscapeParanoiaImageTag | net/instaweb/rewriter/flush_early_content_writer_filter_test.cc:443-447 | a `"` in a script URL appears as `\"` in the image fetch |
| FlushEarlyScenarios.EscapeParanoiaLinkScriptTag | net/instaweb/rewriter/flush_early_content_writer_filter_test.cc:449-454 | a `"` in a script URL appears as `&quot;` in the psa_prefetch script |
| FlushEarlyScenarios.EscapeParanoiaStylesheet | net/instaweb/rewriter/flush_early_content_writer_filter_test.cc:456-463 | a `"` in a stylesheet URL appears as `&quot;` in the stylesheet link |
| FlushEarlyScenarios.EscapeParanoiaRelPrefetch | net/instaweb/rewriter/flush_early_content_writer_filter_test.cc:465-472 | a `"` in a stylesheet URL appears as `&quot;` in the prefetch link |
| FlushEarlyScenarios.NoResourcesToFlush | net/instaweb/rewriter/flush_early_content_writer_filter_test.cc:475-499 | a page of plain resources gives only the count-0 summary, for every client |
| FlushEarlyScenarios.TooManyRewriterInfoRecords | net/instaweb/rewriter/flush_early_content_writer_filter_test.cc:501-525 | three stylesheets with room for two log entries: all three hinted, two entries kept, the limit flag raised |
| FlushEarlyScenarios.FlushDeferJsEarly | net/instaweb/rewriter/flush_early_content_writer_filter_test.cc:527-555 | an empty page with deferral on and zero latency gets the deferral script hint, count 1, one applied bandwidth-affected entry, and available time 0 |
| FlushEarlyScenarios.CacheablePrivateLinkScriptTag | net/instaweb/rewriter/flush_early_content_writer_filter_test.cc:568-583 | the privately cacheable stylesheet is hinted along with the rewritten script and stylesheet; count 3 |
| FlushEarlyScenarios.CacheablePrivateLog | net/instaweb/rewriter/flush_early_content_writer_filter_test.cc:584-625 | the five log entries of that run: private stylesheet applied, plain script not, rewritten resources applied, deferral not |
| FlushEarlyScenarios.CacheablePrivateImageTag | net/instaweb/rewriter/flush_early_content_writer_filter_test.cc:627-644 | image-tag client: the rewritten script in the inline script, then both stylesheet links; count 3 |
| FlushEarlyScenarios.CacheablePrivateImageTagDefer | net/instaweb/rewriter/flush_early_content_writer_filter_test.cc:646-653 | with deferral on, the script without a declared size is not hinted: only the two stylesheet links; count 2 |
| FlushEarlyScenarios.CacheablePublicDisallowed | net/instaweb/rewriter/flush_early_content_writer_filter_test.cc:666-718 | with `*f.css*` disallowed, the public stylesheet is hinted and logged applied, the public script is not; count 2 |
| FlushEarlyScenarios.CacheablePublicNotDisallowed | net/instaweb/rewriter/flush_early_content_writer_filter_test.cc:720-769 | with nothing disallowed, only the rewritten script is hinted; both public resources are logged not applied; count 1 |
| FlushEarlyScenarios.FlushEarlyStyleAsScript | net/instaweb/rewriter/flush_early_content_writer_filter_test.cc:771-810 | with critical-CSS flushing on, each style block becomes a psa_flush_style script in document order among the links; count 4 |
| FlushEarlyScenarios.DontFlushEarlyStyleIfFlagDisabled | net/instaweb/rewriter/flush_early_content_writer_filter_test.cc:812-836 | with the flag off, style blocks alone give the count-0 summary |

## Left out

- The element's event-list iterators, `SynthesizeEvents`, `InvalidateIterators`, sequence numbers and line numbers: bookkeeping for the parser's event list, whose implementation is not part of this model.
- `ToString` and `DebugPrint`: debug output that the header says is not a legal serialisation.
- The keyword table (`html_name.h`): a name's keyword is supplied with the name (`HtmlName(keyword, text)`) rather than looked up.
- Character sets: decoding accepts 7-bit ASCII only, as the header says the current decoder does; the 8-bit representation of code points below 256 is not modelled.
- User-agent matching: the client's capability is an input (`Capability`), including "not supported".
- The mutex around the log record, statistics, hashing and the fetch/cache set-up of the test fixture: concurrency and test plumbing, no behaviour of the writer.
- What the test leaves open about eligibility: its only privately cacheable resource that is not rewritten is a head stylesheet, and its only disallowed publicly cacheable one is a head stylesheet. Private or public scripts and images are therefore never exercised. A rule that made only stylesheets eligible in those two classes would meet every expectation as well; the model takes the uniform rule, in which the class alone decides eligibility.
- The time-budget arithmetic: a size threshold `maxFlushSize` stands for it. The test fixes only that 1000 bytes passes and that 100000 and 1000000 do not, so any threshold from 1000 up to 99999 fits it equally.
- FlushEarlyWriter.FlushEarly: reports the seeded average fetch latency as the available time and does not model how the filter decrements it, because the test only ever observes the seeded value.
- The text of the disable-link snippet (a constant of the filter not shown here), the deferral script's URL (`/psajs/js_defer.0.js` in the test set-up), and URL resolution against the page are parameters of the configuration.
- The recognition of rewritten URLs is a parameter `rewritten`; `ResourceClassifier.IsPagespeedUrl` is the default naming scheme, proved to recognise every well-formed rewritten name.
- `ImageSrc`: the JavaScript escaping modelled here (backslash, both quotes, the two line terminators, as the test's expectations show) leaves `<` and `/` unchanged; the filter's escaping routine is not part of this model. In the model, a URL holding `</script>` would end the inline image script early for an HTML tokenizer. `FlushEarlyHints.ImageHintReadsBack` speaks only of a JavaScript lexer reading the string literal, and no lemma claims the inline script survives such a URL.
- `FlushStyleScript` copies the CSS of a style block as is; a `</script>` inside the CSS is not escaped, and the model does not claim otherwise.
- Wildcard matching implements `*` and `?`; only the `*x*` form the test uses is characterised by a lemma.
- `cache_test_base.h` and `critical_images_beacon_dbg.js`: shared fixtures for cache tests and browser-side beacon code, neither part of this model.
