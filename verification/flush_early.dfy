/**
 * The flush-early content writer: given the resources a page references, in
 * document order, decide which to hint to the client before the page itself
 * is ready, write the hints in the one form the client supports, and record
 * every decision in the request's log.
 *
 * The walk writes some hints as it goes and buffers the rest:
 *  - images always get `new Image().src="..."` inside one inline script,
 *    opened when needed and closed by the next pass-through link or at the end;
 *  - other resources that are subject to the time budget (those in the body,
 *    and scripts when JavaScript deferral is on) are kept back until the end;
 *  - the remaining hints go to a buffer written after the inline script closes,
 *    except that for an image-tag client a script hint joins the inline script at once.
 * The output ends with the disable-link snippet (only when stylesheet links
 * were written) and the summary script carrying the number of hints.
 */
module FlushEarlyWriter {
  import opened Wrappers
  import opened Strings
  import opened DecisionLog
  import opened ResourceClassifier
  import HtmlEscaping
  import JsEscaping

  /** The prefetch mechanism the requesting client supports. */
  datatype Capability = NotSupported | LinkScriptTag | ImageTag | RelPrefetch

  /**
   * A resource-bearing tag: the URL as written (decoded, as hints repeat it),
   * the URL resolved against the page (what classification and policy look
   * at), its content type, the size it declares, and whether it is in the head.
   */
  datatype ResourceRef = ResourceRef(
    url: string,
    resolvedUrl: string,
    contentType: ContentType,
    declaredSize: Option<nat>,
    inHead: bool)

  /** What the walk reacts to, in document order. */
  datatype Node =
    | Resource(ref: ResourceRef)
    /** an existing `<link rel="dns-prefetch">` or `<link rel="prefetch">`, copied as written */
    | PrefetchHint(markup: string)
    /** a `<style data-pagespeed-flush-style=id>` block and its CSS text */
    | FlushStyle(id: string, css: string)

  /**
   * Everything a pass depends on. `maxFlushSize` stands for the time budget:
   * a time-budgeted resource is flushed only if it declares a size no larger.
   * The disable-link snippet is a fixed literal of the filter, passed in here.
   * `deferJsUrl` is where the server's static-asset manager serves the
   * JavaScript-deferral script (`/psajs/js_defer.0.js` in the default set-up).
   * `rewritten` is the server's test for a URL it produced by rewriting
   * (`ResourceClassifier.IsPagespeedUrl` for the default naming scheme).
   */
  datatype Config = Config(
    capability: Capability,
    rewritten: string -> bool,
    deferJs: bool,
    flushCriticalCss: bool,
    publicCacheable: set<string>,
    privateCacheable: set<string>,
    disallow: seq<string>,
    maxFlushSize: nat,
    logCapacity: Option<nat>,
    averageFetchLatencyMs: nat,
    disableLinkTag: string,
    deferJsUrl: string)

  const FilterId: string := "fs"

  const ImageScriptOpen: string := "<script type=\"text/javascript\">(function(){"
  const ImageScriptClose: string := "})()</script>"

  // ---------------------------------------------------------------- hints

  const ImageSrcOpen: string := "new Image().src=\""
  const StylesheetLinkOpen: string := "<link rel=\"stylesheet\" href=\""
  const PsaPrefetchOpen: string := "<script type=\"psa_prefetch\" src=\""
  const PrefetchLinkOpen: string := "<link rel=\"prefetch\" href=\""
  const FlushStyleOpen: string := "<script type=\"text/psa_flush_style\" id=\""

  /** One image-object fetch inside the inline script; the URL is in a JavaScript string. */
  function ImageSrc(url: string): string {
    ImageSrcOpen + JsEscaping.Escape(url) + "\";"
  }

  function StylesheetLink(url: string): string {
    StylesheetLinkOpen + HtmlEscaping.Escape(url) + "\"/>\n"
  }

  /** A script tag of a type the browser fetches but does not run. */
  function PsaPrefetchScript(url: string): string {
    PsaPrefetchOpen + HtmlEscaping.Escape(url) + "\"></script>\n"
  }

  function PrefetchLink(url: string): string {
    PrefetchLinkOpen + HtmlEscaping.Escape(url) + "\"/>\n"
  }

  /** A critical-CSS block re-emitted as an inert script carrying its marker id; the CSS is copied as is. */
  function FlushStyleScript(id: string, css: string): string {
    FlushStyleOpen + HtmlEscaping.Escape(id) + "\">" + css + "</script>"
  }

  const SummaryPrefix: string :=
    "<script type='text/javascript'>window.mod_pagespeed_prefetch_start = Number(new Date());window.mod_pagespeed_num_resources_prefetched = "

  /** The script that always ends the output, carrying the number of resources hinted. */
  function SummaryScript(n: nat): string {
    SummaryPrefix + NatToString(n) + "</script>"
  }

  // ------------------------------------------------------------ decisions

  function ResourceTypeOf(cfg: Config, ref: ResourceRef): ResourceType {
    Classify(ref.resolvedUrl, cfg.rewritten, cfg.publicCacheable, cfg.privateCacheable)
  }

  /**
   * Worth flushing at all: rewritten, privately cacheable, or publicly
   * cacheable and disallowed. A publicly cacheable resource that policy
   * allows is not flushed: that is what the public-cacheable expectations of
   * flush_early_content_writer_filter_test.cc (lines 674-769) show.
   */
  predicate Eligible(cfg: Config, ref: ResourceRef) {
    var t := ResourceTypeOf(cfg, ref);
    t == Pagespeed || t == PrivateCacheable || (t == PublicCacheable && Disallowed(cfg.disallow, ref.resolvedUrl))
  }

  /** Images, body resources, and scripts under JavaScript deferral are flushed only if time permits. */
  predicate TimeGated(cfg: Config, ref: ResourceRef) {
    ref.contentType == Image || !ref.inHead || (ref.contentType == Js && cfg.deferJs)
  }

  /** Link/script-tag clients get no script hints while JavaScript deferral is on. */
  predicate Suppressed(cfg: Config, ref: ResourceRef) {
    ref.contentType == Js && cfg.deferJs && cfg.capability == LinkScriptTag
  }

  predicate FitsBudget(cfg: Config, ref: ResourceRef) {
    ref.declaredSize.Some? && ref.declaredSize.value <= cfg.maxFlushSize
  }

  /** The resource is hinted. */
  predicate Applied(cfg: Config, ref: ResourceRef) {
    Eligible(cfg, ref) && !Suppressed(cfg, ref) && (!TimeGated(cfg, ref) || FitsBudget(cfg, ref))
  }

  /** The decision went through the time budget, whichever way it went. */
  predicate BandwidthAffected(cfg: Config, ref: ResourceRef) {
    Eligible(cfg, ref) && !Suppressed(cfg, ref) && TimeGated(cfg, ref)
  }

  /** The log entry for the resource discovered at position `i`. */
  function EntryFor(cfg: Config, ref: ResourceRef, i: nat): Entry {
    Entry(FilterId, if Applied(cfg, ref) then AppliedOk else NotApplied, Some(i), ref.contentType,
          ResourceTypeOf(cfg, ref), BandwidthAffected(cfg, ref), ref.inHead)
  }

  /** The JavaScript-deferral script is hinted whenever deferral is on and the client can take a script hint. */
  predicate DeferJsFlushed(cfg: Config) {
    cfg.deferJs && (cfg.capability == LinkScriptTag || cfg.capability == RelPrefetch)
  }

  /** The closing entry every pass logs about the JavaScript-deferral script. */
  function DeferJsEntry(cfg: Config): Entry {
    Entry(FilterId, if DeferJsFlushed(cfg) then AppliedOk else NotApplied, None, Js, DeferJsScript,
          DeferJsFlushed(cfg), false)
  }

  /** The resources of the document, in order. */
  function Resources(nodes: seq<Node>): (rs: seq<ResourceRef>)
    ensures |rs| <= |nodes|
    decreases |nodes|
  {
    if |nodes| == 0 then []
    else Resources(nodes[..|nodes| - 1]) + (if nodes[|nodes| - 1].Resource? then [nodes[|nodes| - 1].ref] else [])
  }

  /** Every entry the pass tries to log, in order; an unsupported client gets only the closing one. */
  function Decisions(cfg: Config, nodes: seq<Node>): seq<Entry> {
    var rs := Resources(nodes);
    if cfg.capability == NotSupported then [DeferJsEntry(cfg)]
    else seq(|rs|, i requires 0 <= i < |rs| => EntryFor(cfg, rs[i], i)) + [DeferJsEntry(cfg)]
  }

  // ------------------------------------------------------------- emission

  /**
   * The writer's state: text written so far, whether the inline image
   * script is open, the buffered hints, the hints kept back for the end,
   * the number of hints, and whether a stylesheet link was among them.
   */
  datatype Writer = Writer(
    out: string,
    scriptOpen: bool,
    buffered: string,
    pending: seq<ResourceRef>,
    count: nat,
    stylesheets: bool)

  const Start: Writer := Writer("", false, "", [], 0, false)

  function WriteImageHint(w: Writer, url: string): Writer {
    w.(out := w.out + (if w.scriptOpen then "" else ImageScriptOpen) + ImageSrc(url),
       scriptOpen := true, count := w.count + 1)
  }

  function BufferHint(w: Writer, html: string, stylesheet: bool): Writer {
    w.(buffered := w.buffered + html, count := w.count + 1, stylesheets := w.stylesheets || stylesheet)
  }

  /** Writes the hint for one selected resource in the client's form. */
  function EmitHint(cap: Capability, w: Writer, url: string, ct: ContentType): (r: Writer)
    requires cap != NotSupported
    ensures r.count == w.count + 1 && r.pending == w.pending
    ensures r.stylesheets <==> w.stylesheets || (ct == Css && cap != RelPrefetch)
  {
    if ct == Image then WriteImageHint(w, url)
    else if cap == RelPrefetch then BufferHint(w, PrefetchLink(url), false)
    else if ct == Css then BufferHint(w, StylesheetLink(url), true)
    else if cap == ImageTag then WriteImageHint(w, url)
    else BufferHint(w, PsaPrefetchScript(url), false)
  }

  function Step(cfg: Config, w: Writer, node: Node): Writer
    requires cfg.capability != NotSupported
  {
    match node
    case PrefetchHint(markup) =>
      w.(out := w.out + (if w.scriptOpen then ImageScriptClose else "") + markup, scriptOpen := false)
    case FlushStyle(id, css) =>
      if cfg.flushCriticalCss then BufferHint(w, FlushStyleScript(id, css), false) else w
    case Resource(ref) =>
      if !Applied(cfg, ref) then w
      else if ref.contentType != Image && TimeGated(cfg, ref) then w.(pending := w.pending + [ref])
      else EmitHint(cfg.capability, w, ref.url, ref.contentType)
  }

  function Walk(cfg: Config, nodes: seq<Node>): Writer
    requires cfg.capability != NotSupported
    decreases |nodes|
  {
    if |nodes| == 0 then Start else Step(cfg, Walk(cfg, nodes[..|nodes| - 1]), nodes[|nodes| - 1])
  }

  /** Writes the hints kept back for the end, in the order they were met. */
  function EmitAll(cap: Capability, w: Writer, refs: seq<ResourceRef>): (r: Writer)
    requires cap != NotSupported
    ensures r.count == w.count + |refs| && r.pending == w.pending
    decreases |refs|
  {
    if |refs| == 0 then w
    else
      var last := refs[|refs| - 1];
      EmitHint(cap, EmitAll(cap, w, refs[..|refs| - 1]), last.url, last.contentType)
  }

  /** The writer once the kept-back hints and the deferral script hint are out. */
  function Finish(cfg: Config, w: Writer): (r: Writer)
    requires cfg.capability != NotSupported
    ensures r.count == w.count + |w.pending| + (if DeferJsFlushed(cfg) then 1 else 0)
  {
    var done := EmitAll(cfg.capability, w.(pending := []), w.pending);
    if DeferJsFlushed(cfg) then EmitHint(cfg.capability, done, cfg.deferJsUrl, Js) else done
  }

  /** The complete output text for a finished writer. */
  function Render(cfg: Config, w: Writer): string {
    w.out + (if w.scriptOpen then ImageScriptClose else "") + w.buffered
      + (if w.stylesheets then cfg.disableLinkTag else "") + SummaryScript(w.count)
  }

  /**
   * What a pass produces: the text written ahead of the page, the decision
   * log, the number of resources hinted, and the time budget reported in the
   * log (the seeded average fetch latency; its decrement is not modelled).
   */
  datatype Outcome = Outcome(html: string, log: Log, flushedCount: nat, availableTimeMs: nat)

  function FlushEarly(cfg: Config, nodes: seq<Node>): (r: Outcome)
    ensures r.availableTimeMs == cfg.averageFetchLatencyMs
    ensures r.log.capacity == cfg.logCapacity && Valid(r.log)
    ensures cfg.capability == NotSupported ==> r.html == SummaryScript(0) && r.flushedCount == 0
    ensures |SummaryScript(r.flushedCount)| <= |r.html|
    ensures r.html[|r.html| - |SummaryScript(r.flushedCount)|..] == SummaryScript(r.flushedCount)
  {
    var log := AppendAll(Empty(cfg.logCapacity), Decisions(cfg, nodes));
    DecisionLog.AppendAllKeepsPrefix(Empty(cfg.logCapacity), Decisions(cfg, nodes));
    if cfg.capability == NotSupported then
      Outcome(SummaryScript(0), log, 0, cfg.averageFetchLatencyMs)
    else
      var w := Finish(cfg, Walk(cfg, nodes));
      Outcome(Render(cfg, w), log, w.count, cfg.averageFetchLatencyMs)
  }
}
