/**
 * The pages of the filter's own test suite, walked through the model. URLs
 * are left symbolic: each scenario assumes only how its URLs classify (a
 * rewritten-resource name, a member of the cacheable sets, a match of the
 * disallow pattern), and the outputs are stated in terms of the hint forms.
 * Each scenario is proved in three steps over an arbitrary configuration
 * with the stated properties: the writer the walk leaves, the writer once
 * the kept-back hints are out, and the text and log of the pass.
 */
module FlushEarlyScenarios {
  import opened Wrappers
  import opened Strings
  import opened DecisionLog
  import opened ResourceClassifier
  import opened FlushEarlyWriter
  import opened FlushEarlyProperties
  import HtmlEscaping
  import JsEscaping
  import Wildcard
  import FlushEarlyHints

  /** The configuration the suite starts from: nothing cacheable, nothing disallowed, no deferral, no critical CSS. */
  function TestConfig(cap: Capability, rewritten: string -> bool, maxFlushSize: nat, disableLinkTag: string,
                      deferJsUrl: string): Config {
    Config(cap, rewritten, false, false, {}, {}, [], maxFlushSize, None, 190, disableLinkTag, deferJsUrl)
  }

  /** A log entry about the resource at `index`. */
  function ResourceEntry(status: Status, index: nat, ct: ContentType, rt: ResourceType, bw: bool, inHead: bool): Entry {
    Entry(FilterId, status, Some(index), ct, rt, bw, inHead)
  }

  /** The closing entry of a pass that did not hint the deferral script. */
  const DeferJsNotApplied: Entry := Entry(FilterId, NotApplied, None, Js, DeferJsScript, false, false)

  // ------------------------------------------------------------- helpers

  lemma WalkFirst(cfg: Config, n: Node)
    requires cfg.capability != NotSupported
    ensures Walk(cfg, [n]) == Step(cfg, Start, n)
  {
    WalkSnoc(cfg, [], n);
    assert [] + [n] == [n];
  }

  lemma ResourcesSnoc(xs: seq<Node>, n: Node)
    ensures Resources(xs + [n]) == Resources(xs) + (if n.Resource? then [n.ref] else [])
  {
    assert (xs + [n])[..|xs|] == xs;
  }

  // The string regroupings below are stated once, so that each scenario
  // closes by congruence instead of by comparing texts character by character.

  lemma EmptyLeft(x: string)
    ensures "" + x == x
  {}

  lemma EmptyRight(x: string)
    ensures x + "" == x
  {}

  lemma Regroup(x: string, y: string, z: string)
    ensures x + (y + z) == x + y + z
  {
  }

  /** Lifts a hint written out in five pieces from between its neighbours. */
  lemma Flatten(a: string, p1: string, p2: string, p3: string, p4: string, p5: string, c: string)
    ensures a + (p1 + p2 + p3 + p4 + p5) + c == a + p1 + p2 + p3 + p4 + p5 + c
  {
  }

  /** Lifts a three-piece middle out of its parentheses. */
  lemma Lift(a: string, p1: string, p2: string, p3: string, c: string)
    ensures a + (p1 + p2 + p3) + c == a + p1 + p2 + p3 + c
  {
  }

  lemma EmitAllOne(cap: Capability, v: Writer, r: ResourceRef)
    requires cap != NotSupported
    ensures EmitAll(cap, v, [r]) == EmitHint(cap, v, r.url, r.contentType)
  {
    assert [r][..0] == [];
    assert EmitAll(cap, v, [r]) == EmitHint(cap, EmitAll(cap, v, []), r.url, r.contentType);
  }

  lemma EmitAllTwo(cap: Capability, v: Writer, r1: ResourceRef, r2: ResourceRef)
    requires cap != NotSupported
    ensures EmitAll(cap, v, [r1, r2]) == EmitHint(cap, EmitHint(cap, v, r1.url, r1.contentType), r2.url, r2.contentType)
  {
    assert [r1, r2][..1] == [r1];
    EmitAllOne(cap, v, r1);
    assert EmitAll(cap, v, [r1, r2]) == EmitHint(cap, EmitAll(cap, v, [r1]), r2.url, r2.contentType);
  }

  /** A walk that kept nothing back is already finished when the deferral script is not hinted. */
  lemma FinishIdle(cfg: Config, nodes: seq<Node>, w: Writer)
    requires cfg.capability != NotSupported && !DeferJsFlushed(cfg)
    requires Walk(cfg, nodes) == w && w.pending == []
    ensures Finish(cfg, Walk(cfg, nodes)) == w
  {
    assert w.(pending := []) == w;
  }

  /** A link/script-tag client with deferral that kept nothing back ends on the deferral script's hint. */
  lemma FinishDeferOnly(cfg: Config, w: Writer)
    requires cfg.capability == LinkScriptTag && cfg.deferJs && w.pending == []
    ensures Finish(cfg, w) == w.(buffered := w.buffered + PsaPrefetchScript(cfg.deferJsUrl), count := w.count + 1)
  {
    assert w.(pending := []) == w;
  }

  /** A link/script-tag client without deferral buffers the one script it kept back. */
  lemma FinishOneScript(cfg: Config, w: Writer, r: ResourceRef)
    requires cfg.capability == LinkScriptTag && !cfg.deferJs && w.pending == [r] && r.contentType == Js
    ensures Finish(cfg, w) == w.(pending := [], buffered := w.buffered + PsaPrefetchScript(r.url), count := w.count + 1)
  {
    EmitAllOne(cfg.capability, w.(pending := []), r);
  }

  /** An image-tag client opens a fresh inline script for the one script it kept back. */
  lemma FinishOneImage(cfg: Config, w: Writer, r: ResourceRef)
    requires cfg.capability == ImageTag && w.pending == [r] && r.contentType == Js && !w.scriptOpen
    ensures Finish(cfg, w)
         == w.(out := w.out + ImageScriptOpen + ImageSrc(r.url), scriptOpen := true, pending := [], count := w.count + 1)
  {
    EmitAllOne(cfg.capability, w.(pending := []), r);
  }

  /** An image-tag client puts the two scripts it kept back into one fresh inline script. */
  lemma FinishTwoImages(cfg: Config, w: Writer, r1: ResourceRef, r2: ResourceRef)
    requires cfg.capability == ImageTag && w.pending == [r1, r2] && r1.contentType == Js && r2.contentType == Js
    requires !w.scriptOpen
    ensures Finish(cfg, w)
         == w.(out := w.out + ImageScriptOpen + ImageSrc(r1.url) + ImageSrc(r2.url), scriptOpen := true, pending := [],
               count := w.count + 2)
  {
    EmitAllTwo(cfg.capability, w.(pending := []), r1, r2);
    EmptyRight(w.out + ImageScriptOpen + ImageSrc(r1.url));
  }

  /** A rel=prefetch client with deferral links the two scripts it kept back, then the deferral script. */
  lemma FinishTwoPrefetches(cfg: Config, w: Writer, r1: ResourceRef, r2: ResourceRef)
    requires cfg.capability == RelPrefetch && cfg.deferJs && w.pending == [r1, r2]
    requires r1.contentType == Js && r2.contentType == Js
    ensures Finish(cfg, w)
         == w.(buffered := w.buffered + PrefetchLink(r1.url) + PrefetchLink(r2.url) + PrefetchLink(cfg.deferJsUrl),
               pending := [], count := w.count + 3)
  {
    EmitAllTwo(cfg.capability, w.(pending := []), r1, r2);
  }

  /** The text and count of a supported pass, read off its finished writer when the image script is closed. */
  lemma PassClosed(cfg: Config, nodes: seq<Node>, fin: Writer)
    requires cfg.capability != NotSupported && Finish(cfg, Walk(cfg, nodes)) == fin && !fin.scriptOpen
    ensures FlushEarly(cfg, nodes).html
         == fin.out + fin.buffered + (if fin.stylesheets then cfg.disableLinkTag else "") + SummaryScript(fin.count)
    ensures FlushEarly(cfg, nodes).flushedCount == fin.count
  {
    EmptyRight(fin.out);
  }

  /** The text and count of a supported pass whose finished writer still has the image script open. */
  lemma PassOpen(cfg: Config, nodes: seq<Node>, fin: Writer)
    requires cfg.capability != NotSupported && Finish(cfg, Walk(cfg, nodes)) == fin && fin.scriptOpen
    ensures FlushEarly(cfg, nodes).html
         == fin.out + ImageScriptClose + fin.buffered + (if fin.stylesheets then cfg.disableLinkTag else "")
            + SummaryScript(fin.count)
    ensures FlushEarly(cfg, nodes).flushedCount == fin.count
  {
  }

  /** Without a capacity, the log of a supported pass is one entry per resource and the deferral entry. */
  lemma LogOfPage(cfg: Config, nodes: seq<Node>, rs: seq<ResourceRef>)
    requires cfg.capability != NotSupported && cfg.logCapacity.None? && Resources(nodes) == rs
    ensures FlushEarly(cfg, nodes).log.entries
         == seq(|rs|, i requires 0 <= i < |rs| => EntryFor(cfg, rs[i], i)) + [DeferJsEntry(cfg)]
    ensures !FlushEarly(cfg, nodes).log.limitExceeded
  {
    FreshLogKeepsPrefix(cfg.logCapacity, Decisions(cfg, nodes));
  }

  lemma LogOfThree(cfg: Config, nodes: seq<Node>, r0: ResourceRef, r1: ResourceRef, r2: ResourceRef,
                   e0: Entry, e1: Entry, e2: Entry)
    requires cfg.capability != NotSupported && cfg.logCapacity.None? && Resources(nodes) == [r0, r1, r2]
    requires EntryFor(cfg, r0, 0) == e0 && EntryFor(cfg, r1, 1) == e1 && EntryFor(cfg, r2, 2) == e2
    ensures FlushEarly(cfg, nodes).log.entries == [e0, e1, e2, DeferJsEntry(cfg)]
    ensures !FlushEarly(cfg, nodes).log.limitExceeded
  {
    var rs := [r0, r1, r2];
    var es := [e0, e1, e2];
    LogOfPage(cfg, nodes, rs);
    assert seq(|rs|, i requires 0 <= i < |rs| => EntryFor(cfg, rs[i], i)) == es by {
      forall i | 0 <= i < 3
        ensures EntryFor(cfg, rs[i], i) == es[i]
      {
        if i == 0 {} else if i == 1 {} else {}
      }
    }
  }

  lemma LogOfFour(cfg: Config, nodes: seq<Node>, r0: ResourceRef, r1: ResourceRef, r2: ResourceRef, r3: ResourceRef,
                  e0: Entry, e1: Entry, e2: Entry, e3: Entry)
    requires cfg.capability != NotSupported && cfg.logCapacity.None? && Resources(nodes) == [r0, r1, r2, r3]
    requires EntryFor(cfg, r0, 0) == e0 && EntryFor(cfg, r1, 1) == e1 && EntryFor(cfg, r2, 2) == e2
    requires EntryFor(cfg, r3, 3) == e3
    ensures FlushEarly(cfg, nodes).log.entries == [e0, e1, e2, e3, DeferJsEntry(cfg)]
    ensures !FlushEarly(cfg, nodes).log.limitExceeded
  {
    var rs := [r0, r1, r2, r3];
    var es := [e0, e1, e2, e3];
    LogOfPage(cfg, nodes, rs);
    assert seq(|rs|, i requires 0 <= i < |rs| => EntryFor(cfg, rs[i], i)) == es by {
      forall i | 0 <= i < 4
        ensures EntryFor(cfg, rs[i], i) == es[i]
      {
        if i == 0 {} else if i == 1 {} else if i == 2 {} else {}
      }
    }
  }

  lemma LogOfEight(cfg: Config, nodes: seq<Node>, rs: seq<ResourceRef>, es: seq<Entry>)
    requires cfg.capability != NotSupported && cfg.logCapacity.None? && Resources(nodes) == rs
    requires |rs| == 8 && |es| == 8
    requires EntryFor(cfg, rs[0], 0) == es[0] && EntryFor(cfg, rs[1], 1) == es[1]
    requires EntryFor(cfg, rs[2], 2) == es[2] && EntryFor(cfg, rs[3], 3) == es[3]
    requires EntryFor(cfg, rs[4], 4) == es[4] && EntryFor(cfg, rs[5], 5) == es[5]
    requires EntryFor(cfg, rs[6], 6) == es[6] && EntryFor(cfg, rs[7], 7) == es[7]
    ensures FlushEarly(cfg, nodes).log.entries == es + [DeferJsEntry(cfg)]
    ensures !FlushEarly(cfg, nodes).log.limitExceeded
  {
    LogOfPage(cfg, nodes, rs);
    assert seq(|rs|, i requires 0 <= i < |rs| => EntryFor(cfg, rs[i], i)) == es by {
      forall i | 0 <= i < 8
        ensures EntryFor(cfg, rs[i], i) == es[i]
      {
        if i == 0 {} else if i == 1 {} else if i == 2 {} else if i == 3 {}
        else if i == 4 {} else if i == 5 {} else if i == 6 {} else {}
      }
    }
  }

  // ------------------------------------------------ different browsers

  /**
   * The page of the browser-comparison test: in the head a plain stylesheet
   * and script, a rewritten script and stylesheet, a small and a very large
   * rewritten image, a dns-prefetch and a prefetch link; in the body a small
   * and a large rewritten script.
   */
  predicate BrowsersHeadRefs(rewritten: string -> bool, a: ResourceRef, b: ResourceRef, c: ResourceRef, d: ResourceRef,
                             e: ResourceRef)
  {
    && a.contentType == Css && a.inHead && a.declaredSize == Some(1000) && !rewritten(a.resolvedUrl)
    && b.contentType == Js && b.inHead && b.declaredSize == Some(1000) && !rewritten(b.resolvedUrl)
    && c.contentType == Js && c.inHead && c.declaredSize == Some(1000) && rewritten(c.resolvedUrl)
    && d.contentType == Css && d.inHead && d.declaredSize == Some(1000) && rewritten(d.resolvedUrl)
    && e.contentType == Image && e.inHead && e.declaredSize == Some(1000) && rewritten(e.resolvedUrl)
  }

  predicate BrowsersRefs(rewritten: string -> bool, a: ResourceRef, b: ResourceRef, c: ResourceRef, d: ResourceRef,
                         e: ResourceRef, g: ResourceRef, dj: ResourceRef, ej: ResourceRef)
  {
    && BrowsersHeadRefs(rewritten, a, b, c, d, e)
    && g.contentType == Image && g.inHead && g.declaredSize == Some(1000000) && rewritten(g.resolvedUrl)
    && dj.contentType == Js && !dj.inHead && dj.declaredSize == Some(1000) && rewritten(dj.resolvedUrl)
    && ej.contentType == Js && !ej.inHead && ej.declaredSize == Some(100000) && rewritten(ej.resolvedUrl)
  }

  function BrowsersHead(a: ResourceRef, b: ResourceRef, c: ResourceRef, d: ResourceRef, e: ResourceRef): seq<Node> {
    [Resource(a)] + [Resource(b)] + [Resource(c)] + [Resource(d)] + [Resource(e)]
  }

  function BrowsersPage(a: ResourceRef, b: ResourceRef, c: ResourceRef, d: ResourceRef, e: ResourceRef,
                        g: ResourceRef, dns: string, pf: string, dj: ResourceRef, ej: ResourceRef): seq<Node>
  {
    BrowsersHead(a, b, c, d, e) + [Resource(g)] + [PrefetchHint(dns)] + [PrefetchHint(pf)] + [Resource(dj)] + [Resource(ej)]
  }

  /** The configuration of a browser-comparison run. */
  predicate BrowsersConfig(cfg: Config)
  {
    && cfg.publicCacheable == {} && cfg.privateCacheable == {}
    && 1000 <= cfg.maxFlushSize < 100000 && cfg.logCapacity.None?
  }

  /** The resources of the browser-comparison page, in document order. */
  lemma BrowsersResources(a: ResourceRef, b: ResourceRef, c: ResourceRef, d: ResourceRef, e: ResourceRef,
                          g: ResourceRef, dns: string, pf: string, dj: ResourceRef, ej: ResourceRef)
    ensures Resources(BrowsersPage(a, b, c, d, e, g, dns, pf, dj, ej)) == [a, b, c, d, e, g, dj, ej]
  {
    var d1 := [Resource(a)];
    var d2 := d1 + [Resource(b)];
    var d3 := d2 + [Resource(c)];
    var d4 := d3 + [Resource(d)];
    var d5 := d4 + [Resource(e)];
    var d6 := d5 + [Resource(g)];
    var d7 := d6 + [PrefetchHint(dns)];
    var d8 := d7 + [PrefetchHint(pf)];
    var d9 := d8 + [Resource(dj)];
    ResourcesSnoc([], Resource(a));
    assert [] + [Resource(a)] == d1;
    ResourcesSnoc(d1, Resource(b));
    ResourcesSnoc(d2, Resource(c));
    ResourcesSnoc(d3, Resource(d));
    ResourcesSnoc(d4, Resource(e));
    ResourcesSnoc(d5, Resource(g));
    ResourcesSnoc(d6, PrefetchHint(dns));
    ResourcesSnoc(d7, PrefetchHint(pf));
    ResourcesSnoc(d8, Resource(dj));
    ResourcesSnoc(d9, Resource(ej));
  }

  /**
   * The second half of the page, for any client: the large image is not
   * hinted, the two prefetch links are copied (the first closes the image
   * script), the small body script is kept back for the end unless deferral
   * suppresses it, and the large body script is not hinted.
   */
  lemma BrowsersTail(cfg: Config, xs: seq<Node>, w: Writer, g: ResourceRef, dns: string, pf: string,
                     dj: ResourceRef, ej: ResourceRef)
    requires cfg.capability != NotSupported && 1000 <= cfg.maxFlushSize < 100000
    requires Walk(cfg, xs) == w && w.scriptOpen
    requires g.contentType == Image && g.inHead && g.declaredSize == Some(1000000) && ResourceTypeOf(cfg, g) == Pagespeed
    requires dj.contentType == Js && !dj.inHead && dj.declaredSize == Some(1000) && ResourceTypeOf(cfg, dj) == Pagespeed
    requires ej.contentType == Js && !ej.inHead && ej.declaredSize == Some(100000) && ResourceTypeOf(cfg, ej) == Pagespeed
    ensures Walk(cfg, xs + [Resource(g)] + [PrefetchHint(dns)] + [PrefetchHint(pf)] + [Resource(dj)] + [Resource(ej)])
         == w.(out := w.out + ImageScriptClose + dns + pf, scriptOpen := false,
               pending := w.pending + (if Suppressed(cfg, dj) then [] else [dj]))
  {
    var d6 := xs + [Resource(g)];
    var d7 := d6 + [PrefetchHint(dns)];
    var d8 := d7 + [PrefetchHint(pf)];
    var d9 := d8 + [Resource(dj)];
    WalkSnoc(cfg, xs, Resource(g));
    assert Walk(cfg, d6) == w;
    WalkSnoc(cfg, d6, PrefetchHint(dns));
    var w7 := w.(out := w.out + ImageScriptClose + dns, scriptOpen := false);
    assert Walk(cfg, d7) == w7;
    WalkSnoc(cfg, d7, PrefetchHint(pf));
    var w8 := w7.(out := w7.out + pf);
    EmptyRight(w7.out);
    assert Walk(cfg, d8) == w8;
    WalkSnoc(cfg, d8, Resource(dj));
    var w9 := w8.(pending := w.pending + (if Suppressed(cfg, dj) then [] else [dj]));
    assert Walk(cfg, d9) == w9;
    WalkSnoc(cfg, d9, Resource(ej));
  }

  /** The two plain head resources are never hinted. */
  lemma BrowsersPlainHead(cfg: Config, a: ResourceRef, b: ResourceRef)
    requires cfg.capability != NotSupported
    requires ResourceTypeOf(cfg, a) == NonPagespeed && ResourceTypeOf(cfg, b) == NonPagespeed
    ensures Walk(cfg, [Resource(a)] + [Resource(b)]) == Start
  {
    WalkFirst(cfg, Resource(a));
    WalkSnoc(cfg, [Resource(a)], Resource(b));
  }

  /** The head of the page for a link/script-tag client without deferral. */
  lemma BrowsersHeadLinkScriptTag(cfg: Config, a: ResourceRef, b: ResourceRef, c: ResourceRef, d: ResourceRef, e: ResourceRef)
    requires cfg.capability == LinkScriptTag && !cfg.deferJs && BrowsersConfig(cfg)
    requires BrowsersHeadRefs(cfg.rewritten, a, b, c, d, e)
    ensures Walk(cfg, BrowsersHead(a, b, c, d, e))
         == Writer(ImageScriptOpen + ImageSrc(e.url), true, PsaPrefetchScript(c.url) + StylesheetLink(d.url), [], 3, true)
  {
    var d2 := [Resource(a)] + [Resource(b)];
    var d3 := d2 + [Resource(c)];
    var d4 := d3 + [Resource(d)];
    BrowsersPlainHead(cfg, a, b);
    WalkSnoc(cfg, d2, Resource(c));
    EmptyLeft(PsaPrefetchScript(c.url));
    assert Walk(cfg, d3) == Writer("", false, PsaPrefetchScript(c.url), [], 1, false);
    WalkSnoc(cfg, d3, Resource(d));
    assert Walk(cfg, d4) == Writer("", false, PsaPrefetchScript(c.url) + StylesheetLink(d.url), [], 2, true);
    WalkSnoc(cfg, d4, Resource(e));
    EmptyLeft(ImageScriptOpen);
  }

  /** The head of the page for an image-tag client without deferral: the rewritten script joins the image script. */
  lemma BrowsersHeadImageTag(cfg: Config, a: ResourceRef, b: ResourceRef, c: ResourceRef, d: ResourceRef, e: ResourceRef)
    requires cfg.capability == ImageTag && !cfg.deferJs && BrowsersConfig(cfg)
    requires BrowsersHeadRefs(cfg.rewritten, a, b, c, d, e)
    ensures Walk(cfg, BrowsersHead(a, b, c, d, e))
         == Writer(ImageScriptOpen + ImageSrc(c.url) + ImageSrc(e.url), true, StylesheetLink(d.url), [], 3, true)
  {
    var d2 := [Resource(a)] + [Resource(b)];
    var d3 := d2 + [Resource(c)];
    var d4 := d3 + [Resource(d)];
    BrowsersPlainHead(cfg, a, b);
    WalkSnoc(cfg, d2, Resource(c));
    EmptyLeft(ImageScriptOpen);
    var out := ImageScriptOpen + ImageSrc(c.url);
    assert Walk(cfg, d3) == Writer(out, true, "", [], 1, false);
    WalkSnoc(cfg, d3, Resource(d));
    EmptyLeft(StylesheetLink(d.url));
    assert Walk(cfg, d4) == Writer(out, true, StylesheetLink(d.url), [], 2, true);
    WalkSnoc(cfg, d4, Resource(e));
    EmptyRight(out);
  }

  /** The head of the page for an image-tag client with deferral: the rewritten script waits for the end. */
  lemma BrowsersHeadImageTagDefer(cfg: Config, a: ResourceRef, b: ResourceRef, c: ResourceRef, d: ResourceRef, e: ResourceRef)
    requires cfg.capability == ImageTag && cfg.deferJs && BrowsersConfig(cfg)
    requires BrowsersHeadRefs(cfg.rewritten, a, b, c, d, e)
    ensures Walk(cfg, BrowsersHead(a, b, c, d, e))
         == Writer(ImageScriptOpen + ImageSrc(e.url), true, StylesheetLink(d.url), [c], 2, true)
  {
    var d2 := [Resource(a)] + [Resource(b)];
    var d3 := d2 + [Resource(c)];
    var d4 := d3 + [Resource(d)];
    BrowsersPlainHead(cfg, a, b);
    WalkSnoc(cfg, d2, Resource(c));
    assert [] + [c] == [c];
    assert Walk(cfg, d3) == Writer("", false, "", [c], 0, false);
    WalkSnoc(cfg, d3, Resource(d));
    EmptyLeft(StylesheetLink(d.url));
    assert Walk(cfg, d4) == Writer("", false, StylesheetLink(d.url), [c], 1, true);
    WalkSnoc(cfg, d4, Resource(e));
    EmptyLeft(ImageScriptOpen);
  }

  /** The head of the page for a link/script-tag client with deferral: the rewritten script is left alone. */
  lemma BrowsersHeadLinkScriptTagDefer(cfg: Config, a: ResourceRef, b: ResourceRef, c: ResourceRef, d: ResourceRef,
                                       e: ResourceRef)
    requires cfg.capability == LinkScriptTag && cfg.deferJs && BrowsersConfig(cfg)
    requires BrowsersHeadRefs(cfg.rewritten, a, b, c, d, e)
    ensures Walk(cfg, BrowsersHead(a, b, c, d, e))
         == Writer(ImageScriptOpen + ImageSrc(e.url), true, StylesheetLink(d.url), [], 2, true)
  {
    var d2 := [Resource(a)] + [Resource(b)];
    var d3 := d2 + [Resource(c)];
    var d4 := d3 + [Resource(d)];
    BrowsersPlainHead(cfg, a, b);
    WalkSnoc(cfg, d2, Resource(c));
    assert Walk(cfg, d3) == Start;
    WalkSnoc(cfg, d3, Resource(d));
    EmptyLeft(StylesheetLink(d.url));
    assert Walk(cfg, d4) == Writer("", false, StylesheetLink(d.url), [], 1, true);
    WalkSnoc(cfg, d4, Resource(e));
    EmptyLeft(ImageScriptOpen);
  }

  /** The head of the page for a rel=prefetch client with deferral: the stylesheet becomes a prefetch link. */
  lemma BrowsersHeadRelPrefetchDefer(cfg: Config, a: ResourceRef, b: ResourceRef, c: ResourceRef, d: ResourceRef,
                                     e: ResourceRef)
    requires cfg.capability == RelPrefetch && cfg.deferJs && BrowsersConfig(cfg)
    requires BrowsersHeadRefs(cfg.rewritten, a, b, c, d, e)
    ensures Walk(cfg, BrowsersHead(a, b, c, d, e))
         == Writer(ImageScriptOpen + ImageSrc(e.url), true, PrefetchLink(d.url), [c], 2, false)
  {
    var d2 := [Resource(a)] + [Resource(b)];
    var d3 := d2 + [Resource(c)];
    var d4 := d3 + [Resource(d)];
    BrowsersPlainHead(cfg, a, b);
    WalkSnoc(cfg, d2, Resource(c));
    assert [] + [c] == [c];
    assert Walk(cfg, d3) == Writer("", false, "", [c], 0, false);
    WalkSnoc(cfg, d3, Resource(d));
    EmptyLeft(PrefetchLink(d.url));
    assert Walk(cfg, d4) == Writer("", false, PrefetchLink(d.url), [c], 1, false);
    WalkSnoc(cfg, d4, Resource(e));
    EmptyLeft(ImageScriptOpen);
  }

  /** The whole page for a link/script-tag client without deferral: the small body script is kept back. */
  lemma BrowsersWalkLinkScriptTag(cfg: Config, a: ResourceRef, b: ResourceRef, c: ResourceRef, d: ResourceRef,
                                  e: ResourceRef, g: ResourceRef, dns: string, pf: string, dj: ResourceRef,
                                  ej: ResourceRef)
    requires cfg.capability == LinkScriptTag && !cfg.deferJs && BrowsersConfig(cfg)
    requires BrowsersRefs(cfg.rewritten, a, b, c, d, e, g, dj, ej)
    ensures Walk(cfg, BrowsersPage(a, b, c, d, e, g, dns, pf, dj, ej))
         == Writer(ImageScriptOpen + ImageSrc(e.url) + ImageScriptClose + dns + pf, false,
                   PsaPrefetchScript(c.url) + StylesheetLink(d.url), [dj], 3, true)
  {
    var head := BrowsersHead(a, b, c, d, e);
    BrowsersHeadLinkScriptTag(cfg, a, b, c, d, e);
    BrowsersTail(cfg, head, Walk(cfg, head), g, dns, pf, dj, ej);
    var none: seq<ResourceRef> := [];
    assert none + [dj] == [dj];
  }

  lemma BrowsersFinishedLinkScriptTag(cfg: Config, a: ResourceRef, b: ResourceRef, c: ResourceRef, d: ResourceRef,
                                      e: ResourceRef, g: ResourceRef, dns: string, pf: string, dj: ResourceRef,
                                      ej: ResourceRef)
    requires cfg.capability == LinkScriptTag && !cfg.deferJs && BrowsersConfig(cfg)
    requires BrowsersRefs(cfg.rewritten, a, b, c, d, e, g, dj, ej)
    ensures Finish(cfg, Walk(cfg, BrowsersPage(a, b, c, d, e, g, dns, pf, dj, ej)))
         == Writer(ImageScriptOpen + ImageSrc(e.url) + ImageScriptClose + dns + pf, false,
                   PsaPrefetchScript(c.url) + StylesheetLink(d.url) + PsaPrefetchScript(dj.url), [], 4, true)
  {
    var x := ImageScriptOpen + ImageSrc(e.url) + ImageScriptClose + dns + pf;
    BrowsersWalkLinkScriptTag(cfg, a, b, c, d, e, g, dns, pf, dj, ej);
    FinishOneScript(cfg, Writer(x, false, PsaPrefetchScript(c.url) + StylesheetLink(d.url), [dj], 3, true), dj);
  }

  /**
   * A link/script-tag client: the small image goes into the inline script
   * ahead of the copied prefetch links, then the rewritten script and
   * stylesheet from the head, then the small body script; four hints.
   */
  lemma BrowsersLinkScriptTag(a: ResourceRef, b: ResourceRef, c: ResourceRef, d: ResourceRef, e: ResourceRef,
                              g: ResourceRef, dns: string, pf: string, dj: ResourceRef, ej: ResourceRef,
                              rewritten: string -> bool, maxFlushSize: nat, disable: string, deferUrl: string)
    requires BrowsersRefs(rewritten, a, b, c, d, e, g, dj, ej)
    requires 1000 <= maxFlushSize < 100000
    ensures var r := FlushEarly(TestConfig(LinkScriptTag, rewritten, maxFlushSize, disable, deferUrl),
                                BrowsersPage(a, b, c, d, e, g, dns, pf, dj, ej));
            && r.html == ImageScriptOpen + ImageSrc(e.url) + ImageScriptClose + dns + pf
                         + PsaPrefetchScript(c.url) + StylesheetLink(d.url) + PsaPrefetchScript(dj.url)
                         + disable + SummaryScript(4)
            && r.flushedCount == 4
            && r.availableTimeMs == 190
  {
    var cfg := TestConfig(LinkScriptTag, rewritten, maxFlushSize, disable, deferUrl);
    var x := ImageScriptOpen + ImageSrc(e.url) + ImageScriptClose + dns + pf;
    var buf := PsaPrefetchScript(c.url) + StylesheetLink(d.url);
    BrowsersFinishedLinkScriptTag(cfg, a, b, c, d, e, g, dns, pf, dj, ej);
    PassClosed(cfg, BrowsersPage(a, b, c, d, e, g, dns, pf, dj, ej),
               Writer(x, false, buf + PsaPrefetchScript(dj.url), [], 4, true));
    Regroup(x, buf, PsaPrefetchScript(dj.url));
    Regroup(x, PsaPrefetchScript(c.url), StylesheetLink(d.url));
  }

  /** How the link/script-tag run decides the five head resources. */
  lemma BrowsersHeadEntriesLinkScriptTag(cfg: Config, a: ResourceRef, b: ResourceRef, c: ResourceRef, d: ResourceRef,
                                         e: ResourceRef)
    requires cfg.capability == LinkScriptTag && !cfg.deferJs && BrowsersConfig(cfg)
    requires BrowsersHeadRefs(cfg.rewritten, a, b, c, d, e)
    ensures EntryFor(cfg, a, 0) == ResourceEntry(NotApplied, 0, Css, NonPagespeed, false, true)
    ensures EntryFor(cfg, b, 1) == ResourceEntry(NotApplied, 1, Js, NonPagespeed, false, true)
    ensures EntryFor(cfg, c, 2) == ResourceEntry(AppliedOk, 2, Js, Pagespeed, false, true)
    ensures EntryFor(cfg, d, 3) == ResourceEntry(AppliedOk, 3, Css, Pagespeed, false, true)
    ensures EntryFor(cfg, e, 4) == ResourceEntry(AppliedOk, 4, Image, Pagespeed, true, true)
  {
  }

  /** How any run without deferral decides the large image and the two body scripts. */
  lemma BrowsersTailEntries(cfg: Config, g: ResourceRef, dj: ResourceRef, ej: ResourceRef)
    requires cfg.capability != NotSupported && !cfg.deferJs && BrowsersConfig(cfg)
    requires g.contentType == Image && g.inHead && g.declaredSize == Some(1000000) && cfg.rewritten(g.resolvedUrl)
    requires dj.contentType == Js && !dj.inHead && dj.declaredSize == Some(1000) && cfg.rewritten(dj.resolvedUrl)
    requires ej.contentType == Js && !ej.inHead && ej.declaredSize == Some(100000) && cfg.rewritten(ej.resolvedUrl)
    ensures EntryFor(cfg, g, 5) == ResourceEntry(NotApplied, 5, Image, Pagespeed, true, true)
    ensures EntryFor(cfg, dj, 6) == ResourceEntry(AppliedOk, 6, Js, Pagespeed, true, false)
    ensures EntryFor(cfg, ej, 7) == ResourceEntry(NotApplied, 7, Js, Pagespeed, true, false)
  {
  }

  /**
   * The log of the link/script-tag run: one entry per resource in document
   * order (the plain ones not applied, the large image and large body script
   * refused by the time budget, the small image and body script flagged as
   * bandwidth-affected), then the deferral script, not applied.
   */
  lemma BrowsersLinkScriptTagLog(a: ResourceRef, b: ResourceRef, c: ResourceRef, d: ResourceRef, e: ResourceRef,
                                 g: ResourceRef, dns: string, pf: string, dj: ResourceRef, ej: ResourceRef,
                                 rewritten: string -> bool, maxFlushSize: nat, disable: string, deferUrl: string)
    requires BrowsersRefs(rewritten, a, b, c, d, e, g, dj, ej)
    requires 1000 <= maxFlushSize < 100000
    ensures var r := FlushEarly(TestConfig(LinkScriptTag, rewritten, maxFlushSize, disable, deferUrl),
                                BrowsersPage(a, b, c, d, e, g, dns, pf, dj, ej));
            && r.log.entries == [
                 ResourceEntry(NotApplied, 0, Css, NonPagespeed, false, true),
                 ResourceEntry(NotApplied, 1, Js, NonPagespeed, false, true),
                 ResourceEntry(AppliedOk, 2, Js, Pagespeed, false, true),
                 ResourceEntry(AppliedOk, 3, Css, Pagespeed, false, true),
                 ResourceEntry(AppliedOk, 4, Image, Pagespeed, true, true),
                 ResourceEntry(NotApplied, 5, Image, Pagespeed, true, true),
                 ResourceEntry(AppliedOk, 6, Js, Pagespeed, true, false),
                 ResourceEntry(NotApplied, 7, Js, Pagespeed, true, false),
                 DeferJsNotApplied]
            && !r.log.limitExceeded
  {
    var cfg := TestConfig(LinkScriptTag, rewritten, maxFlushSize, disable, deferUrl);
    var es := [
      ResourceEntry(NotApplied, 0, Css, NonPagespeed, false, true),
      ResourceEntry(NotApplied, 1, Js, NonPagespeed, false, true),
      ResourceEntry(AppliedOk, 2, Js, Pagespeed, false, true),
      ResourceEntry(AppliedOk, 3, Css, Pagespeed, false, true),
      ResourceEntry(AppliedOk, 4, Image, Pagespeed, true, true),
      ResourceEntry(NotApplied, 5, Image, Pagespeed, true, true),
      ResourceEntry(AppliedOk, 6, Js, Pagespeed, true, false),
      ResourceEntry(NotApplied, 7, Js, Pagespeed, true, false)];
    BrowsersResources(a, b, c, d, e, g, dns, pf, dj, ej);
    BrowsersHeadEntriesLinkScriptTag(cfg, a, b, c, d, e);
    BrowsersTailEntries(cfg, g, dj, ej);
    LogOfEight(cfg, BrowsersPage(a, b, c, d, e, g, dns, pf, dj, ej), [a, b, c, d, e, g, dj, ej], es);
  }

  /** The whole page for an image-tag client without deferral: the small body script is kept back. */
  lemma BrowsersWalkImageTag(cfg: Config, a: ResourceRef, b: ResourceRef, c: ResourceRef, d: ResourceRef,
                             e: ResourceRef, g: ResourceRef, dns: string, pf: string, dj: ResourceRef, ej: ResourceRef)
    requires cfg.capability == ImageTag && !cfg.deferJs && BrowsersConfig(cfg)
    requires BrowsersRefs(cfg.rewritten, a, b, c, d, e, g, dj, ej)
    ensures Walk(cfg, BrowsersPage(a, b, c, d, e, g, dns, pf, dj, ej))
         == Writer(ImageScriptOpen + ImageSrc(c.url) + ImageSrc(e.url) + ImageScriptClose + dns + pf, false,
                   StylesheetLink(d.url), [dj], 3, true)
  {
    var head := BrowsersHead(a, b, c, d, e);
    BrowsersHeadImageTag(cfg, a, b, c, d, e);
    BrowsersTail(cfg, head, Walk(cfg, head), g, dns, pf, dj, ej);
    var none: seq<ResourceRef> := [];
    assert none + [dj] == [dj];
  }

  lemma BrowsersFinishedImageTag(cfg: Config, a: ResourceRef, b: ResourceRef, c: ResourceRef, d: ResourceRef,
                                 e: ResourceRef, g: ResourceRef, dns: string, pf: string, dj: ResourceRef,
                                 ej: ResourceRef)
    requires cfg.capability == ImageTag && !cfg.deferJs && BrowsersConfig(cfg)
    requires BrowsersRefs(cfg.rewritten, a, b, c, d, e, g, dj, ej)
    ensures Finish(cfg, Walk(cfg, BrowsersPage(a, b, c, d, e, g, dns, pf, dj, ej)))
         == Writer(ImageScriptOpen + ImageSrc(c.url) + ImageSrc(e.url) + ImageScriptClose + dns + pf
                   + ImageScriptOpen + ImageSrc(dj.url), true, StylesheetLink(d.url), [], 4, true)
  {
    var x := ImageScriptOpen + ImageSrc(c.url) + ImageSrc(e.url) + ImageScriptClose + dns + pf;
    BrowsersWalkImageTag(cfg, a, b, c, d, e, g, dns, pf, dj, ej);
    FinishOneImage(cfg, Writer(x, false, StylesheetLink(d.url), [dj], 3, true), dj);
  }

  /**
   * An image-tag client: the rewritten head script joins the image in the
   * inline script, and the small body script gets an inline script of its
   * own after the copied prefetch links; four hints.
   */
  lemma BrowsersImageTag(a: ResourceRef, b: ResourceRef, c: ResourceRef, d: ResourceRef, e: ResourceRef,
                         g: ResourceRef, dns: string, pf: string, dj: ResourceRef, ej: ResourceRef,
                         rewritten: string -> bool, maxFlushSize: nat, disable: string, deferUrl: string)
    requires BrowsersRefs(rewritten, a, b, c, d, e, g, dj, ej)
    requires 1000 <= maxFlushSize < 100000
    ensures var r := FlushEarly(TestConfig(ImageTag, rewritten, maxFlushSize, disable, deferUrl),
                                BrowsersPage(a, b, c, d, e, g, dns, pf, dj, ej));
            && r.html == ImageScriptOpen + ImageSrc(c.url) + ImageSrc(e.url) + ImageScriptClose + dns + pf
                         + ImageScriptOpen + ImageSrc(dj.url) + ImageScriptClose
                         + StylesheetLink(d.url) + disable + SummaryScript(4)
            && r.flushedCount == 4
  {
    var cfg := TestConfig(ImageTag, rewritten, maxFlushSize, disable, deferUrl);
    var x := ImageScriptOpen + ImageSrc(c.url) + ImageSrc(e.url) + ImageScriptClose + dns + pf;
    BrowsersFinishedImageTag(cfg, a, b, c, d, e, g, dns, pf, dj, ej);
    PassOpen(cfg, BrowsersPage(a, b, c, d, e, g, dns, pf, dj, ej),
             Writer(x + ImageScriptOpen + ImageSrc(dj.url), true, StylesheetLink(d.url), [], 4, true));
  }

  /** The whole page for an image-tag client with deferral: both small scripts are kept back. */
  lemma BrowsersWalkImageTagDefer(cfg: Config, a: ResourceRef, b: ResourceRef, c: ResourceRef, d: ResourceRef,
                                  e: ResourceRef, g: ResourceRef, dns: string, pf: string, dj: ResourceRef,
                                  ej: ResourceRef)
    requires cfg.capability == ImageTag && cfg.deferJs && BrowsersConfig(cfg)
    requires BrowsersRefs(cfg.rewritten, a, b, c, d, e, g, dj, ej)
    ensures Walk(cfg, BrowsersPage(a, b, c, d, e, g, dns, pf, dj, ej))
         == Writer(ImageScriptOpen + ImageSrc(e.url) + ImageScriptClose + dns + pf, false,
                   StylesheetLink(d.url), [c, dj], 2, true)
  {
    var head := BrowsersHead(a, b, c, d, e);
    BrowsersHeadImageTagDefer(cfg, a, b, c, d, e);
    BrowsersTail(cfg, head, Walk(cfg, head), g, dns, pf, dj, ej);
    assert [c] + [dj] == [c, dj];
  }

  lemma BrowsersFinishedImageTagDefer(cfg: Config, a: ResourceRef, b: ResourceRef, c: ResourceRef, d: ResourceRef,
                                      e: ResourceRef, g: ResourceRef, dns: string, pf: string, dj: ResourceRef,
                                      ej: ResourceRef)
    requires cfg.capability == ImageTag && cfg.deferJs && BrowsersConfig(cfg)
    requires BrowsersRefs(cfg.rewritten, a, b, c, d, e, g, dj, ej)
    ensures Finish(cfg, Walk(cfg, BrowsersPage(a, b, c, d, e, g, dns, pf, dj, ej)))
         == Writer(ImageScriptOpen + ImageSrc(e.url) + ImageScriptClose + dns + pf
                   + ImageScriptOpen + ImageSrc(c.url) + ImageSrc(dj.url), true, StylesheetLink(d.url), [], 4, true)
  {
    var x := ImageScriptOpen + ImageSrc(e.url) + ImageScriptClose + dns + pf;
    BrowsersWalkImageTagDefer(cfg, a, b, c, d, e, g, dns, pf, dj, ej);
    FinishTwoImages(cfg, Writer(x, false, StylesheetLink(d.url), [c, dj], 2, true), c, dj);
  }

  /**
   * An image-tag client with deferral: scripts are time-budgeted, so the
   * rewritten head script waits for the end and shares an inline script
   * with the small body script; four hints.
   */
  lemma BrowsersImageTagDefer(a: ResourceRef, b: ResourceRef, c: ResourceRef, d: ResourceRef, e: ResourceRef,
                              g: ResourceRef, dns: string, pf: string, dj: ResourceRef, ej: ResourceRef,
                              rewritten: string -> bool, maxFlushSize: nat, disable: string, deferUrl: string)
    requires BrowsersRefs(rewritten, a, b, c, d, e, g, dj, ej)
    requires 1000 <= maxFlushSize < 100000
    ensures var r := FlushEarly(TestConfig(ImageTag, rewritten, maxFlushSize, disable, deferUrl).(deferJs := true),
                                BrowsersPage(a, b, c, d, e, g, dns, pf, dj, ej));
            && r.html == ImageScriptOpen + ImageSrc(e.url) + ImageScriptClose + dns + pf
                         + ImageScriptOpen + ImageSrc(c.url) + ImageSrc(dj.url) + ImageScriptClose
                         + StylesheetLink(d.url) + disable + SummaryScript(4)
            && r.flushedCount == 4
  {
    var cfg := TestConfig(ImageTag, rewritten, maxFlushSize, disable, deferUrl).(deferJs := true);
    var x := ImageScriptOpen + ImageSrc(e.url) + ImageScriptClose + dns + pf;
    BrowsersFinishedImageTagDefer(cfg, a, b, c, d, e, g, dns, pf, dj, ej);
    PassOpen(cfg, BrowsersPage(a, b, c, d, e, g, dns, pf, dj, ej),
             Writer(x + ImageScriptOpen + ImageSrc(c.url) + ImageSrc(dj.url), true, StylesheetLink(d.url), [], 4, true));
  }

  /** The whole page for a link/script-tag client with deferral: nothing is kept back. */
  lemma BrowsersWalkLinkScriptTagDefer(cfg: Config, a: ResourceRef, b: ResourceRef, c: ResourceRef, d: ResourceRef,
                                       e: ResourceRef, g: ResourceRef, dns: string, pf: string, dj: ResourceRef,
                                       ej: ResourceRef)
    requires cfg.capability == LinkScriptTag && cfg.deferJs && BrowsersConfig(cfg)
    requires BrowsersRefs(cfg.rewritten, a, b, c, d, e, g, dj, ej)
    ensures Walk(cfg, BrowsersPage(a, b, c, d, e, g, dns, pf, dj, ej))
         == Writer(ImageScriptOpen + ImageSrc(e.url) + ImageScriptClose + dns + pf, false, StylesheetLink(d.url), [], 2, true)
  {
    var head := BrowsersHead(a, b, c, d, e);
    BrowsersHeadLinkScriptTagDefer(cfg, a, b, c, d, e);
    BrowsersTail(cfg, head, Walk(cfg, head), g, dns, pf, dj, ej);
    var none: seq<ResourceRef> := [];
    assert none + none == none;
  }

  lemma BrowsersFinishedLinkScriptTagDefer(cfg: Config, a: ResourceRef, b: ResourceRef, c: ResourceRef, d: ResourceRef,
                                           e: ResourceRef, g: ResourceRef, dns: string, pf: string, dj: ResourceRef,
                                           ej: ResourceRef)
    requires cfg.capability == LinkScriptTag && cfg.deferJs && BrowsersConfig(cfg)
    requires BrowsersRefs(cfg.rewritten, a, b, c, d, e, g, dj, ej)
    ensures Finish(cfg, Walk(cfg, BrowsersPage(a, b, c, d, e, g, dns, pf, dj, ej)))
         == Writer(ImageScriptOpen + ImageSrc(e.url) + ImageScriptClose + dns + pf, false,
                   StylesheetLink(d.url) + PsaPrefetchScript(cfg.deferJsUrl), [], 3, true)
  {
    var x := ImageScriptOpen + ImageSrc(e.url) + ImageScriptClose + dns + pf;
    BrowsersWalkLinkScriptTagDefer(cfg, a, b, c, d, e, g, dns, pf, dj, ej);
    FinishDeferOnly(cfg, Writer(x, false, StylesheetLink(d.url), [], 2, true));
  }

  /**
   * A link/script-tag client with deferral: no script is hinted, and the
   * deferral script is hinted last, after the stylesheet; three hints.
   */
  lemma BrowsersLinkScriptTagDefer(a: ResourceRef, b: ResourceRef, c: ResourceRef, d: ResourceRef, e: ResourceRef,
                                   g: ResourceRef, dns: string, pf: string, dj: ResourceRef, ej: ResourceRef,
                                   rewritten: string -> bool, maxFlushSize: nat, disable: string, deferUrl: string)
    requires BrowsersRefs(rewritten, a, b, c, d, e, g, dj, ej)
    requires 1000 <= maxFlushSize < 100000
    ensures var r := FlushEarly(TestConfig(LinkScriptTag, rewritten, maxFlushSize, disable, deferUrl).(deferJs := true),
                                BrowsersPage(a, b, c, d, e, g, dns, pf, dj, ej));
            && r.html == ImageScriptOpen + ImageSrc(e.url) + ImageScriptClose + dns + pf
                         + StylesheetLink(d.url) + PsaPrefetchScript(deferUrl) + disable + SummaryScript(3)
            && r.flushedCount == 3
  {
    var cfg := TestConfig(LinkScriptTag, rewritten, maxFlushSize, disable, deferUrl).(deferJs := true);
    var x := ImageScriptOpen + ImageSrc(e.url) + ImageScriptClose + dns + pf;
    BrowsersFinishedLinkScriptTagDefer(cfg, a, b, c, d, e, g, dns, pf, dj, ej);
    PassClosed(cfg, BrowsersPage(a, b, c, d, e, g, dns, pf, dj, ej),
               Writer(x, false, StylesheetLink(d.url) + PsaPrefetchScript(deferUrl), [], 3, true));
    Regroup(x, StylesheetLink(d.url), PsaPrefetchScript(deferUrl));
  }

  /** The whole page for a rel=prefetch client with deferral: both small scripts are kept back. */
  lemma BrowsersWalkRelPrefetchDefer(cfg: Config, a: ResourceRef, b: ResourceRef, c: ResourceRef, d: ResourceRef,
                                     e: ResourceRef, g: ResourceRef, dns: string, pf: string, dj: ResourceRef,
                                     ej: ResourceRef)
    requires cfg.capability == RelPrefetch && cfg.deferJs && BrowsersConfig(cfg)
    requires BrowsersRefs(cfg.rewritten, a, b, c, d, e, g, dj, ej)
    ensures Walk(cfg, BrowsersPage(a, b, c, d, e, g, dns, pf, dj, ej))
         == Writer(ImageScriptOpen + ImageSrc(e.url) + ImageScriptClose + dns + pf, false,
                   PrefetchLink(d.url), [c, dj], 2, false)
  {
    var head := BrowsersHead(a, b, c, d, e);
    BrowsersHeadRelPrefetchDefer(cfg, a, b, c, d, e);
    BrowsersTail(cfg, head, Walk(cfg, head), g, dns, pf, dj, ej);
    assert [c] + [dj] == [c, dj];
  }

  lemma BrowsersFinishedRelPrefetchDefer(cfg: Config, a: ResourceRef, b: ResourceRef, c: ResourceRef, d: ResourceRef,
                                         e: ResourceRef, g: ResourceRef, dns: string, pf: string, dj: ResourceRef,
                                         ej: ResourceRef)
    requires cfg.capability == RelPrefetch && cfg.deferJs && BrowsersConfig(cfg)
    requires BrowsersRefs(cfg.rewritten, a, b, c, d, e, g, dj, ej)
    ensures Finish(cfg, Walk(cfg, BrowsersPage(a, b, c, d, e, g, dns, pf, dj, ej)))
         == Writer(ImageScriptOpen + ImageSrc(e.url) + ImageScriptClose + dns + pf, false,
                   PrefetchLink(d.url) + PrefetchLink(c.url) + PrefetchLink(dj.url) + PrefetchLink(cfg.deferJsUrl),
                   [], 5, false)
  {
    var x := ImageScriptOpen + ImageSrc(e.url) + ImageScriptClose + dns + pf;
    BrowsersWalkRelPrefetchDefer(cfg, a, b, c, d, e, g, dns, pf, dj, ej);
    FinishTwoPrefetches(cfg, Writer(x, false, PrefetchLink(d.url), [c, dj], 2, false), c, dj);
  }

  /**
   * A rel=prefetch client with deferral: the image still goes through the
   * inline script; the stylesheet, the head and body scripts and the
   * deferral script all become prefetch links, and no stylesheet link means
   * no disable-link snippet; five hints.
   */
  lemma BrowsersRelPrefetchDefer(a: ResourceRef, b: ResourceRef, c: ResourceRef, d: ResourceRef, e: ResourceRef,
                                 g: ResourceRef, dns: string, pf: string, dj: ResourceRef, ej: ResourceRef,
                                 rewritten: string -> bool, maxFlushSize: nat, disable: string, deferUrl: string)
    requires BrowsersRefs(rewritten, a, b, c, d, e, g, dj, ej)
    requires 1000 <= maxFlushSize < 100000
    ensures var r := FlushEarly(TestConfig(RelPrefetch, rewritten, maxFlushSize, disable, deferUrl).(deferJs := true),
                                BrowsersPage(a, b, c, d, e, g, dns, pf, dj, ej));
            && r.html == ImageScriptOpen + ImageSrc(e.url) + ImageScriptClose + dns + pf
                         + PrefetchLink(d.url) + PrefetchLink(c.url) + PrefetchLink(dj.url) + PrefetchLink(deferUrl)
                         + SummaryScript(5)
            && r.flushedCount == 5
  {
    var cfg := TestConfig(RelPrefetch, rewritten, maxFlushSize, disable, deferUrl).(deferJs := true);
    var x := ImageScriptOpen + ImageSrc(e.url) + ImageScriptClose + dns + pf;
    var links := PrefetchLink(d.url) + PrefetchLink(c.url) + PrefetchLink(dj.url);
    BrowsersFinishedRelPrefetchDefer(cfg, a, b, c, d, e, g, dns, pf, dj, ej);
    PassClosed(cfg, BrowsersPage(a, b, c, d, e, g, dns, pf, dj, ej),
               Writer(x, false, links + PrefetchLink(deferUrl), [], 5, false));
    EmptyRight(x + (links + PrefetchLink(deferUrl)));
    Regroup(x, links, PrefetchLink(deferUrl));
    Regroup(x, PrefetchLink(d.url) + PrefetchLink(c.url), PrefetchLink(dj.url));
    Regroup(x, PrefetchLink(d.url), PrefetchLink(c.url));
  }

  // ---------------------------------------------------- escape paranoia

  /** A rewritten head script whose name holds a double quote, followed by a plain script. */
  predicate QuotedScriptRefs(rewritten: string -> bool, f: ResourceRef, b: ResourceRef, x: string, y: string)
  {
    && f.url == x + "\"" + y && FlushEarlyHints.Plain(x)
    && f.contentType == Js && f.inHead && f.declaredSize == Some(1000) && rewritten(f.resolvedUrl)
    && b.contentType == Js && b.inHead && b.declaredSize == Some(1000) && !rewritten(b.resolvedUrl)
  }

  /** An image-tag client puts the quoted script into the inline script. */
  lemma QuotedScriptWalkImageTag(cfg: Config, f: ResourceRef, b: ResourceRef, x: string, y: string)
    requires cfg.capability == ImageTag && !cfg.deferJs && cfg.publicCacheable == {} && cfg.privateCacheable == {}
    requires QuotedScriptRefs(cfg.rewritten, f, b, x, y)
    ensures Walk(cfg, [Resource(f)] + [Resource(b)]) == Writer(ImageScriptOpen + ImageSrc(f.url), true, "", [], 1, false)
  {
    WalkFirst(cfg, Resource(f));
    EmptyLeft(ImageScriptOpen);
    WalkSnoc(cfg, [Resource(f)], Resource(b));
  }

  /** A link/script-tag client buffers a script hint for the quoted script. */
  lemma QuotedScriptWalkLinkScriptTag(cfg: Config, f: ResourceRef, b: ResourceRef, x: string, y: string)
    requires cfg.capability == LinkScriptTag && !cfg.deferJs && cfg.publicCacheable == {} && cfg.privateCacheable == {}
    requires QuotedScriptRefs(cfg.rewritten, f, b, x, y)
    ensures Walk(cfg, [Resource(f)] + [Resource(b)]) == Writer("", false, PsaPrefetchScript(f.url), [], 1, false)
  {
    WalkFirst(cfg, Resource(f));
    EmptyLeft(PsaPrefetchScript(f.url));
    WalkSnoc(cfg, [Resource(f)], Resource(b));
  }

  /** An image-tag client's output for the quoted-script page: the one fetch in the inline script, and the summary. */
  lemma QuotedScriptImageTag(cfg: Config, f: ResourceRef, b: ResourceRef, x: string, y: string)
    requires cfg.capability == ImageTag && !cfg.deferJs && cfg.publicCacheable == {} && cfg.privateCacheable == {}
    requires QuotedScriptRefs(cfg.rewritten, f, b, x, y)
    ensures FlushEarly(cfg, [Resource(f)] + [Resource(b)]).html
         == ImageScriptOpen + ImageSrc(f.url) + ImageScriptClose + SummaryScript(1)
  {
    var w := Writer(ImageScriptOpen + ImageSrc(f.url), true, "", [], 1, false);
    QuotedScriptWalkImageTag(cfg, f, b, x, y);
    FinishIdle(cfg, [Resource(f)] + [Resource(b)], w);
    PassOpen(cfg, [Resource(f)] + [Resource(b)], w);
    EmptyRight(ImageScriptOpen + ImageSrc(f.url) + ImageScriptClose);
  }

  /** A link/script-tag client's output for the quoted-script page: the one script hint, and the summary. */
  lemma QuotedScriptLinkScriptTag(cfg: Config, f: ResourceRef, b: ResourceRef, x: string, y: string)
    requires cfg.capability == LinkScriptTag && !cfg.deferJs && cfg.publicCacheable == {} && cfg.privateCacheable == {}
    requires QuotedScriptRefs(cfg.rewritten, f, b, x, y)
    ensures FlushEarly(cfg, [Resource(f)] + [Resource(b)]).html == PsaPrefetchScript(f.url) + SummaryScript(1)
  {
    var w := Writer("", false, PsaPrefetchScript(f.url), [], 1, false);
    QuotedScriptWalkLinkScriptTag(cfg, f, b, x, y);
    FinishIdle(cfg, [Resource(f)] + [Resource(b)], w);
    PassClosed(cfg, [Resource(f)] + [Resource(b)], w);
    EmptyLeft(PsaPrefetchScript(f.url));
    EmptyRight(PsaPrefetchScript(f.url));
  }

  /** The image fetch writes a double quote after a plain prefix as `\"`. */
  lemma QuotedImageSrc(x: string, y: string)
    requires FlushEarlyHints.Plain(x)
    ensures ImageSrc(x + "\"" + y) == ImageSrcOpen + x + "\\\"" + JsEscaping.Escape(y) + "\";"
  {
    FlushEarlyHints.QuoteInUrl(x, y);
    Lift(ImageSrcOpen, x, "\\\"", JsEscaping.Escape(y), "\";");
  }

  /** The script hint writes a double quote after a plain prefix as `&quot;`. */
  lemma QuotedPsaPrefetchScript(x: string, y: string)
    requires FlushEarlyHints.Plain(x)
    ensures PsaPrefetchScript(x + "\"" + y) == PsaPrefetchOpen + x + "&quot;" + HtmlEscaping.Escape(y) + "\"></script>\n"
  {
    FlushEarlyHints.QuoteInUrl(x, y);
    Lift(PsaPrefetchOpen, x, "&quot;", HtmlEscaping.Escape(y), "\"></script>\n");
  }

  /** The stylesheet link writes a double quote after a plain prefix as `&quot;`. */
  lemma QuotedStylesheetLink(x: string, y: string)
    requires FlushEarlyHints.Plain(x)
    ensures StylesheetLink(x + "\"" + y) == StylesheetLinkOpen + x + "&quot;" + HtmlEscaping.Escape(y) + "\"/>\n"
  {
    FlushEarlyHints.QuoteInUrl(x, y);
    Lift(StylesheetLinkOpen, x, "&quot;", HtmlEscaping.Escape(y), "\"/>\n");
  }

  /** The prefetch link writes a double quote after a plain prefix as `&quot;`. */
  lemma QuotedPrefetchLink(x: string, y: string)
    requires FlushEarlyHints.Plain(x)
    ensures PrefetchLink(x + "\"" + y) == PrefetchLinkOpen + x + "&quot;" + HtmlEscaping.Escape(y) + "\"/>\n"
  {
    FlushEarlyHints.QuoteInUrl(x, y);
    Lift(PrefetchLinkOpen, x, "&quot;", HtmlEscaping.Escape(y), "\"/>\n");
  }

  /** An image-tag client writes the quote inside the JavaScript string as `\"`. */
  lemma EscapeParanoiaImageTag(f: ResourceRef, b: ResourceRef, x: string, y: string, rewritten: string -> bool,
                               maxFlushSize: nat, disable: string, deferUrl: string)
    requires QuotedScriptRefs(rewritten, f, b, x, y)
    ensures FlushEarly(TestConfig(ImageTag, rewritten, maxFlushSize, disable, deferUrl), [Resource(f)] + [Resource(b)]).html
         == ImageScriptOpen + ImageSrcOpen + x + "\\\"" + JsEscaping.Escape(y) + "\";" + ImageScriptClose + SummaryScript(1)
  {
    QuotedScriptImageTag(TestConfig(ImageTag, rewritten, maxFlushSize, disable, deferUrl), f, b, x, y);
    QuotedImageSrc(x, y);
    Flatten(ImageScriptOpen, ImageSrcOpen, x, "\\\"", JsEscaping.Escape(y), "\";", ImageScriptClose);
  }

  /** A link/script-tag client writes the quote inside the attribute as `&quot;`. */
  lemma EscapeParanoiaLinkScriptTag(f: ResourceRef, b: ResourceRef, x: string, y: string, rewritten: string -> bool,
                                    maxFlushSize: nat, disable: string, deferUrl: string)
    requires QuotedScriptRefs(rewritten, f, b, x, y)
    ensures FlushEarly(TestConfig(LinkScriptTag, rewritten, maxFlushSize, disable, deferUrl), [Resource(f)] + [Resource(b)]).html
         == PsaPrefetchOpen + x + "&quot;" + HtmlEscaping.Escape(y) + "\"></script>\n" + SummaryScript(1)
  {
    QuotedScriptLinkScriptTag(TestConfig(LinkScriptTag, rewritten, maxFlushSize, disable, deferUrl), f, b, x, y);
    QuotedPsaPrefetchScript(x, y);
  }

  /** A rewritten head stylesheet whose name holds a double quote. */
  predicate QuotedStylesheetRef(rewritten: string -> bool, s: ResourceRef, x: string, y: string)
  {
    && s.url == x + "\"" + y && FlushEarlyHints.Plain(x)
    && s.contentType == Css && s.inHead && s.declaredSize == Some(1000) && rewritten(s.resolvedUrl)
  }

  lemma QuotedStylesheetLinkScriptTag(cfg: Config, s: ResourceRef, x: string, y: string)
    requires cfg.capability == LinkScriptTag && !cfg.deferJs && cfg.publicCacheable == {} && cfg.privateCacheable == {}
    requires QuotedStylesheetRef(cfg.rewritten, s, x, y)
    ensures FlushEarly(cfg, [Resource(s)]).html == StylesheetLink(s.url) + cfg.disableLinkTag + SummaryScript(1)
  {
    var w := Writer("", false, StylesheetLink(s.url), [], 1, true);
    WalkFirst(cfg, Resource(s));
    EmptyLeft(StylesheetLink(s.url));
    FinishIdle(cfg, [Resource(s)], w);
    PassClosed(cfg, [Resource(s)], w);
  }

  lemma QuotedStylesheetRelPrefetch(cfg: Config, s: ResourceRef, x: string, y: string)
    requires cfg.capability == RelPrefetch && !cfg.deferJs && cfg.publicCacheable == {} && cfg.privateCacheable == {}
    requires QuotedStylesheetRef(cfg.rewritten, s, x, y)
    ensures FlushEarly(cfg, [Resource(s)]).html == PrefetchLink(s.url) + SummaryScript(1)
  {
    var w := Writer("", false, PrefetchLink(s.url), [], 1, false);
    WalkFirst(cfg, Resource(s));
    EmptyLeft(PrefetchLink(s.url));
    FinishIdle(cfg, [Resource(s)], w);
    PassClosed(cfg, [Resource(s)], w);
    EmptyRight(PrefetchLink(s.url));
  }

  /** The stylesheet link escapes the quote as `&quot;`. */
  lemma EscapeParanoiaStylesheet(s: ResourceRef, x: string, y: string, rewritten: string -> bool,
                                 maxFlushSize: nat, disable: string, deferUrl: string)
    requires QuotedStylesheetRef(rewritten, s, x, y)
    ensures FlushEarly(TestConfig(LinkScriptTag, rewritten, maxFlushSize, disable, deferUrl), [Resource(s)]).html
         == StylesheetLinkOpen + x + "&quot;" + HtmlEscaping.Escape(y) + "\"/>\n" + disable + SummaryScript(1)
  {
    QuotedStylesheetLinkScriptTag(TestConfig(LinkScriptTag, rewritten, maxFlushSize, disable, deferUrl), s, x, y);
    QuotedStylesheetLink(x, y);
  }

  /** The rel=prefetch link escapes the quote as `&quot;`. */
  lemma EscapeParanoiaRelPrefetch(s: ResourceRef, x: string, y: string, rewritten: string -> bool,
                                  maxFlushSize: nat, disable: string, deferUrl: string)
    requires QuotedStylesheetRef(rewritten, s, x, y)
    ensures FlushEarly(TestConfig(RelPrefetch, rewritten, maxFlushSize, disable, deferUrl), [Resource(s)]).html
         == PrefetchLinkOpen + x + "&quot;" + HtmlEscaping.Escape(y) + "\"/>\n" + SummaryScript(1)
  {
    QuotedStylesheetRelPrefetch(TestConfig(RelPrefetch, rewritten, maxFlushSize, disable, deferUrl), s, x, y);
    QuotedPrefetchLink(x, y);
  }

  // ------------------------------------------------- nothing to flush

  /** The summary script alone, as an otherwise empty writer renders it. */
  lemma EmptyRendering(n: nat)
    ensures "" + "" + "" + SummaryScript(n) == SummaryScript(n)
  {
    EmptyLeft("");
    EmptyLeft(SummaryScript(n));
  }

  /** A page of plain resources only: whatever the client, the output is the summary script with a zero count. */
  lemma NoResourcesToFlush(cap: Capability, a: ResourceRef, b: ResourceRef, rewritten: string -> bool,
                           maxFlushSize: nat, disable: string, deferUrl: string)
    requires !rewritten(a.resolvedUrl) && !rewritten(b.resolvedUrl)
    ensures var r := FlushEarly(TestConfig(cap, rewritten, maxFlushSize, disable, deferUrl), [Resource(a)] + [Resource(b)]);
            r.html == SummaryScript(0) && r.flushedCount == 0
  {
    var cfg := TestConfig(cap, rewritten, maxFlushSize, disable, deferUrl);
    if cap != NotSupported {
      BrowsersPlainHead(cfg, a, b);
      FinishIdle(cfg, [Resource(a)] + [Resource(b)], Start);
      PassClosed(cfg, [Resource(a)] + [Resource(b)], Start);
      EmptyRendering(0);
    }
  }

  // --------------------------------------------- too many log records

  predicate RewrittenStylesheet(rewritten: string -> bool, s: ResourceRef) {
    s.contentType == Css && s.inHead && rewritten(s.resolvedUrl)
  }

  lemma ThreeStylesheetsWalk(cfg: Config, a: ResourceRef, b: ResourceRef, c: ResourceRef)
    requires cfg.capability == LinkScriptTag
    requires RewrittenStylesheet(cfg.rewritten, a) && RewrittenStylesheet(cfg.rewritten, b)
    requires RewrittenStylesheet(cfg.rewritten, c)
    ensures Walk(cfg, [Resource(a)] + [Resource(b)] + [Resource(c)])
         == Writer("", false, StylesheetLink(a.url) + StylesheetLink(b.url) + StylesheetLink(c.url), [], 3, true)
  {
    WalkFirst(cfg, Resource(a));
    EmptyLeft(StylesheetLink(a.url));
    WalkSnoc(cfg, [Resource(a)], Resource(b));
    WalkSnoc(cfg, [Resource(a)] + [Resource(b)], Resource(c));
  }

  lemma ThreeResources(a: ResourceRef, b: ResourceRef, c: ResourceRef)
    ensures Resources([Resource(a)] + [Resource(b)] + [Resource(c)]) == [a, b, c]
  {
    ResourcesSnoc([], Resource(a));
    assert [] + [Resource(a)] == [Resource(a)];
    ResourcesSnoc([Resource(a)], Resource(b));
    ResourcesSnoc([Resource(a)] + [Resource(b)], Resource(c));
  }

  /** A log with room for two keeps the decisions about the first two of three resources, and raises its flag. */
  lemma ThreeStylesheetsLog(cfg: Config, a: ResourceRef, b: ResourceRef, c: ResourceRef)
    requires cfg.capability == LinkScriptTag && cfg.logCapacity == Some(2)
    ensures FlushEarly(cfg, [Resource(a)] + [Resource(b)] + [Resource(c)]).log.entries
         == [EntryFor(cfg, a, 0), EntryFor(cfg, b, 1)]
    ensures FlushEarly(cfg, [Resource(a)] + [Resource(b)] + [Resource(c)]).log.limitExceeded
  {
    var page := [Resource(a)] + [Resource(b)] + [Resource(c)];
    ThreeResources(a, b, c);
    FreshLogKeepsPrefix(cfg.logCapacity, Decisions(cfg, page));
  }

  /**
   * Three rewritten stylesheets with room for two log entries: all three
   * are hinted, the log keeps the first two decisions and raises its flag.
   */
  lemma TooManyRewriterInfoRecords(a: ResourceRef, b: ResourceRef, c: ResourceRef, rewritten: string -> bool,
                                   maxFlushSize: nat, disable: string, deferUrl: string)
    requires RewrittenStylesheet(rewritten, a) && RewrittenStylesheet(rewritten, b) && RewrittenStylesheet(rewritten, c)
    ensures var r := FlushEarly(TestConfig(LinkScriptTag, rewritten, maxFlushSize, disable, deferUrl).(logCapacity := Some(2)),
                                [Resource(a)] + [Resource(b)] + [Resource(c)]);
            && r.html == StylesheetLink(a.url) + StylesheetLink(b.url) + StylesheetLink(c.url) + disable + SummaryScript(3)
            && r.flushedCount == 3
            && r.log.entries == [ResourceEntry(AppliedOk, 0, Css, Pagespeed, false, true),
                                 ResourceEntry(AppliedOk, 1, Css, Pagespeed, false, true)]
            && r.log.limitExceeded
  {
    var cfg := TestConfig(LinkScriptTag, rewritten, maxFlushSize, disable, deferUrl).(logCapacity := Some(2));
    var page := [Resource(a)] + [Resource(b)] + [Resource(c)];
    var buf := StylesheetLink(a.url) + StylesheetLink(b.url) + StylesheetLink(c.url);
    var w := Writer("", false, buf, [], 3, true);
    ThreeStylesheetsWalk(cfg, a, b, c);
    FinishIdle(cfg, page, w);
    PassClosed(cfg, page, w);
    EmptyLeft(buf);
    ThreeStylesheetsLog(cfg, a, b, c);
  }

  // ------------------------------------------------ defer JS flushed early

  lemma DeferOnlyFinish(cfg: Config)
    requires cfg.capability == LinkScriptTag && cfg.deferJs
    ensures Finish(cfg, Walk(cfg, [])) == Writer("", false, PsaPrefetchScript(cfg.deferJsUrl), [], 1, false)
  {
    FinishDeferOnly(cfg, Start);
    EmptyLeft(PsaPrefetchScript(cfg.deferJsUrl));
  }

  lemma DeferOnlyOutput(cfg: Config)
    requires cfg.capability == LinkScriptTag && cfg.deferJs
    ensures FlushEarly(cfg, []).html == PsaPrefetchScript(cfg.deferJsUrl) + SummaryScript(1)
    ensures FlushEarly(cfg, []).flushedCount == 1
  {
    DeferOnlyFinish(cfg);
    PassClosed(cfg, [], Writer("", false, PsaPrefetchScript(cfg.deferJsUrl), [], 1, false));
    EmptyLeft(PsaPrefetchScript(cfg.deferJsUrl));
    EmptyRight(PsaPrefetchScript(cfg.deferJsUrl));
  }

  /**
   * With deferral on and a fetch latency of zero, a link/script-tag client
   * still gets the deferral script on an empty page, and the single log
   * entry records it as applied and bandwidth-affected.
   */
  lemma FlushDeferJsEarly(rewritten: string -> bool, maxFlushSize: nat, disable: string, deferUrl: string)
    ensures var r := FlushEarly(TestConfig(LinkScriptTag, rewritten, maxFlushSize, disable, deferUrl)
                                  .(deferJs := true, averageFetchLatencyMs := 0), []);
            && r.html == PsaPrefetchScript(deferUrl) + SummaryScript(1)
            && r.flushedCount == 1
            && r.log.entries == [Entry(FilterId, AppliedOk, None, Js, DeferJsScript, true, false)]
            && r.availableTimeMs == 0
  {
    var cfg := TestConfig(LinkScriptTag, rewritten, maxFlushSize, disable, deferUrl).(deferJs := true, averageFetchLatencyMs := 0);
    DeferOnlyOutput(cfg);
    LogOfPage(cfg, [], []);
    var none: seq<Entry> := [];
    assert none + [DeferJsEntry(cfg)] == [DeferJsEntry(cfg)];
  }

  // ------------------------------------------- privately cacheable page

  /**
   * The privately-cacheable page, all in the head with no declared sizes:
   * a privately cacheable stylesheet, a plain script, and a rewritten
   * script and stylesheet.
   */
  predicate PrivateRefs(rewritten: string -> bool, privateCacheable: set<string>, a: ResourceRef, b: ResourceRef,
                        c: ResourceRef, d: ResourceRef)
  {
    && a.contentType == Css && a.inHead && a.declaredSize.None? && !rewritten(a.resolvedUrl) && a.resolvedUrl in privateCacheable
    && b.contentType == Js && b.inHead && b.declaredSize.None? && !rewritten(b.resolvedUrl) && b.resolvedUrl !in privateCacheable
    && c.contentType == Js && c.inHead && c.declaredSize.None? && rewritten(c.resolvedUrl)
    && d.contentType == Css && d.inHead && d.declaredSize.None? && rewritten(d.resolvedUrl)
  }

  function PrivatePage(a: ResourceRef, b: ResourceRef, c: ResourceRef, d: ResourceRef): seq<Node> {
    [Resource(a)] + [Resource(b)] + [Resource(c)] + [Resource(d)]
  }

  function PrivateConfig(cap: Capability, rewritten: string -> bool, privateCacheable: set<string>, maxFlushSize: nat,
                         disable: string, deferUrl: string): Config {
    TestConfig(cap, rewritten, maxFlushSize, disable, deferUrl).(privateCacheable := privateCacheable)
  }

  /** The configurations the private page is walked with. */
  predicate PrivateSetting(cfg: Config, a: ResourceRef, b: ResourceRef, c: ResourceRef, d: ResourceRef)
  {
    && cfg.publicCacheable == {} && cfg.disallow == [] && cfg.logCapacity.None?
    && PrivateRefs(cfg.rewritten, cfg.privateCacheable, a, b, c, d)
  }

  lemma PrivateWalkLinkScriptTag(cfg: Config, a: ResourceRef, b: ResourceRef, c: ResourceRef, d: ResourceRef)
    requires cfg.capability == LinkScriptTag && !cfg.deferJs && PrivateSetting(cfg, a, b, c, d)
    ensures Walk(cfg, PrivatePage(a, b, c, d))
         == Writer("", false, StylesheetLink(a.url) + PsaPrefetchScript(c.url) + StylesheetLink(d.url), [], 3, true)
  {
    var d1 := [Resource(a)];
    var d2 := d1 + [Resource(b)];
    var d3 := d2 + [Resource(c)];
    WalkFirst(cfg, Resource(a));
    EmptyLeft(StylesheetLink(a.url));
    WalkSnoc(cfg, d1, Resource(b));
    WalkSnoc(cfg, d2, Resource(c));
    WalkSnoc(cfg, d3, Resource(d));
  }

  lemma PrivateWalkImageTag(cfg: Config, a: ResourceRef, b: ResourceRef, c: ResourceRef, d: ResourceRef)
    requires cfg.capability == ImageTag && !cfg.deferJs && PrivateSetting(cfg, a, b, c, d)
    ensures Walk(cfg, PrivatePage(a, b, c, d))
         == Writer(ImageScriptOpen + ImageSrc(c.url), true, StylesheetLink(a.url) + StylesheetLink(d.url), [], 3, true)
  {
    var d1 := [Resource(a)];
    var d2 := d1 + [Resource(b)];
    var d3 := d2 + [Resource(c)];
    WalkFirst(cfg, Resource(a));
    EmptyLeft(StylesheetLink(a.url));
    WalkSnoc(cfg, d1, Resource(b));
    WalkSnoc(cfg, d2, Resource(c));
    EmptyLeft(ImageScriptOpen);
    WalkSnoc(cfg, d3, Resource(d));
  }

  lemma PrivateWalkImageTagDefer(cfg: Config, a: ResourceRef, b: ResourceRef, c: ResourceRef, d: ResourceRef)
    requires cfg.capability == ImageTag && cfg.deferJs && PrivateSetting(cfg, a, b, c, d)
    ensures Walk(cfg, PrivatePage(a, b, c, d)) == Writer("", false, StylesheetLink(a.url) + StylesheetLink(d.url), [], 2, true)
  {
    var d1 := [Resource(a)];
    var d2 := d1 + [Resource(b)];
    var d3 := d2 + [Resource(c)];
    WalkFirst(cfg, Resource(a));
    EmptyLeft(StylesheetLink(a.url));
    WalkSnoc(cfg, d1, Resource(b));
    WalkSnoc(cfg, d2, Resource(c));
    WalkSnoc(cfg, d3, Resource(d));
  }

  /** A link/script-tag client hints the privately cacheable stylesheet along with the rewritten resources. */
  lemma CacheablePrivateLinkScriptTag(a: ResourceRef, b: ResourceRef, c: ResourceRef, d: ResourceRef,
                                      rewritten: string -> bool, privateCacheable: set<string>, maxFlushSize: nat,
                                      disable: string, deferUrl: string)
    requires PrivateRefs(rewritten, privateCacheable, a, b, c, d)
    ensures var r := FlushEarly(PrivateConfig(LinkScriptTag, rewritten, privateCacheable, maxFlushSize, disable, deferUrl),
                                PrivatePage(a, b, c, d));
            && r.html == StylesheetLink(a.url) + PsaPrefetchScript(c.url) + StylesheetLink(d.url) + disable + SummaryScript(3)
            && r.flushedCount == 3
  {
    var cfg := PrivateConfig(LinkScriptTag, rewritten, privateCacheable, maxFlushSize, disable, deferUrl);
    var buf := StylesheetLink(a.url) + PsaPrefetchScript(c.url) + StylesheetLink(d.url);
    var w := Writer("", false, buf, [], 3, true);
    PrivateWalkLinkScriptTag(cfg, a, b, c, d);
    FinishIdle(cfg, PrivatePage(a, b, c, d), w);
    PassClosed(cfg, PrivatePage(a, b, c, d), w);
    EmptyLeft(buf);
  }

  lemma PrivateResources(a: ResourceRef, b: ResourceRef, c: ResourceRef, d: ResourceRef)
    ensures Resources(PrivatePage(a, b, c, d)) == [a, b, c, d]
  {
    ThreeResources(a, b, c);
    ResourcesSnoc([Resource(a)] + [Resource(b)] + [Resource(c)], Resource(d));
  }

  /** How a link/script-tag client decides the four resources of the private page. */
  lemma PrivateEntries(cfg: Config, a: ResourceRef, b: ResourceRef, c: ResourceRef, d: ResourceRef)
    requires cfg.capability == LinkScriptTag && !cfg.deferJs && PrivateSetting(cfg, a, b, c, d)
    ensures EntryFor(cfg, a, 0) == ResourceEntry(AppliedOk, 0, Css, PrivateCacheable, false, true)
    ensures EntryFor(cfg, b, 1) == ResourceEntry(NotApplied, 1, Js, NonPagespeed, false, true)
    ensures EntryFor(cfg, c, 2) == ResourceEntry(AppliedOk, 2, Js, Pagespeed, false, true)
    ensures EntryFor(cfg, d, 3) == ResourceEntry(AppliedOk, 3, Css, Pagespeed, false, true)
  {
  }

  /**
   * The log of the link/script-tag run over the private page: the privately
   * cacheable stylesheet and the rewritten resources applied, the plain
   * script not, then the deferral script, not applied.
   */
  lemma CacheablePrivateLog(a: ResourceRef, b: ResourceRef, c: ResourceRef, d: ResourceRef,
                            rewritten: string -> bool, privateCacheable: set<string>, maxFlushSize: nat,
                            disable: string, deferUrl: string)
    requires PrivateRefs(rewritten, privateCacheable, a, b, c, d)
    ensures var r := FlushEarly(PrivateConfig(LinkScriptTag, rewritten, privateCacheable, maxFlushSize, disable, deferUrl),
                                PrivatePage(a, b, c, d));
            && r.log.entries == [
                 ResourceEntry(AppliedOk, 0, Css, PrivateCacheable, false, true),
                 ResourceEntry(NotApplied, 1, Js, NonPagespeed, false, true),
                 ResourceEntry(AppliedOk, 2, Js, Pagespeed, false, true),
                 ResourceEntry(AppliedOk, 3, Css, Pagespeed, false, true),
                 DeferJsNotApplied]
            && !r.log.limitExceeded
  {
    var cfg := PrivateConfig(LinkScriptTag, rewritten, privateCacheable, maxFlushSize, disable, deferUrl);
    PrivateResources(a, b, c, d);
    PrivateEntries(cfg, a, b, c, d);
    LogOfFour(cfg, PrivatePage(a, b, c, d), a, b, c, d,
              ResourceEntry(AppliedOk, 0, Css, PrivateCacheable, false, true),
              ResourceEntry(NotApplied, 1, Js, NonPagespeed, false, true),
              ResourceEntry(AppliedOk, 2, Js, Pagespeed, false, true),
              ResourceEntry(AppliedOk, 3, Css, Pagespeed, false, true));
  }

  /** An image-tag client fetches the rewritten script as an image and links both stylesheets. */
  lemma CacheablePrivateImageTag(a: ResourceRef, b: ResourceRef, c: ResourceRef, d: ResourceRef,
                                 rewritten: string -> bool, privateCacheable: set<string>, maxFlushSize: nat,
                                 disable: string, deferUrl: string)
    requires PrivateRefs(rewritten, privateCacheable, a, b, c, d)
    ensures var r := FlushEarly(PrivateConfig(ImageTag, rewritten, privateCacheable, maxFlushSize, disable, deferUrl),
                                PrivatePage(a, b, c, d));
            && r.html == ImageScriptOpen + ImageSrc(c.url) + ImageScriptClose
                         + StylesheetLink(a.url) + StylesheetLink(d.url) + disable + SummaryScript(3)
            && r.flushedCount == 3
  {
    var cfg := PrivateConfig(ImageTag, rewritten, privateCacheable, maxFlushSize, disable, deferUrl);
    var x := ImageScriptOpen + ImageSrc(c.url);
    var w := Writer(x, true, StylesheetLink(a.url) + StylesheetLink(d.url), [], 3, true);
    PrivateWalkImageTag(cfg, a, b, c, d);
    FinishIdle(cfg, PrivatePage(a, b, c, d), w);
    PassOpen(cfg, PrivatePage(a, b, c, d), w);
    Regroup(x + ImageScriptClose, StylesheetLink(a.url), StylesheetLink(d.url));
  }

  /** With deferral on, an image-tag client hints no script on the private page: the undeclared size fails the budget. */
  lemma CacheablePrivateImageTagDefer(a: ResourceRef, b: ResourceRef, c: ResourceRef, d: ResourceRef,
                                      rewritten: string -> bool, privateCacheable: set<string>, maxFlushSize: nat,
                                      disable: string, deferUrl: string)
    requires PrivateRefs(rewritten, privateCacheable, a, b, c, d)
    ensures var r := FlushEarly(PrivateConfig(ImageTag, rewritten, privateCacheable, maxFlushSize, disable, deferUrl)
                                  .(deferJs := true), PrivatePage(a, b, c, d));
            && r.html == StylesheetLink(a.url) + StylesheetLink(d.url) + disable + SummaryScript(2)
            && r.flushedCount == 2
  {
    var cfg := PrivateConfig(ImageTag, rewritten, privateCacheable, maxFlushSize, disable, deferUrl).(deferJs := true);
    var buf := StylesheetLink(a.url) + StylesheetLink(d.url);
    var w := Writer("", false, buf, [], 2, true);
    PrivateWalkImageTagDefer(cfg, a, b, c, d);
    FinishIdle(cfg, PrivatePage(a, b, c, d), w);
    PassClosed(cfg, PrivatePage(a, b, c, d), w);
    EmptyLeft(buf);
  }

  // -------------------------------------------- publicly cacheable page

  /** A pattern `*x*` with no wildcard in `x` disallows exactly the URLs containing `x`. */
  lemma SinglePatternDisallows(x: string, url: string)
    requires Wildcard.IsLiteral(x)
    ensures Disallowed(["*" + x + "*"], url) <==> Wildcard.Contains(url, x)
  {
    Wildcard.ContainsPattern(x, url);
    assert ["*" + x + "*"][0] == "*" + x + "*";
  }

  /**
   * The publicly-cacheable page, all in the head: a publicly cacheable
   * stylesheet and script, and a rewritten script.
   */
  predicate PublicRefs(rewritten: string -> bool, publicCacheable: set<string>, f: ResourceRef, g: ResourceRef,
                       h: ResourceRef)
  {
    && f.contentType == Css && f.inHead && !rewritten(f.resolvedUrl) && f.resolvedUrl in publicCacheable
    && g.contentType == Js && g.inHead && !rewritten(g.resolvedUrl) && g.resolvedUrl in publicCacheable
    && h.contentType == Js && h.inHead && rewritten(h.resolvedUrl)
  }

  function PublicPage(f: ResourceRef, g: ResourceRef, h: ResourceRef): seq<Node> {
    [Resource(f)] + [Resource(g)] + [Resource(h)]
  }

  function PublicConfig(rewritten: string -> bool, publicCacheable: set<string>, disallow: seq<string>, maxFlushSize: nat,
                        disable: string, deferUrl: string): Config {
    TestConfig(ImageTag, rewritten, maxFlushSize, disable, deferUrl).(publicCacheable := publicCacheable, disallow := disallow)
  }

  /** The configurations the public page is walked with: an image-tag client, the public script allowed. */
  predicate PublicSetting(cfg: Config, f: ResourceRef, g: ResourceRef, h: ResourceRef)
  {
    && cfg.capability == ImageTag && !cfg.deferJs && cfg.privateCacheable == {} && cfg.logCapacity.None?
    && PublicRefs(cfg.rewritten, cfg.publicCacheable, f, g, h)
    && !Disallowed(cfg.disallow, g.resolvedUrl)
  }

  lemma PublicWalkDisallowed(cfg: Config, f: ResourceRef, g: ResourceRef, h: ResourceRef)
    requires PublicSetting(cfg, f, g, h) && Disallowed(cfg.disallow, f.resolvedUrl)
    ensures Walk(cfg, PublicPage(f, g, h)) == Writer(ImageScriptOpen + ImageSrc(h.url), true, StylesheetLink(f.url), [], 2, true)
  {
    WalkFirst(cfg, Resource(f));
    EmptyLeft(StylesheetLink(f.url));
    WalkSnoc(cfg, [Resource(f)], Resource(g));
    EmptyLeft(ImageScriptOpen);
    WalkSnoc(cfg, [Resource(f)] + [Resource(g)], Resource(h));
  }

  lemma PublicWalkAllowed(cfg: Config, f: ResourceRef, g: ResourceRef, h: ResourceRef)
    requires PublicSetting(cfg, f, g, h) && !Disallowed(cfg.disallow, f.resolvedUrl)
    ensures Walk(cfg, PublicPage(f, g, h)) == Writer(ImageScriptOpen + ImageSrc(h.url), true, "", [], 1, false)
  {
    WalkFirst(cfg, Resource(f));
    WalkSnoc(cfg, [Resource(f)], Resource(g));
    EmptyLeft(ImageScriptOpen);
    WalkSnoc(cfg, [Resource(f)] + [Resource(g)], Resource(h));
  }

  /** How the public page's resources are decided; the stylesheet is hinted exactly when it is disallowed. */
  lemma PublicEntries(cfg: Config, f: ResourceRef, g: ResourceRef, h: ResourceRef)
    requires PublicSetting(cfg, f, g, h)
    ensures EntryFor(cfg, f, 0)
         == ResourceEntry(if Disallowed(cfg.disallow, f.resolvedUrl) then AppliedOk else NotApplied, 0, Css,
                          PublicCacheable, false, true)
    ensures EntryFor(cfg, g, 1) == ResourceEntry(NotApplied, 1, Js, PublicCacheable, false, true)
    ensures EntryFor(cfg, h, 2) == ResourceEntry(AppliedOk, 2, Js, Pagespeed, false, true)
  {
  }

  /** The log over the public page. */
  lemma PublicLog(cfg: Config, f: ResourceRef, g: ResourceRef, h: ResourceRef)
    requires PublicSetting(cfg, f, g, h)
    ensures FlushEarly(cfg, PublicPage(f, g, h)).log.entries
         == [ResourceEntry(if Disallowed(cfg.disallow, f.resolvedUrl) then AppliedOk else NotApplied, 0, Css,
                           PublicCacheable, false, true),
             ResourceEntry(NotApplied, 1, Js, PublicCacheable, false, true),
             ResourceEntry(AppliedOk, 2, Js, Pagespeed, false, true),
             DeferJsNotApplied]
  {
    ThreeResources(f, g, h);
    PublicEntries(cfg, f, g, h);
    LogOfThree(cfg, PublicPage(f, g, h), f, g, h, EntryFor(cfg, f, 0), EntryFor(cfg, g, 1), EntryFor(cfg, h, 2));
  }

  /**
   * An image-tag client with `*x*` disallowed, where `x` occurs in the
   * stylesheet's URL but not the script's: the disallowed public stylesheet
   * is hinted, the allowed public script is not.
   */
  lemma CacheablePublicDisallowed(f: ResourceRef, g: ResourceRef, h: ResourceRef, x: string,
                                  rewritten: string -> bool, publicCacheable: set<string>, maxFlushSize: nat,
                                  disable: string, deferUrl: string)
    requires PublicRefs(rewritten, publicCacheable, f, g, h)
    requires Wildcard.IsLiteral(x) && Wildcard.Contains(f.resolvedUrl, x) && !Wildcard.Contains(g.resolvedUrl, x)
    ensures var r := FlushEarly(PublicConfig(rewritten, publicCacheable, ["*" + x + "*"], maxFlushSize, disable, deferUrl),
                                PublicPage(f, g, h));
            && r.html == ImageScriptOpen + ImageSrc(h.url) + ImageScriptClose + StylesheetLink(f.url) + disable + SummaryScript(2)
            && r.flushedCount == 2
            && r.log.entries == [
                 ResourceEntry(AppliedOk, 0, Css, PublicCacheable, false, true),
                 ResourceEntry(NotApplied, 1, Js, PublicCacheable, false, true),
                 ResourceEntry(AppliedOk, 2, Js, Pagespeed, false, true),
                 DeferJsNotApplied]
  {
    var cfg := PublicConfig(rewritten, publicCacheable, ["*" + x + "*"], maxFlushSize, disable, deferUrl);
    var w := Writer(ImageScriptOpen + ImageSrc(h.url), true, StylesheetLink(f.url), [], 2, true);
    SinglePatternDisallows(x, f.resolvedUrl);
    SinglePatternDisallows(x, g.resolvedUrl);
    PublicWalkDisallowed(cfg, f, g, h);
    FinishIdle(cfg, PublicPage(f, g, h), w);
    PassOpen(cfg, PublicPage(f, g, h), w);
    PublicLog(cfg, f, g, h);
  }

  /** With nothing disallowed, neither public resource is hinted: only the rewritten script is. */
  lemma CacheablePublicNotDisallowed(f: ResourceRef, g: ResourceRef, h: ResourceRef,
                                     rewritten: string -> bool, publicCacheable: set<string>, maxFlushSize: nat,
                                     disable: string, deferUrl: string)
    requires PublicRefs(rewritten, publicCacheable, f, g, h)
    ensures var r := FlushEarly(PublicConfig(rewritten, publicCacheable, [], maxFlushSize, disable, deferUrl),
                                PublicPage(f, g, h));
            && r.html == ImageScriptOpen + ImageSrc(h.url) + ImageScriptClose + SummaryScript(1)
            && r.flushedCount == 1
            && r.log.entries == [
                 ResourceEntry(NotApplied, 0, Css, PublicCacheable, false, true),
                 ResourceEntry(NotApplied, 1, Js, PublicCacheable, false, true),
                 ResourceEntry(AppliedOk, 2, Js, Pagespeed, false, true),
                 DeferJsNotApplied]
  {
    var cfg := PublicConfig(rewritten, publicCacheable, [], maxFlushSize, disable, deferUrl);
    var x := ImageScriptOpen + ImageSrc(h.url) + ImageScriptClose;
    var w := Writer(ImageScriptOpen + ImageSrc(h.url), true, "", [], 1, false);
    assert !Disallowed(cfg.disallow, f.resolvedUrl) && !Disallowed(cfg.disallow, g.resolvedUrl);
    PublicWalkAllowed(cfg, f, g, h);
    FinishIdle(cfg, PublicPage(f, g, h), w);
    PassOpen(cfg, PublicPage(f, g, h), w);
    EmptyRight(x);
    PublicLog(cfg, f, g, h);
  }

  // ------------------------------------------------- critical CSS blocks

  lemma StylesWalk(cfg: Config, a: ResourceRef, d: ResourceRef, id1: string, css1: string, id2: string, css2: string)
    requires cfg.capability == ImageTag && cfg.flushCriticalCss
    requires RewrittenStylesheet(cfg.rewritten, a) && RewrittenStylesheet(cfg.rewritten, d)
    ensures Walk(cfg, [Resource(a)] + [FlushStyle(id1, css1)] + [Resource(d)] + [FlushStyle(id2, css2)])
         == Writer("", false, StylesheetLink(a.url) + FlushStyleScript(id1, css1) + StylesheetLink(d.url)
                              + FlushStyleScript(id2, css2), [], 4, true)
  {
    var d1 := [Resource(a)];
    var d2 := d1 + [FlushStyle(id1, css1)];
    var d3 := d2 + [Resource(d)];
    WalkFirst(cfg, Resource(a));
    EmptyLeft(StylesheetLink(a.url));
    WalkSnoc(cfg, d1, FlushStyle(id1, css1));
    WalkSnoc(cfg, d2, Resource(d));
    WalkSnoc(cfg, d3, FlushStyle(id2, css2));
  }

  /**
   * With critical-CSS flushing on, each marked style block becomes an inert
   * script in document order among the stylesheet links, and counts as a hint.
   */
  lemma FlushEarlyStyleAsScript(a: ResourceRef, d: ResourceRef, id1: string, css1: string, id2: string, css2: string,
                                rewritten: string -> bool, maxFlushSize: nat, disable: string, deferUrl: string)
    requires RewrittenStylesheet(rewritten, a) && RewrittenStylesheet(rewritten, d)
    ensures var r := FlushEarly(TestConfig(ImageTag, rewritten, maxFlushSize, disable, deferUrl).(flushCriticalCss := true),
                                [Resource(a)] + [FlushStyle(id1, css1)] + [Resource(d)] + [FlushStyle(id2, css2)]);
            && r.html == StylesheetLink(a.url) + FlushStyleScript(id1, css1) + StylesheetLink(d.url)
                         + FlushStyleScript(id2, css2) + disable + SummaryScript(4)
            && r.flushedCount == 4
  {
    var cfg := TestConfig(ImageTag, rewritten, maxFlushSize, disable, deferUrl).(flushCriticalCss := true);
    var page := [Resource(a)] + [FlushStyle(id1, css1)] + [Resource(d)] + [FlushStyle(id2, css2)];
    var buf := StylesheetLink(a.url) + FlushStyleScript(id1, css1) + StylesheetLink(d.url) + FlushStyleScript(id2, css2);
    var w := Writer("", false, buf, [], 4, true);
    StylesWalk(cfg, a, d, id1, css1, id2, css2);
    FinishIdle(cfg, page, w);
    PassClosed(cfg, page, w);
    EmptyLeft(buf);
  }

  /** With critical-CSS flushing off, a page of style blocks only gets the summary script with a zero count. */
  lemma DontFlushEarlyStyleIfFlagDisabled(id1: string, css1: string, id2: string, css2: string,
                                          rewritten: string -> bool, maxFlushSize: nat, disable: string, deferUrl: string)
    ensures var r := FlushEarly(TestConfig(ImageTag, rewritten, maxFlushSize, disable, deferUrl),
                                [FlushStyle(id1, css1)] + [FlushStyle(id2, css2)]);
            r.html == SummaryScript(0) && r.flushedCount == 0
  {
    var cfg := TestConfig(ImageTag, rewritten, maxFlushSize, disable, deferUrl);
    var page := [FlushStyle(id1, css1)] + [FlushStyle(id2, css2)];
    WalkFirst(cfg, FlushStyle(id1, css1));
    WalkSnoc(cfg, [FlushStyle(id1, css1)], FlushStyle(id2, css2));
    FinishIdle(cfg, page, Start);
    PassClosed(cfg, page, Start);
    EmptyRendering(0);
  }
}
