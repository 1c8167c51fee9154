/**
 * What the output of a flush-early pass contains: every resource the pass
 * decides to hint appears in the written text as the hint of the client's
 * form, carrying that resource's own URL, whether it was written as the walk
 * met it or kept back for the end.
 */
module FlushEarlyContents {
  import opened DecisionLog
  import opened FlushEarlyWriter
  import opened FlushEarlyProperties

  /** `t` occurs in `s` starting at position `k`. */
  predicate OccursAt(t: string, s: string, k: int) {
    0 <= k && k + |t| <= |s| && s[k..k + |t|] == t
  }

  /** `t` occurs in `s` as one contiguous piece. */
  predicate Infix(t: string, s: string) {
    exists k :: 0 <= k <= |s| && OccursAt(t, s, k)
  }

  lemma InfixAppend(t: string, s: string, u: string)
    requires Infix(t, s)
    ensures Infix(t, s + u)
  {
    var k :| 0 <= k <= |s| && OccursAt(t, s, k);
    assert (s + u)[k..k + |t|] == s[k..k + |t|];
    assert OccursAt(t, s + u, k);
  }

  lemma InfixPrepend(t: string, u: string, s: string)
    requires Infix(t, s)
    ensures Infix(t, u + s)
  {
    var k :| 0 <= k <= |s| && OccursAt(t, s, k);
    assert (u + s)[|u| + k..|u| + k + |t|] == s[k..k + |t|];
    assert OccursAt(t, u + s, |u| + k);
  }

  lemma InfixEnd(t: string, s: string)
    ensures Infix(t, s + t)
  {
    assert (s + t)[|s|..|s| + |t|] == t;
    assert OccursAt(t, s + t, |s|);
  }

  /**
   * The hint each client form gets for a resource: a rel=prefetch client
   * gets prefetch links (images still go through an image object); an
   * image-tag client gets image objects for everything but stylesheets; a
   * link/script-tag client gets stylesheet links, inert script tags for
   * scripts, and image objects for images.
   */
  function HintFor(cap: Capability, url: string, ct: ContentType): string
    requires cap != NotSupported
  {
    match cap
    case RelPrefetch => if ct == Image then ImageSrc(url) else PrefetchLink(url)
    case ImageTag => if ct == Css then StylesheetLink(url) else ImageSrc(url)
    case LinkScriptTag =>
      match ct
      case Image => ImageSrc(url)
      case Css => StylesheetLink(url)
      case Js => PsaPrefetchScript(url)
  }

  /** The writer already holds `t`, in the text written so far or in its buffer. */
  predicate Written(w: Writer, t: string) {
    Infix(t, w.out) || Infix(t, w.buffered)
  }

  // ------------------------------------------------ nothing is taken back

  lemma WriteImageHintKeeps(w: Writer, url: string, t: string)
    requires Written(w, t)
    ensures Written(WriteImageHint(w, url), t)
  {
    var open := if w.scriptOpen then "" else ImageScriptOpen;
    if Infix(t, w.out) {
      InfixAppend(t, w.out, open);
      InfixAppend(t, w.out + open, ImageSrc(url));
    }
  }

  lemma BufferHintKeeps(w: Writer, html: string, stylesheet: bool, t: string)
    requires Written(w, t)
    ensures Written(BufferHint(w, html, stylesheet), t)
  {
    if Infix(t, w.buffered) {
      InfixAppend(t, w.buffered, html);
    }
  }

  lemma EmitHintKeeps(cap: Capability, w: Writer, url: string, ct: ContentType, t: string)
    requires cap != NotSupported && Written(w, t)
    ensures Written(EmitHint(cap, w, url, ct), t)
  {
    if ct == Image {
      WriteImageHintKeeps(w, url, t);
    } else if cap == RelPrefetch {
      BufferHintKeeps(w, PrefetchLink(url), false, t);
    } else if ct == Css {
      BufferHintKeeps(w, StylesheetLink(url), true, t);
    } else if cap == ImageTag {
      WriteImageHintKeeps(w, url, t);
    } else {
      BufferHintKeeps(w, PsaPrefetchScript(url), false, t);
    }
  }

  /** Emitting a hint writes exactly the form the client's table gives for it. */
  lemma EmitHintWrites(cap: Capability, w: Writer, url: string, ct: ContentType)
    requires cap != NotSupported
    ensures Written(EmitHint(cap, w, url, ct), HintFor(cap, url, ct))
  {
    var open := if w.scriptOpen then "" else ImageScriptOpen;
    if ct == Image || (cap == ImageTag && ct != Css) {
      InfixEnd(ImageSrc(url), w.out + open);
    } else if cap == RelPrefetch {
      InfixEnd(PrefetchLink(url), w.buffered);
    } else if ct == Css {
      InfixEnd(StylesheetLink(url), w.buffered);
    } else {
      InfixEnd(PsaPrefetchScript(url), w.buffered);
    }
  }

  lemma StepKeeps(cfg: Config, w: Writer, n: Node, t: string)
    requires cfg.capability != NotSupported && Written(w, t)
    ensures Written(Step(cfg, w, n), t)
  {
    match n
    case PrefetchHint(markup) =>
      var close := if w.scriptOpen then ImageScriptClose else "";
      if Infix(t, w.out) {
        InfixAppend(t, w.out, close);
        InfixAppend(t, w.out + close, markup);
      }
    case FlushStyle(id, css) =>
      if cfg.flushCriticalCss {
        BufferHintKeeps(w, FlushStyleScript(id, css), false, t);
      }
    case Resource(ref) =>
      if Applied(cfg, ref) && !(ref.contentType != Image && TimeGated(cfg, ref)) {
        EmitHintKeeps(cfg.capability, w, ref.url, ref.contentType, t);
      }
  }

  // ------------------------------------------------------------ the walk

  /** A selected resource the walk hints as it meets it rather than keeping it back. */
  predicate HintedAtOnce(cfg: Config, x: ResourceRef) {
    Applied(cfg, x) && !(x.contentType != Image && TimeGated(cfg, x))
  }

  /** After the walk, the hint of every resource hinted on the way is held by the writer. */
  lemma {:induction false} WalkWrites(cfg: Config, nodes: seq<Node>, x: ResourceRef)
    requires cfg.capability != NotSupported
    requires x in Resources(nodes) && HintedAtOnce(cfg, x)
    ensures Written(Walk(cfg, nodes), HintFor(cfg.capability, x.url, x.contentType))
    decreases |nodes|
  {
    var t := HintFor(cfg.capability, x.url, x.contentType);
    assert |nodes| > 0;
    var p := nodes[..|nodes| - 1];
    var n := nodes[|nodes| - 1];
    assert nodes == p + [n];
    ResourcesAppend(p, n);
    WalkSnoc(cfg, p, n);
    if x in Resources(p) {
      WalkWrites(cfg, p, x);
      StepKeeps(cfg, Walk(cfg, p), n, t);
    } else {
      assert n == Resource(x);
      EmitHintWrites(cfg.capability, Walk(cfg, p), x.url, x.contentType);
    }
  }

  lemma {:induction false} EmitAllKeeps(cap: Capability, w: Writer, refs: seq<ResourceRef>, t: string)
    requires cap != NotSupported && Written(w, t)
    ensures Written(EmitAll(cap, w, refs), t)
    decreases |refs|
  {
    if |refs| > 0 {
      var p := refs[..|refs| - 1];
      var last := refs[|refs| - 1];
      EmitAllKeeps(cap, w, p, t);
      EmitHintKeeps(cap, EmitAll(cap, w, p), last.url, last.contentType, t);
    }
  }

  /** Writing out the kept-back resources writes the hint of each of them. */
  lemma {:induction false} EmitAllWrites(cap: Capability, w: Writer, refs: seq<ResourceRef>, x: ResourceRef)
    requires cap != NotSupported && x in refs
    ensures Written(EmitAll(cap, w, refs), HintFor(cap, x.url, x.contentType))
    decreases |refs|
  {
    var p := refs[..|refs| - 1];
    var last := refs[|refs| - 1];
    assert refs == p + [last];
    if x in p {
      EmitAllWrites(cap, w, p, x);
      EmitHintKeeps(cap, EmitAll(cap, w, p), last.url, last.contentType, HintFor(cap, x.url, x.contentType));
    } else {
      EmitHintWrites(cap, EmitAll(cap, w, p), last.url, last.contentType);
    }
  }

  lemma FinishKeeps(cfg: Config, w: Writer, t: string)
    requires cfg.capability != NotSupported && Written(w, t)
    ensures Written(Finish(cfg, w), t)
  {
    var w0 := w.(pending := []);
    EmitAllKeeps(cfg.capability, w0, w.pending, t);
    if DeferJsFlushed(cfg) {
      EmitHintKeeps(cfg.capability, EmitAll(cfg.capability, w0, w.pending), cfg.deferJsUrl, Js, t);
    }
  }

  lemma FinishWrites(cfg: Config, w: Writer, x: ResourceRef)
    requires cfg.capability != NotSupported && x in w.pending
    ensures Written(Finish(cfg, w), HintFor(cfg.capability, x.url, x.contentType))
  {
    var w0 := w.(pending := []);
    EmitAllWrites(cfg.capability, w0, w.pending, x);
    if DeferJsFlushed(cfg) {
      EmitHintKeeps(cfg.capability, EmitAll(cfg.capability, w0, w.pending), cfg.deferJsUrl, Js,
                    HintFor(cfg.capability, x.url, x.contentType));
    }
  }

  /** Whatever the writer holds appears in the rendered output. */
  lemma RenderShows(cfg: Config, w: Writer, t: string)
    requires Written(w, t)
    ensures Infix(t, Render(cfg, w))
  {
    var close := if w.scriptOpen then ImageScriptClose else "";
    var disable := if w.stylesheets then cfg.disableLinkTag else "";
    if Infix(t, w.out) {
      InfixAppend(t, w.out, close);
      InfixAppend(t, w.out + close, w.buffered);
    } else {
      InfixPrepend(t, w.out + close, w.buffered);
    }
    InfixAppend(t, w.out + close + w.buffered, disable);
    InfixAppend(t, w.out + close + w.buffered + disable, SummaryScript(w.count));
  }

  // --------------------------------------------------------- the outcome

  /**
   * Every resource the pass decides to hint has its hint, in the client's
   * form and with its own URL, somewhere in the output.
   */
  lemma SelectedHintsWritten(cfg: Config, nodes: seq<Node>, x: ResourceRef)
    requires cfg.capability != NotSupported
    requires x in Selected(cfg, Resources(nodes))
    ensures Infix(HintFor(cfg.capability, x.url, x.contentType), FlushEarly(cfg, nodes).html)
  {
    var w := Walk(cfg, nodes);
    var t := HintFor(cfg.capability, x.url, x.contentType);
    WalkInvariant(cfg, nodes);
    if x.contentType != Image && TimeGated(cfg, x) {
      assert x in w.pending;
      FinishWrites(cfg, w, x);
    } else {
      WalkWrites(cfg, nodes, x);
      FinishKeeps(cfg, w, t);
    }
    SupportedOutcome(cfg, nodes);
    RenderShows(cfg, Finish(cfg, w), t);
  }
}
