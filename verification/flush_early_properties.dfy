/**
 * What a flush-early pass promises, over every configuration and document:
 * the decision rules, the shape and bound of the decision log, the hint
 * count and how it matches the log, and how the output ends.
 */
module FlushEarlyProperties {
  import opened Wrappers
  import opened Strings
  import opened DecisionLog
  import opened ResourceClassifier
  import opened FlushEarlyWriter

  // ------------------------------------------------------ decision rules

  /**
   * The disallow list is read in the inverted sense: a publicly cacheable
   * stylesheet in the head is flushed exactly when policy disallows it, as
   * the expectations of the public-cacheable tests require.
   */
  lemma DisallowedPublicResourceIsFlushed(cfg: Config, ref: ResourceRef)
    requires ref.contentType == Css && ref.inHead
    requires ResourceTypeOf(cfg, ref) == PublicCacheable
    ensures Applied(cfg, ref) <==> Disallowed(cfg.disallow, ref.resolvedUrl)
    ensures !BandwidthAffected(cfg, ref)
  {
  }

  /** A resource the page neither rewrote nor marked cacheable is never flushed. */
  lemma NonPagespeedNeverFlushed(cfg: Config, ref: ResourceRef)
    requires !cfg.rewritten(ref.resolvedUrl)
    requires ref.resolvedUrl !in cfg.privateCacheable && ref.resolvedUrl !in cfg.publicCacheable
    ensures ResourceTypeOf(cfg, ref) == NonPagespeed
    ensures !Applied(cfg, ref) && !BandwidthAffected(cfg, ref)
  {
  }

  /**
   * A time-budgeted resource is flushed exactly when it declares a size
   * within the budget; its log entry is marked bandwidth-affected either way.
   */
  lemma SizeThresholdDecides(cfg: Config, ref: ResourceRef)
    requires Eligible(cfg, ref) && !Suppressed(cfg, ref) && TimeGated(cfg, ref)
    ensures Applied(cfg, ref) <==> ref.declaredSize.Some? && ref.declaredSize.value <= cfg.maxFlushSize
    ensures BandwidthAffected(cfg, ref)
  {
  }

  /** A head stylesheet or script (without deferral) that is eligible is flushed whatever its size. */
  lemma HeadResourceIgnoresSize(cfg: Config, ref: ResourceRef)
    requires Eligible(cfg, ref) && ref.inHead && ref.contentType != Image && !cfg.deferJs
    ensures Applied(cfg, ref) && !BandwidthAffected(cfg, ref)
  {
  }

  /** Under JavaScript deferral a link/script-tag client gets no script hint at all. */
  lemma DeferralSuppressesScripts(cfg: Config, ref: ResourceRef)
    requires cfg.deferJs && cfg.capability == LinkScriptTag && ref.contentType == Js
    ensures !Applied(cfg, ref) && !BandwidthAffected(cfg, ref)
  {
  }

  // ----------------------------------------------------- derived views

  /** The resources that are hinted, in document order. */
  function Selected(cfg: Config, rs: seq<ResourceRef>): (r: seq<ResourceRef>)
    ensures |r| <= |rs|
    ensures forall x :: x in r <==> x in rs && Applied(cfg, x)
    decreases |rs|
  {
    if |rs| == 0 then []
    else
      var p := rs[..|rs| - 1];
      assert rs == p + [rs[|rs| - 1]];
      Selected(cfg, p) + (if Applied(cfg, rs[|rs| - 1]) then [rs[|rs| - 1]] else [])
  }

  /** The hints kept back until the end of the pass: selected, not images, and time-budgeted. */
  function Deferred(cfg: Config, rs: seq<ResourceRef>): (r: seq<ResourceRef>)
    ensures forall x :: x in r <==> x in rs && Applied(cfg, x) && x.contentType != Image && TimeGated(cfg, x)
    decreases |rs|
  {
    if |rs| == 0 then []
    else
      var p := rs[..|rs| - 1];
      var x := rs[|rs| - 1];
      assert rs == p + [x];
      Deferred(cfg, p) + (if Applied(cfg, x) && x.contentType != Image && TimeGated(cfg, x) then [x] else [])
  }

  function StyleCount(nodes: seq<Node>): nat
    decreases |nodes|
  {
    if |nodes| == 0 then 0
    else StyleCount(nodes[..|nodes| - 1]) + (if nodes[|nodes| - 1].FlushStyle? then 1 else 0)
  }

  /** The critical-CSS blocks the pass writes out. */
  function FlushedStyles(cfg: Config, nodes: seq<Node>): nat {
    if cfg.capability != NotSupported && cfg.flushCriticalCss then StyleCount(nodes) else 0
  }

  /** A stylesheet link is among the hints, which is when the disable-link snippet must follow. */
  predicate StylesheetHinted(cfg: Config, nodes: seq<Node>) {
    (cfg.capability == LinkScriptTag || cfg.capability == ImageTag)
    && exists x :: x in Resources(nodes) && Applied(cfg, x) && x.contentType == Css
  }

  function CountApplied(es: seq<Entry>): nat
    decreases |es|
  {
    if |es| == 0 then 0
    else CountApplied(es[..|es| - 1]) + (if es[|es| - 1].status == AppliedOk then 1 else 0)
  }

  predicate EndsWith(s: string, t: string) {
    |t| <= |s| && s[|s| - |t|..] == t
  }

  lemma EndsWithAppend(s: string, t: string)
    ensures EndsWith(s + t, t)
  {
    assert (s + t)[|s|..] == t;
  }

  // -------------------------------------------------------- the walk

  lemma ResourcesAppend(nodes: seq<Node>, n: Node)
    ensures Resources(nodes + [n]) == Resources(nodes) + (if n.Resource? then [n.ref] else [])
  {
    assert (nodes + [n])[..|nodes|] == nodes;
  }

  /** A stylesheet that is hinted as the walk meets it, not kept back for the end. */
  predicate StylesheetNow(cfg: Config, rs: seq<ResourceRef>) {
    exists x :: x in rs && Applied(cfg, x) && x.contentType == Css && !TimeGated(cfg, x)
  }

  /**
   * What the walk has done after the resources `rs` and `styles` written
   * style blocks: the kept-back hints are exactly the deferred resources,
   * every selected resource and written block is either counted or kept
   * back, and a stylesheet link has been buffered exactly when a stylesheet
   * outside the time budget was selected.
   */
  predicate WalkState(cfg: Config, w: Writer, rs: seq<ResourceRef>, styles: nat) {
    && w.pending == Deferred(cfg, rs)
    && w.count + |w.pending| == |Selected(cfg, rs)| + styles
    && (w.stylesheets <==> (cfg.capability != RelPrefetch && StylesheetNow(cfg, rs)))
  }

  lemma StepResource(cfg: Config, w: Writer, rs: seq<ResourceRef>, styles: nat, x: ResourceRef)
    requires cfg.capability != NotSupported
    requires WalkState(cfg, w, rs, styles)
    ensures WalkState(cfg, Step(cfg, w, Resource(x)), rs + [x], styles)
  {
    var rs' := rs + [x];
    assert rs'[..|rs'| - 1] == rs;
    assert forall y :: y in rs' <==> y in rs || y == x;
  }

  lemma StepOther(cfg: Config, w: Writer, rs: seq<ResourceRef>, styles: nat, n: Node)
    requires cfg.capability != NotSupported && !n.Resource?
    requires WalkState(cfg, w, rs, styles)
    ensures WalkState(cfg, Step(cfg, w, n), rs, styles + (if n.FlushStyle? && cfg.flushCriticalCss then 1 else 0))
  {
  }

  /** The walk keeps its state description over every prefix of the document. */
  lemma {:induction false} WalkInvariant(cfg: Config, nodes: seq<Node>)
    requires cfg.capability != NotSupported
    ensures WalkState(cfg, Walk(cfg, nodes), Resources(nodes), FlushedStyles(cfg, nodes))
    decreases |nodes|
  {
    if |nodes| == 0 {
      assert Walk(cfg, nodes) == Start;
      assert Resources(nodes) == [];
      assert FlushedStyles(cfg, nodes) == 0;
      assert Selected(cfg, []) == [] && Deferred(cfg, []) == [];
      assert WalkState(cfg, Start, [], 0);
    } else {
      var p := nodes[..|nodes| - 1];
      var n := nodes[|nodes| - 1];
      WalkInvariant(cfg, p);
      assert Resources(nodes) == Resources(p) + (if n.Resource? then [n.ref] else []);
      var w := Walk(cfg, p);
      assert Walk(cfg, nodes) == Step(cfg, w, n);
      var styles := FlushedStyles(cfg, p);
      assert FlushedStyles(cfg, nodes) == styles + (if n.FlushStyle? && cfg.flushCriticalCss then 1 else 0);
      if n.Resource? {
        StepResource(cfg, w, Resources(p), styles, n.ref);
        assert n == Resource(n.ref);
        assert Resources(nodes) == Resources(p) + [n.ref];
        assert FlushedStyles(cfg, nodes) == styles;
      } else {
        StepOther(cfg, w, Resources(p), styles, n);
        assert Resources(nodes) == Resources(p);
      }
    }
  }

  lemma {:induction false} EmitAllStylesheets(cap: Capability, w: Writer, refs: seq<ResourceRef>)
    requires cap != NotSupported
    ensures EmitAll(cap, w, refs).stylesheets
            <==> w.stylesheets || (cap != RelPrefetch && exists x :: x in refs && x.contentType == Css)
    decreases |refs|
  {
    if |refs| > 0 {
      var p := refs[..|refs| - 1];
      EmitAllStylesheets(cap, w, p);
      assert refs == p + [refs[|refs| - 1]];
      assert forall y :: y in refs <==> y in p || y == refs[|refs| - 1];
    }
  }

  /** A selected stylesheet is either hinted as it is met or kept back for the end. */
  lemma SelectedStylesheetSplit(cfg: Config, rs: seq<ResourceRef>)
    ensures (exists x :: x in rs && Applied(cfg, x) && x.contentType == Css)
            <==> StylesheetNow(cfg, rs) || exists x :: x in Deferred(cfg, rs) && x.contentType == Css
  {
    if exists x :: x in rs && Applied(cfg, x) && x.contentType == Css {
      var x :| x in rs && Applied(cfg, x) && x.contentType == Css;
      if TimeGated(cfg, x) {
        assert x in Deferred(cfg, rs);
      }
    }
  }

  /** The writer at the end of a supported pass, with its count and stylesheet flag accounted for. */
  lemma FinishedWriter(cfg: Config, nodes: seq<Node>)
    requires cfg.capability != NotSupported
    ensures var w := Finish(cfg, Walk(cfg, nodes));
            && w.count == |Selected(cfg, Resources(nodes))| + (if DeferJsFlushed(cfg) then 1 else 0)
                          + FlushedStyles(cfg, nodes)
            && (w.stylesheets <==> StylesheetHinted(cfg, nodes))
  {
    var cap := cfg.capability;
    var w := Walk(cfg, nodes);
    var rs := Resources(nodes);
    WalkInvariant(cfg, nodes);
    var done := EmitAll(cap, w.(pending := []), w.pending);
    EmitAllStylesheets(cap, w.(pending := []), w.pending);
    var fin := Finish(cfg, w);
    assert fin == (if DeferJsFlushed(cfg) then EmitHint(cap, done, cfg.deferJsUrl, Js) else done);
    assert fin.stylesheets == done.stylesheets;
    SelectedStylesheetSplit(cfg, rs);
  }

  // ------------------------------------------------------ the outcome

  /** Regroups a five-part text so that its last two parts form the tail. */
  lemma SplitTail(a: string, b: string, c: string, d: string, e: string)
    ensures a + b + c + d + e == (a + b + c) + (d + e)
  {
  }

  /** Regroups a rendering whose buffer is `c + d` so that the tail starts at `d`. */
  lemma SplitBuffered(a: string, b: string, c: string, d: string, e: string, f: string)
    ensures a + b + (c + d) + e + f == (a + b + c) + (d + e + f)
  {
  }

  lemma RenderEnds(cfg: Config, w: Writer)
    ensures EndsWith(Render(cfg, w), (if w.stylesheets then cfg.disableLinkTag else "") + SummaryScript(w.count))
  {
    var close := if w.scriptOpen then ImageScriptClose else "";
    var disable := if w.stylesheets then cfg.disableLinkTag else "";
    SplitTail(w.out, close, w.buffered, disable, SummaryScript(w.count));
    EndsWithAppend(w.out + close + w.buffered, disable + SummaryScript(w.count));
  }

  lemma RenderEndsWithBuffered(cfg: Config, w: Writer, before: string, last: string)
    requires w.buffered == before + last
    ensures EndsWith(Render(cfg, w), last + (if w.stylesheets then cfg.disableLinkTag else "") + SummaryScript(w.count))
  {
    var close := if w.scriptOpen then ImageScriptClose else "";
    var disable := if w.stylesheets then cfg.disableLinkTag else "";
    SplitBuffered(w.out, close, before, last, disable, SummaryScript(w.count));
    EndsWithAppend(w.out + close + before, last + disable + SummaryScript(w.count));
  }

  /** A supported pass writes what its finished writer renders. */
  lemma SupportedOutcome(cfg: Config, nodes: seq<Node>)
    requires cfg.capability != NotSupported
    ensures var w := Finish(cfg, Walk(cfg, nodes));
            FlushEarly(cfg, nodes).html == Render(cfg, w) && FlushEarly(cfg, nodes).flushedCount == w.count
  {
  }

  /**
   * Every hint is counted once: each selected resource, the deferral
   * script when it is hinted, and each critical-CSS block written.
   */
  lemma FlushedCountAccounts(cfg: Config, nodes: seq<Node>)
    ensures var r := FlushEarly(cfg, nodes);
            r.flushedCount == (if cfg.capability == NotSupported then 0
                               else |Selected(cfg, Resources(nodes))| + (if DeferJsFlushed(cfg) then 1 else 0))
                              + FlushedStyles(cfg, nodes)
  {
    if cfg.capability != NotSupported {
      FinishedWriter(cfg, nodes);
    }
  }

  /**
   * The output always ends with the summary script carrying the hint count,
   * preceded by the disable-link snippet exactly when a stylesheet link was hinted.
   */
  lemma OutputEnding(cfg: Config, nodes: seq<Node>)
    ensures var r := FlushEarly(cfg, nodes);
            EndsWith(r.html, (if StylesheetHinted(cfg, nodes) then cfg.disableLinkTag else "")
                             + SummaryScript(r.flushedCount))
  {
    if cfg.capability == NotSupported {
      assert FlushEarly(cfg, nodes).html == "" + SummaryScript(0);
      EndsWithAppend("", SummaryScript(0));
    } else {
      FinishedWriter(cfg, nodes);
      SupportedOutcome(cfg, nodes);
      RenderEnds(cfg, Finish(cfg, Walk(cfg, nodes)));
    }
  }

  /** The hint a client gets for the deferral script. */
  function DeferJsHint(cfg: Config): string {
    if cfg.capability == RelPrefetch then PrefetchLink(cfg.deferJsUrl) else PsaPrefetchScript(cfg.deferJsUrl)
  }

  lemma FinishEndsWithDeferJs(cfg: Config, w: Writer)
    requires DeferJsFlushed(cfg)
    ensures var fin := Finish(cfg, w);
            EndsWith(Render(cfg, fin), DeferJsHint(cfg)
                                       + (if fin.stylesheets then cfg.disableLinkTag else "") + SummaryScript(fin.count))
  {
    var done := EmitAll(cfg.capability, w.(pending := []), w.pending);
    var fin := Finish(cfg, w);
    assert fin == EmitHint(cfg.capability, done, cfg.deferJsUrl, Js);
    assert fin.buffered == done.buffered + DeferJsHint(cfg);
    RenderEndsWithBuffered(cfg, fin, done.buffered, DeferJsHint(cfg));
  }

  lemma DeferJsHintIsLast(cfg: Config, nodes: seq<Node>)
    requires DeferJsFlushed(cfg)
    ensures var r := FlushEarly(cfg, nodes);
            EndsWith(r.html, DeferJsHint(cfg)
                             + (if StylesheetHinted(cfg, nodes) then cfg.disableLinkTag else "")
                             + SummaryScript(r.flushedCount))
  {
    FinishedWriter(cfg, nodes);
    SupportedOutcome(cfg, nodes);
    FinishEndsWithDeferJs(cfg, Walk(cfg, nodes));
  }

  /** The last decision of every pass is the one about the deferral script. */
  lemma DecisionsEndWithDeferJs(cfg: Config, nodes: seq<Node>)
    ensures |Decisions(cfg, nodes)| == DecisionCount(cfg, nodes)
    ensures Decisions(cfg, nodes)[|Decisions(cfg, nodes)| - 1] == DeferJsEntry(cfg)
  {
  }

  /**
   * With deferral on, a link/script-tag or rel=prefetch client always gets
   * the deferral script, whatever the time budget, as the last hint before
   * the closing snippets, and, when the log had room, the last entry records
   * it as applied and bandwidth-affected.
   */
  lemma DeferJsAlwaysFlushed(cfg: Config, nodes: seq<Node>)
    requires cfg.deferJs && (cfg.capability == LinkScriptTag || cfg.capability == RelPrefetch)
    ensures var r := FlushEarly(cfg, nodes);
            && r.flushedCount >= 1
            && EndsWith(r.html, DeferJsHint(cfg)
                                + (if StylesheetHinted(cfg, nodes) then cfg.disableLinkTag else "")
                                + SummaryScript(r.flushedCount))
            && (!r.log.limitExceeded ==>
                  |r.log.entries| > 0
                  && r.log.entries[|r.log.entries| - 1] == Entry(FilterId, AppliedOk, None, Js, DeferJsScript, true, false))
  {
    FlushedCountAccounts(cfg, nodes);
    DeferJsHintIsLast(cfg, nodes);
    DecisionsEndWithDeferJs(cfg, nodes);
    FreshLogKeepsPrefix(cfg.logCapacity, Decisions(cfg, nodes));
  }

  /**
   * A client with no prefetch support gets only the summary script with a
   * zero count, and the log holds one entry: the deferral script, not applied.
   */
  lemma UnsupportedClientGetsSummaryOnly(cfg: Config, nodes: seq<Node>)
    requires cfg.capability == NotSupported
    requires cfg.logCapacity.None? || cfg.logCapacity.value >= 1
    ensures var r := FlushEarly(cfg, nodes);
            && r.html == SummaryScript(0) && r.flushedCount == 0
            && r.log.entries == [Entry(FilterId, NotApplied, None, Js, DeferJsScript, false, false)]
            && !r.log.limitExceeded
  {
    FreshLogKeepsPrefix(cfg.logCapacity, Decisions(cfg, nodes));
  }

  // ------------------------------------------------------------ the log

  /** The number of entries a pass tries to log. */
  function DecisionCount(cfg: Config, nodes: seq<Node>): nat {
    (if cfg.capability == NotSupported then 0 else |Resources(nodes)|) + 1
  }

  /**
   * The log keeps the first entries up to its capacity and raises the
   * limit-exceeded flag exactly when it had to drop one.
   */
  lemma LogBounded(cfg: Config, nodes: seq<Node>)
    ensures var r := FlushEarly(cfg, nodes);
            var n := DecisionCount(cfg, nodes);
            && ((cfg.logCapacity.None? || n <= cfg.logCapacity.value) ==> |r.log.entries| == n && !r.log.limitExceeded)
            && ((cfg.logCapacity.Some? && n > cfg.logCapacity.value)
                  ==> |r.log.entries| == cfg.logCapacity.value && r.log.limitExceeded)
  {
    FreshLogKeepsPrefix(cfg.logCapacity, Decisions(cfg, nodes));
  }

  /**
   * Entry `i` of the log describes the `i`-th resource of the document: its
   * position, type, class, place, whether it was hinted and whether the
   * time budget decided it. The entry after the last resource is the deferral script's.
   */
  lemma LogRecordsResources(cfg: Config, nodes: seq<Node>, i: nat)
    requires cfg.capability != NotSupported
    requires i < |FlushEarly(cfg, nodes).log.entries|
    ensures var e := FlushEarly(cfg, nodes).log.entries[i];
            var rs := Resources(nodes);
            && e.id == FilterId
            && i <= |rs|
            && (i < |rs| ==>
                  && e.resourceIndex == Some(i)
                  && e.contentType == rs[i].contentType
                  && e.inHead == rs[i].inHead
                  && e.resourceType == ResourceTypeOf(cfg, rs[i])
                  && (e.status == AppliedOk <==> Applied(cfg, rs[i]))
                  && (e.bandwidthAffected <==> BandwidthAffected(cfg, rs[i])))
            && (i == |rs| ==> e == DeferJsEntry(cfg))
  {
    FreshLogKeepsPrefix(cfg.logCapacity, Decisions(cfg, nodes));
  }

  lemma {:induction false} CountAppliedAppend(es: seq<Entry>, fs: seq<Entry>)
    ensures CountApplied(es + fs) == CountApplied(es) + CountApplied(fs)
    decreases |fs|
  {
    if |fs| == 0 {
      assert es + fs == es;
    } else {
      var p := fs[..|fs| - 1];
      assert es + fs == (es + p) + [fs[|fs| - 1]];
      assert (es + fs)[..|es + fs| - 1] == es + p;
      assert (es + fs)[|es + fs| - 1] == fs[|fs| - 1];
      CountAppliedAppend(es, p);
    }
  }

  lemma {:induction false} EntriesApplied(cfg: Config, rs: seq<ResourceRef>)
    ensures CountApplied(seq(|rs|, i requires 0 <= i < |rs| => EntryFor(cfg, rs[i], i))) == |Selected(cfg, rs)|
    decreases |rs|
  {
    if |rs| > 0 {
      var p := rs[..|rs| - 1];
      var es := seq(|rs|, i requires 0 <= i < |rs| => EntryFor(cfg, rs[i], i));
      var ep := seq(|p|, i requires 0 <= i < |p| => EntryFor(cfg, p[i], i));
      assert es[..|es| - 1] == ep;
      EntriesApplied(cfg, p);
    }
  }

  /**
   * When nothing was dropped, the log accounts for every hint but the
   * critical-CSS blocks: the count is its applied entries plus the blocks written.
   */
  lemma CountMatchesLog(cfg: Config, nodes: seq<Node>)
    ensures var r := FlushEarly(cfg, nodes);
            !r.log.limitExceeded ==> r.flushedCount == CountApplied(r.log.entries) + FlushedStyles(cfg, nodes)
  {
    var ds := Decisions(cfg, nodes);
    var rs := Resources(nodes);
    FreshLogKeepsPrefix(cfg.logCapacity, ds);
    FlushedCountAccounts(cfg, nodes);
    assert CountApplied([DeferJsEntry(cfg)]) == (if DeferJsFlushed(cfg) then 1 else 0) by {
      assert [DeferJsEntry(cfg)][..0] == [];
    }
    if cfg.capability != NotSupported {
      var es := seq(|rs|, i requires 0 <= i < |rs| => EntryFor(cfg, rs[i], i));
      EntriesApplied(cfg, rs);
      CountAppliedAppend(es, [DeferJsEntry(cfg)]);
    }
  }

  // ------------------------------------------------ policy changes

  lemma {:induction false} SelectedGrows(cfg: Config, cfg2: Config, rs: seq<ResourceRef>)
    requires forall x :: x in rs && Applied(cfg, x) ==> Applied(cfg2, x)
    ensures |Selected(cfg, rs)| <= |Selected(cfg2, rs)|
    decreases |rs|
  {
    if |rs| > 0 {
      var p := rs[..|rs| - 1];
      assert forall x :: x in p ==> x in rs;
      SelectedGrows(cfg, cfg2, p);
    }
  }

  /**
   * Two passes over the same document that differ only in which resources
   * qualify: when every resource the first hints is hinted by the second,
   * the second logs each of the first's applied entries as applied too, and
   * hints at least as many resources.
   */
  lemma LogApprovalsGrow(cfg: Config, cfg2: Config, nodes: seq<Node>, i: nat)
    requires cfg2.capability == cfg.capability && cfg2.logCapacity == cfg.logCapacity
    requires cfg2.deferJs == cfg.deferJs && cfg2.flushCriticalCss == cfg.flushCriticalCss
    requires forall x :: x in Resources(nodes) && Applied(cfg, x) ==> Applied(cfg2, x)
    requires i < |FlushEarly(cfg, nodes).log.entries|
    ensures var r, r2 := FlushEarly(cfg, nodes), FlushEarly(cfg2, nodes);
            && i < |r2.log.entries|
            && (r.log.entries[i].status == AppliedOk ==> r2.log.entries[i].status == AppliedOk)
            && r.flushedCount <= r2.flushedCount
  {
    LogBounded(cfg, nodes);
    LogBounded(cfg2, nodes);
    FlushedCountAccounts(cfg, nodes);
    FlushedCountAccounts(cfg2, nodes);
    if cfg.capability != NotSupported {
      SelectedGrows(cfg, cfg2, Resources(nodes));
      LogRecordsResources(cfg, nodes, i);
      LogRecordsResources(cfg2, nodes, i);
    } else {
      assert Decisions(cfg, nodes) == Decisions(cfg2, nodes);
    }
  }

  /**
   * A larger time budget never takes a hint away: every entry applied under
   * the smaller budget is applied under the larger one, and the number of
   * hints does not drop.
   */
  lemma LargerBudgetKeepsHints(cfg: Config, nodes: seq<Node>, budget: nat, i: nat)
    requires budget >= cfg.maxFlushSize
    requires i < |FlushEarly(cfg, nodes).log.entries|
    ensures var r, r2 := FlushEarly(cfg, nodes), FlushEarly(cfg.(maxFlushSize := budget), nodes);
            && i < |r2.log.entries|
            && (r.log.entries[i].status == AppliedOk ==> r2.log.entries[i].status == AppliedOk)
            && r.flushedCount <= r2.flushedCount
  {
    var cfg2 := cfg.(maxFlushSize := budget);
    forall x | x in Resources(nodes) && Applied(cfg, x)
      ensures Applied(cfg2, x)
    {
      assert ResourceTypeOf(cfg2, x) == ResourceTypeOf(cfg, x);
    }
    LogApprovalsGrow(cfg, cfg2, nodes, i);
  }

  /**
   * More Disallow patterns never take a hint away: a rewritten or privately
   * cacheable resource does not depend on them, and a publicly cacheable one
   * that a pattern matched is still matched.
   */
  lemma MoreDisallowKeepsHints(cfg: Config, nodes: seq<Node>, extra: seq<string>, i: nat)
    requires i < |FlushEarly(cfg, nodes).log.entries|
    ensures var r, r2 := FlushEarly(cfg, nodes), FlushEarly(cfg.(disallow := cfg.disallow + extra), nodes);
            && i < |r2.log.entries|
            && (r.log.entries[i].status == AppliedOk ==> r2.log.entries[i].status == AppliedOk)
            && r.flushedCount <= r2.flushedCount
  {
    var cfg2 := cfg.(disallow := cfg.disallow + extra);
    forall x | x in Resources(nodes) && Applied(cfg, x)
      ensures Applied(cfg2, x)
    {
      assert ResourceTypeOf(cfg2, x) == ResourceTypeOf(cfg, x);
      if Disallowed(cfg.disallow, x.resolvedUrl) {
        var j :| 0 <= j < |cfg.disallow| && Wildcard.Matches(cfg.disallow[j], x.resolvedUrl);
        assert cfg2.disallow[j] == cfg.disallow[j];
      }
    }
    LogApprovalsGrow(cfg, cfg2, nodes, i);
  }

  // --------------------------------------------------- critical CSS

  function WithoutStyles(nodes: seq<Node>): (r: seq<Node>)
    ensures forall n :: n in r ==> !n.FlushStyle?
    decreases |nodes|
  {
    if |nodes| == 0 then []
    else
      var p := WithoutStyles(nodes[..|nodes| - 1]);
      var n := nodes[|nodes| - 1];
      if n.FlushStyle? then p else p + [n]
  }

  lemma WalkSnoc(cfg: Config, xs: seq<Node>, n: Node)
    requires cfg.capability != NotSupported
    ensures Walk(cfg, xs + [n]) == Step(cfg, Walk(cfg, xs), n)
  {
    assert (xs + [n])[..|xs|] == xs;
  }

  lemma {:induction false} ResourcesIgnoreStyles(nodes: seq<Node>)
    ensures Resources(WithoutStyles(nodes)) == Resources(nodes)
    decreases |nodes|
  {
    if |nodes| > 0 {
      var p := nodes[..|nodes| - 1];
      var n := nodes[|nodes| - 1];
      assert nodes == p + [n];
      ResourcesIgnoreStyles(p);
      ResourcesAppend(p, n);
      if !n.FlushStyle? {
        ResourcesAppend(WithoutStyles(p), n);
      }
    }
  }

  lemma {:induction false} WalkIgnoresStyles(cfg: Config, nodes: seq<Node>)
    requires cfg.capability != NotSupported && !cfg.flushCriticalCss
    ensures Walk(cfg, WithoutStyles(nodes)) == Walk(cfg, nodes)
    ensures Resources(WithoutStyles(nodes)) == Resources(nodes)
    decreases |nodes|
  {
    ResourcesIgnoreStyles(nodes);
    if |nodes| > 0 {
      var p := nodes[..|nodes| - 1];
      var n := nodes[|nodes| - 1];
      assert nodes == p + [n];
      WalkIgnoresStyles(cfg, p);
      WalkSnoc(cfg, p, n);
      if !n.FlushStyle? {
        WalkSnoc(cfg, WithoutStyles(p), n);
      }
    }
  }

  /** With critical-CSS flushing off, style blocks change nothing: the pass is the one without them. */
  lemma StylesIgnoredWhenDisabled(cfg: Config, nodes: seq<Node>)
    requires !cfg.flushCriticalCss
    ensures FlushEarly(cfg, WithoutStyles(nodes)) == FlushEarly(cfg, nodes)
  {
    if cfg.capability != NotSupported {
      WalkIgnoresStyles(cfg, nodes);
    } else {
      var s := WithoutStyles(nodes);
      assert Decisions(cfg, s) == Decisions(cfg, nodes);
    }
  }
}
