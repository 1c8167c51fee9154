/**
 * The per-request record of flush-early decisions: one entry per decision,
 * kept in order, up to a maximum count. Once the maximum is reached further
 * entries are dropped and a limit-exceeded flag is raised for the rest of the pass.
 */
module DecisionLog {
  import opened Wrappers

  datatype Status = AppliedOk | NotApplied

  datatype ContentType = Css | Js | Image

  datatype ResourceType = NonPagespeed | Pagespeed | PublicCacheable | PrivateCacheable | DeferJsScript

  /**
   * `resourceIndex` is the position of the resource among the resources the
   * pass discovered; entries that are not about a discovered resource carry None.
   */
  datatype Entry = Entry(
    id: string,
    status: Status,
    resourceIndex: Option<nat>,
    contentType: ContentType,
    resourceType: ResourceType,
    bandwidthAffected: bool,
    inHead: bool)

  /** `capacity` None means no maximum. */
  datatype Log = Log(entries: seq<Entry>, capacity: Option<nat>, limitExceeded: bool)

  predicate Valid(log: Log) {
    log.capacity.Some? ==> |log.entries| <= log.capacity.value
  }

  predicate HasRoom(log: Log) {
    log.capacity.None? || |log.entries| < log.capacity.value
  }

  function Empty(capacity: Option<nat>): (r: Log)
    ensures Valid(r) && r.entries == [] && !r.limitExceeded
  {
    Log([], capacity, false)
  }

  /** Adds `e` if there is room; otherwise drops it and raises the flag. */
  function Append(log: Log, e: Entry): (r: Log)
    requires Valid(log)
    ensures Valid(r) && r.capacity == log.capacity
    ensures HasRoom(log) ==> r.entries == log.entries + [e] && r.limitExceeded == log.limitExceeded
    ensures !HasRoom(log) ==> r.entries == log.entries && r.limitExceeded
  {
    if HasRoom(log) then log.(entries := log.entries + [e]) else log.(limitExceeded := true)
  }

  function AppendAll(log: Log, es: seq<Entry>): (r: Log)
    requires Valid(log)
    ensures Valid(r)
    decreases |es|
  {
    if |es| == 0 then log else AppendAll(Append(log, es[0]), es[1..])
  }

  /** How many of `n` further entries a log holding `held` entries keeps. */
  function Kept(capacity: Option<nat>, held: nat, n: nat): nat {
    if capacity.None? || held + n <= capacity.value then n
    else if held <= capacity.value then capacity.value - held
    else 0
  }

  /**
   * Appending a batch keeps the longest prefix that fits, in order, and
   * raises the flag exactly when something was dropped (or it was already up).
   */
  lemma {:induction false} AppendAllKeepsPrefix(log: Log, es: seq<Entry>)
    requires Valid(log)
    ensures var r := AppendAll(log, es);
            var k := Kept(log.capacity, |log.entries|, |es|);
            && r.capacity == log.capacity
            && r.entries == log.entries + es[..k]
            && (r.limitExceeded <==> log.limitExceeded || k < |es|)
    decreases |es|
  {
    if |es| == 0 {
      assert log.entries + es[..0] == log.entries;
    } else {
      var next := Append(log, es[0]);
      AppendAllKeepsPrefix(next, es[1..]);
      var k := Kept(log.capacity, |log.entries|, |es|);
      if HasRoom(log) {
        assert Kept(next.capacity, |next.entries|, |es[1..]|) == k - 1;
        assert es[..k] == [es[0]] + es[1..][..k - 1];
      } else {
        assert k == 0;
        assert Kept(next.capacity, |next.entries|, |es[1..]|) == 0;
      }
    }
  }

  /**
   * The record a fresh pass leaves: the first `capacity` entries in order,
   * never more, and the flag raised exactly when an entry was dropped.
   */
  lemma FreshLogKeepsPrefix(capacity: Option<nat>, es: seq<Entry>)
    ensures var r := AppendAll(Empty(capacity), es);
            && (capacity.None? || |es| <= capacity.value ==> r.entries == es && !r.limitExceeded)
            && (capacity.Some? && |es| > capacity.value ==> r.entries == es[..capacity.value] && r.limitExceeded)
  {
    AppendAllKeepsPrefix(Empty(capacity), es);
  }
}
