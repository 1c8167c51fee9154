/**
 * Classification of a resource URL for early flushing: already rewritten by
 * this system (its name encodes a content hash), known to be privately or
 * publicly cacheable, or none of these. Also the policy check against the
 * Disallow patterns.
 */
module ResourceClassifier {
  import opened Wrappers
  import opened Strings
  import opened DecisionLog
  import Wildcard

  /** The parts of a rewritten resource name, `<base>.pagespeed.<filter>.<hash>.<ext>`. */
  datatype PagespeedName = PagespeedName(base: string, filter: string, hash: string, ext: string)

  /** Filter code, hash and extension are single non-empty dot-free components; nothing has a slash. */
  predicate ValidName(n: PagespeedName) {
    && |n.base| > 0 && '/' !in n.base
    && |n.filter| > 0 && '.' !in n.filter && '/' !in n.filter
    && |n.hash| > 0 && '.' !in n.hash && '/' !in n.hash
    && |n.ext| > 0 && '.' !in n.ext && '/' !in n.ext
  }

  const Marker: string := ".pagespeed"

  function EncodeName(n: PagespeedName): string {
    n.base + Marker + "." + n.filter + "." + n.hash + "." + n.ext
  }

  /** Splits around the last `c`: the text before it and the text after it. */
  function SplitLast(s: string, c: char): (r: Option<(string, string)>)
    ensures r.None? <==> c !in s
    ensures r.Some? ==> c !in r.value.1
  {
    match LastIndexOf(s, c)
    case None => None
    case Some(i) => Some((s[..i], s[i + 1..]))
  }

  /** The two parts rejoined around the separator give back the text. */
  lemma SplitLastJoins(s: string, c: char)
    requires c in s
    ensures s == SplitLast(s, c).value.0 + [c] + SplitLast(s, c).value.1
  {
    var i := LastIndexOf(s, c).value;
    assert s == s[..i] + [c] + s[i + 1..];
  }

  lemma SplitLastAppend(x: string, c: char, y: string)
    requires c !in y
    ensures SplitLast(x + [c] + y, c) == Some((x, y))
  {
    LastIndexOfAppend(x, c, y);
    var s := x + [c] + y;
    assert s[..|x|] == x && s[|x| + 1..] == y;
  }

  /** The part of a URL after its last slash: the resource's file name. */
  function LastSegment(url: string): (r: string)
    ensures '/' !in r
  {
    match SplitLast(url, '/')
    case None => url
    case Some((_, after)) => after
  }

  lemma LastSegmentAppend(dir: string, name: string)
    requires '/' !in name
    ensures LastSegment(dir + "/" + name) == name
  {
    SplitLastAppend(dir, '/', name);
    assert dir + "/" + name == dir + ['/'] + name;
  }

  /**
   * Reads a rewritten resource name from the right, one dot-separated
   * component at a time: `parts` holds what has been read so far, and once
   * extension, hash and filter code are in, what is left must be a
   * non-empty base followed by `.pagespeed`.
   */
  function ReadName(rest: string, parts: seq<string>): (r: Option<PagespeedName>)
    requires |parts| <= 3
    decreases 3 - |parts|
  {
    if |parts| == 3 then
      if |rest| > |Marker| && rest[|rest| - |Marker|..] == Marker && |parts[0]| > 0 && |parts[1]| > 0 && |parts[2]| > 0
      then Some(PagespeedName(rest[..|rest| - |Marker|], parts[0], parts[1], parts[2]))
      else None
    else
      match SplitLast(rest, '.')
      case None => None
      case Some((before, last)) => ReadName(before, [last] + parts)
  }

  /** The parts of a file name, when it has the rewritten-resource shape. */
  function DecodeName(seg: string): (r: Option<PagespeedName>)
  {
    if '/' in seg then None else ReadName(seg, [])
  }

  /** Reading one more component off the right. */
  lemma ReadNameStep(rest: string, last: string, parts: seq<string>)
    requires |parts| < 3 && '.' !in last
    ensures ReadName(rest + "." + last, parts) == ReadName(rest, [last] + parts)
  {
    assert rest + "." + last == rest + ['.'] + last;
    SplitLastAppend(rest, '.', last);
  }

  /** An encoded valid name has no slash in it. */
  lemma EncodedHasNoSlash(n: PagespeedName)
    requires ValidName(n)
    ensures '/' !in EncodeName(n)
  {
    var rest1 := n.base + Marker;
    var rest2 := rest1 + "." + n.filter;
    var rest3 := rest2 + "." + n.hash;
    var seg := rest3 + "." + n.ext;
    assert seg == EncodeName(n);
    assert forall i :: 0 <= i < |seg| ==> seg[i] != '/' by {
      forall i | 0 <= i < |seg|
        ensures seg[i] != '/'
      {
        if i < |n.base| {
          assert seg[i] == n.base[i];
        } else if i < |rest1| {
          assert seg[i] == Marker[i - |n.base|];
        } else if i < |rest1| + 1 + |n.filter| {
          assert i == |rest1| || seg[i] == n.filter[i - |rest1| - 1];
        } else if i < |rest2| + 1 + |n.hash| {
          assert i == |rest2| || seg[i] == n.hash[i - |rest2| - 1];
        } else {
          assert i == |rest3| || seg[i] == n.ext[i - |rest3| - 1];
        }
      }
    }
  }

  /** Reading an encoded name gives back its parts. */
  lemma DecodeEncode(n: PagespeedName)
    requires ValidName(n)
    ensures DecodeName(EncodeName(n)) == Some(n)
  {
    var rest1 := n.base + Marker;
    var rest2 := rest1 + "." + n.filter;
    var rest3 := rest2 + "." + n.hash;
    EncodedHasNoSlash(n);
    ReadNameStep(rest3, n.ext, []);
    ReadNameStep(rest2, n.hash, [n.ext]);
    ReadNameStep(rest1, n.filter, [n.hash, n.ext]);
    assert [n.ext] + [] == [n.ext];
    assert [n.hash] + [n.ext] == [n.hash, n.ext];
    assert [n.filter] + [n.hash, n.ext] == [n.filter, n.hash, n.ext];
    assert rest1[|rest1| - |Marker|..] == Marker;
    assert rest1[..|rest1| - |Marker|] == n.base;
  }

  lemma NotInConcat(x: string, y: string, c: char)
    ensures c in x + y <==> c in x || c in y
  {
    if c in x {
      var i :| 0 <= i < |x| && x[i] == c;
      assert (x + y)[i] == c;
    }
    if c in y {
      var i :| 0 <= i < |y| && y[i] == c;
      assert (x + y)[|x| + i] == c;
    }
  }

  /** Every name the decoder accepts is valid and is the encoding of what it decoded. */
  lemma EncodeDecode(seg: string)
    requires DecodeName(seg).Some?
    ensures ValidName(DecodeName(seg).value) && EncodeName(DecodeName(seg).value) == seg
  {
    var n := DecodeName(seg).value;
    assert ReadName(seg, []).Some?;
    var (rest3, ext) := SplitLast(seg, '.').value;
    assert [ext] + [] == [ext];
    assert ReadName(rest3, [ext]).Some?;
    var (rest2, hash) := SplitLast(rest3, '.').value;
    assert [hash] + [ext] == [hash, ext];
    assert ReadName(rest2, [hash, ext]).Some?;
    var (rest1, filter) := SplitLast(rest2, '.').value;
    assert [filter] + [hash, ext] == [filter, hash, ext];
    assert ReadName(rest1, [filter, hash, ext]) == Some(n);
    SplitLastJoins(seg, '.');
    SplitLastJoins(rest3, '.');
    SplitLastJoins(rest2, '.');
    assert rest1 == n.base + Marker;
    NotInConcat(rest3 + ['.'], ext, '/');
    NotInConcat(rest3, ['.'], '/');
    NotInConcat(rest2 + ['.'], hash, '/');
    NotInConcat(rest2, ['.'], '/');
    NotInConcat(rest1 + ['.'], filter, '/');
    NotInConcat(rest1, ['.'], '/');
    NotInConcat(n.base, Marker, '/');
  }

  /** A URL whose file name has the rewritten-resource shape. */
  predicate IsPagespeedUrl(url: string) {
    DecodeName(LastSegment(url)).Some?
  }

  /** Any URL that ends in a well-formed rewritten name is recognised, whatever directory it is in. */
  lemma PagespeedUrlInDirectory(dir: string, n: PagespeedName)
    requires ValidName(n)
    ensures IsPagespeedUrl(dir + "/" + EncodeName(n))
  {
    DecodeEncode(n);
    assert '/' !in EncodeName(n) by {
      if '/' in EncodeName(n) {
        EncodeDecode(EncodeName(n));
      }
    }
    LastSegmentAppend(dir, EncodeName(n));
  }

  /**
   * The resource type of a URL. `rewritten` is the server's test for a URL
   * it produced itself (`IsPagespeedUrl` for the default naming scheme). An
   * already-rewritten URL is classed as such even when it is also listed as
   * cacheable; the private list is consulted before the public one.
   */
  function Classify(url: string, rewritten: string -> bool, publicCacheable: set<string>,
                    privateCacheable: set<string>): (r: ResourceType)
    ensures r != DeferJsScript
    ensures r == Pagespeed <==> rewritten(url)
    ensures r == PrivateCacheable <==> !rewritten(url) && url in privateCacheable
    ensures r == PublicCacheable <==> !rewritten(url) && url !in privateCacheable && url in publicCacheable
    ensures r == NonPagespeed <==> !rewritten(url) && url !in privateCacheable && url !in publicCacheable
  {
    if rewritten(url) then Pagespeed
    else if url in privateCacheable then PrivateCacheable
    else if url in publicCacheable then PublicCacheable
    else NonPagespeed
  }

  /**
   * Under the default naming scheme, a URL whose file name encodes a valid
   * rewritten name is classed as rewritten, whatever lists it is on.
   */
  lemma EncodedNameIsRewritten(dir: string, n: PagespeedName, publicCacheable: set<string>, privateCacheable: set<string>)
    requires ValidName(n)
    ensures Classify(dir + "/" + EncodeName(n), IsPagespeedUrl, publicCacheable, privateCacheable) == Pagespeed
  {
    PagespeedUrlInDirectory(dir, n);
  }

  /** A URL some Disallow pattern matches. */
  predicate Disallowed(patterns: seq<string>, url: string) {
    exists i :: 0 <= i < |patterns| && Wildcard.Matches(patterns[i], url)
  }
}
