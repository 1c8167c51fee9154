/**
 * Shell-style wildcard patterns, the form of the rewrite options' Allow and
 * Disallow lists: `*` matches any run of characters, `?` any one character,
 * and every other character itself.
 */
module Wildcard {

  predicate IsWildcard(c: char) {
    c == '*' || c == '?'
  }

  predicate IsLiteral(p: string) {
    forall i :: 0 <= i < |p| ==> !IsWildcard(p[i])
  }

  predicate Matches(p: string, s: string)
    decreases |p| + |s|
  {
    if |p| == 0 then |s| == 0
    else if p[0] == '*' then Matches(p[1..], s) || (|s| > 0 && Matches(p, s[1..]))
    else |s| > 0 && (p[0] == '?' || p[0] == s[0]) && Matches(p[1..], s[1..])
  }

  predicate ContainsAt(s: string, x: string, i: nat) {
    i + |x| <= |s| && s[i..i + |x|] == x
  }

  predicate Contains(s: string, x: string) {
    exists i: nat | i <= |s| :: ContainsAt(s, x, i)
  }

  /** A lone star matches everything. */
  lemma {:induction false} StarMatchesAll(s: string)
    ensures Matches("*", s)
    decreases |s|
  {
    if |s| > 0 {
      StarMatchesAll(s[1..]);
    }
  }

  /** A pattern without wildcards matches exactly the text it spells. */
  lemma {:induction false} LiteralMatchesItself(p: string, s: string)
    requires IsLiteral(p)
    ensures Matches(p, s) <==> p == s
    decreases |p|
  {
    if |p| > 0 {
      LiteralMatchesItself(p[1..], if |s| > 0 then s[1..] else s);
      if |s| > 0 && p[0] == s[0] && p[1..] == s[1..] {
        assert p == [p[0]] + p[1..] && s == [s[0]] + s[1..];
      }
    }
  }

  /** A leading star lets the rest of the pattern match any suffix. */
  lemma {:induction false} LeadingStar(q: string, s: string)
    ensures Matches("*" + q, s) <==> exists i: nat :: i <= |s| && Matches(q, s[i..])
    decreases |s|
  {
    var p := "*" + q;
    assert p[1..] == q;
    assert s[0..] == s;
    if |s| > 0 {
      LeadingStar(q, s[1..]);
      if exists i: nat :: i <= |s| && Matches(q, s[i..]) {
        var i: nat :| i <= |s| && Matches(q, s[i..]);
        if i > 0 {
          assert s[1..][i - 1..] == s[i..];
        }
      }
      forall i: nat | i <= |s[1..]| && Matches(q, s[1..][i..])
        ensures Matches(q, s[i + 1..])
      {
        assert s[1..][i..] == s[i + 1..];
      }
    }
  }

  /** A literal followed by a star matches exactly the texts that start with the literal. */
  lemma {:induction false} TrailingStar(x: string, t: string)
    requires IsLiteral(x)
    ensures Matches(x + "*", t) <==> |x| <= |t| && t[..|x|] == x
    decreases |x|
  {
    if |x| == 0 {
      assert x + "*" == "*";
      StarMatchesAll(t);
    } else {
      assert (x + "*")[1..] == x[1..] + "*";
      var rest := if |t| > 0 then t[1..] else t;
      TrailingStar(x[1..], rest);
      if |t| > 0 && |x| <= |t| {
        assert t[..|x|] == [t[0]] + rest[..|x| - 1];
        assert x == [x[0]] + x[1..];
      }
    }
  }

  /** `*x*` for a literal `x`, the usual disallow form, matches exactly the texts containing `x`. */
  lemma ContainsPattern(x: string, s: string)
    requires IsLiteral(x)
    ensures Matches("*" + x + "*", s) <==> Contains(s, x)
  {
    assert "*" + x + "*" == "*" + (x + "*");
    LeadingStar(x + "*", s);
    if Matches("*" + x + "*", s) {
      var i: nat :| i <= |s| && Matches(x + "*", s[i..]);
      TrailingStar(x, s[i..]);
      assert s[i..][..|x|] == s[i..i + |x|];
      assert ContainsAt(s, x, i);
    }
    if Contains(s, x) {
      var i: nat :| i <= |s| && ContainsAt(s, x, i);
      TrailingStar(x, s[i..]);
      assert s[i..][..|x|] == s[i..i + |x|];
    }
  }
}
