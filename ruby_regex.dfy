/** The one regular-expression shape the middleware uses: a literal text
    anchored with Ruby's `^`. In Ruby `^` anchors at the start of any LINE,
    that is at the start of the string or right after a "\n", so `s =~ /^p/`
    holds when some line of `s` begins with `p`. The text `p` is taken
    literally here (no metacharacters). */
module RubyRegex {

  /** Position `i` of `s` is the start of a line: the start of the string,
      or a position after a "\n" that is not the end of the string (there
      `^` does not match in Ruby). */
  predicate LineStart(s: string, i: nat)
    requires i <= |s|
  {
    i == 0 || (i < |s| && s[i - 1] == '\n')
  }

  /** `/^p/` matches `s` at position `i`. */
  predicate MatchAt(s: string, p: string, i: nat)
  {
    i + |p| <= |s| && LineStart(s, i) && s[i..i + |p|] == p
  }

  /** The search the regex engine makes from position `i` onwards. */
  function Search(s: string, p: string, i: nat): (found: bool)
    requires i <= |s|
    decreases |s| - i
    ensures found <==> exists j :: i <= j <= |s| && MatchAt(s, p, j)
  {
    if MatchAt(s, p, i) then true
    else if i == |s| then false
    else Search(s, p, i + 1)
  }

  /** `s =~ /^p/` is truthy. */
  function LineAnchored(s: string, p: string): (found: bool)
    ensures found <==> exists j :: 0 <= j <= |s| && MatchAt(s, p, j)
  {
    Search(s, p, 0)
  }

  /** Every string that begins with `p` matches. */
  lemma PrefixMatches(s: string, p: string)
    requires p <= s
    ensures LineAnchored(s, p)
  {
    assert MatchAt(s, p, 0);
  }

  /** For a string of one line the anchored match is exactly a prefix test. */
  lemma SingleLine(s: string, p: string)
    requires '\n' !in s
    ensures LineAnchored(s, p) <==> p <= s
  {
    if LineAnchored(s, p) {
      var j :| 0 <= j <= |s| && MatchAt(s, p, j);
      assert s[..|p|] == p;
    } else if p <= s {
      PrefixMatches(s, p);
    }
  }

  /** A later line of the string that begins with `p` is enough. */
  lemma LaterLineMatches(head: string, p: string, tail: string)
    ensures LineAnchored(head + "\n" + p + tail, p)
  {
    var s := head + "\n" + p + tail;
    if p == [] {
      assert MatchAt(s, p, 0);
    } else {
      var j := |head| + 1;
      assert s[j - 1] == '\n';
      assert s[j..j + |p|] == p;
      assert MatchAt(s, p, j);
    }
  }
}
