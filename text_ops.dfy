// String operations of the JavaScript runtime that the capture pipeline relies
// on: `startsWith`, `trim`, `split(',')`, `split(/\s+/)` and `join`.

module TextOps {

  /** A character JavaScript's `\s` (and so `trim`) treats as white space. */
  predicate IsSpace(c: char) {
    c in {' ', '\t', '\n', '\U{000B}', '\U{000C}', '\r', '\U{00A0}', '\U{1680}',
          '\U{2000}', '\U{2001}', '\U{2002}', '\U{2003}', '\U{2004}', '\U{2005}', '\U{2006}',
          '\U{2007}', '\U{2008}', '\U{2009}', '\U{200A}', '\U{2028}', '\U{2029}', '\U{202F}',
          '\U{205F}', '\U{3000}', '\U{FEFF}'}
  }

  predicate NoSpace(s: string) {
    forall i :: 0 <= i < |s| ==> !IsSpace(s[i])
  }

  predicate AllSpace(s: string) {
    forall i :: 0 <= i < |s| ==> IsSpace(s[i])
  }

  /** `s.startsWith(p)`. */
  predicate StartsWith(s: string, p: string) {
    |p| <= |s| && s[..|p|] == p
  }

  function TrimStart(s: string): (r: string)
    ensures |r| <= |s| && r == s[|s| - |r|..]
    ensures AllSpace(s[..|s| - |r|])
    ensures r == [] || !IsSpace(r[0])
  {
    if s != [] && IsSpace(s[0]) then
      var r := TrimStart(s[1..]);
      assert s[1..][..|s| - 1 - |r|] == s[1..|s| - |r|];
      r
    else s
  }

  function TrimEnd(s: string): (r: string)
    ensures |r| <= |s| && r == s[..|r|]
    ensures AllSpace(s[|r|..])
    ensures r == [] || !IsSpace(r[|r| - 1])
  {
    if s != [] && IsSpace(s[|s| - 1]) then
      var r := TrimEnd(s[..|s| - 1]);
      assert s[..|s| - 1][|r|..] == s[|r|..|s| - 1];
      r
    else s
  }

  /** `s.trim()`. */
  function Trim(s: string): string {
    TrimEnd(TrimStart(s))
  }

  /** `s.split(c)` for a one-character separator: every separator ends a part, so there is one part more than separators. */
  function Split(s: string, c: char): (r: seq<string>)
    ensures |r| >= 1
  {
    if s == [] then [""]
    else if s[0] == c then [""] + Split(s[1..], c)
    else
      var rest := Split(s[1..], c);
      [[s[0]] + rest[0]] + rest[1..]
  }

  /** `parts.join(sep)`. */
  function Join(parts: seq<string>, sep: string): string {
    if parts == [] then ""
    else if |parts| == 1 then parts[0]
    else parts[0] + sep + Join(parts[1..], sep)
  }

  /** `s.split(/\s+/)`: every maximal run of white space separates two parts. */
  function SplitSpaces(s: string): (r: seq<string>)
    ensures |r| >= 1
  {
    if s == [] then [""]
    else if IsSpace(s[0]) then [""] + SplitSpaces(TrimStart(s[1..]))
    else
      var rest := SplitSpaces(s[1..]);
      [[s[0]] + rest[0]] + rest[1..]
  }

  // ---------------------------------------------------------------- split and join

  /** Joining the parts of a split with the same separator gives the string back. */
  lemma {:induction false} JoinSplit(s: string, c: char)
    ensures Join(Split(s, c), [c]) == s
    decreases |s|
  {
    if s != [] {
      var rest := Split(s[1..], c);
      JoinSplit(s[1..], c);
      if s[0] == c {
        assert Split(s, c)[1..] == rest;
      } else if |rest| > 1 {
        assert Split(s, c)[1..] == rest[1..];
        assert Join(rest, [c]) == rest[0] + [c] + Join(rest[1..], [c]);
        assert s == [s[0]] + s[1..];
      }
    }
  }

  lemma {:induction false} SplitJoinOne(p: string, x: string, c: char)
    requires c !in p
    ensures Split(p + [c] + x, c) == [p] + Split(x, c)
    decreases |p|
  {
    if p == [] {
      assert p + [c] + x == [c] + x;
      assert ([c] + x)[1..] == x;
    } else {
      SplitJoinOne(p[1..], x, c);
      assert (p + [c] + x)[1..] == p[1..] + [c] + x;
      assert [p[0]] + p[1..] == p;
    }
  }

  lemma {:induction false} SplitNoSeparator(p: string, c: char)
    requires c !in p
    ensures Split(p, c) == [p]
    decreases |p|
  {
    if p != [] {
      SplitNoSeparator(p[1..], c);
      assert [p[0]] + p[1..] == p;
    }
  }

  /** Splitting parts joined by a separator none of them contains gives the parts back. */
  lemma {:induction false} SplitJoin(parts: seq<string>, c: char)
    requires |parts| >= 1 && forall i :: 0 <= i < |parts| ==> c !in parts[i]
    ensures Split(Join(parts, [c]), c) == parts
    decreases |parts|
  {
    if |parts| == 1 {
      SplitNoSeparator(parts[0], c);
    } else {
      SplitJoin(parts[1..], c);
      SplitJoinOne(parts[0], Join(parts[1..], [c]), c);
      assert [parts[0]] + parts[1..] == parts;
    }
  }

  // ---------------------------------------------------------------- white space

  lemma {:induction false} TrimStartPadded(lead: string, x: string)
    requires AllSpace(lead) && (x == [] || !IsSpace(x[0]))
    ensures TrimStart(lead + x) == x
    decreases |lead|
  {
    if lead != [] {
      assert (lead + x)[1..] == lead[1..] + x;
      TrimStartPadded(lead[1..], x);
    } else {
      assert lead + x == x;
    }
  }

  lemma {:induction false} TrimEndPadded(x: string, trail: string)
    requires AllSpace(trail) && (x == [] || !IsSpace(x[|x| - 1]))
    ensures TrimEnd(x + trail) == x
    decreases |trail|
  {
    if trail != [] {
      var t := trail[..|trail| - 1];
      assert (x + trail)[..|x + trail| - 1] == x + t;
      TrimEndPadded(x, t);
    } else {
      assert x + trail == x;
    }
  }

  /** `trim` removes exactly the white space padding a word-bounded string. */
  lemma TrimPadded(lead: string, x: string, trail: string)
    requires AllSpace(lead) && AllSpace(trail) && x != [] && !IsSpace(x[0]) && !IsSpace(x[|x| - 1])
    ensures Trim(lead + x + trail) == x
  {
    TrimStartPadded(lead, x + trail);
    assert lead + x + trail == lead + (x + trail);
    TrimEndPadded(x, trail);
  }

  /** A word glues onto the first part of what follows it. */
  lemma {:induction false} SplitSpacesAfterWord(u: string, t: string)
    requires NoSpace(u)
    ensures SplitSpaces(u + t) == [u + SplitSpaces(t)[0]] + SplitSpaces(t)[1..]
    decreases |u|
  {
    if u == [] {
      assert u + t == t;
      assert u + SplitSpaces(t)[0] == SplitSpaces(t)[0];
      assert [SplitSpaces(t)[0]] + SplitSpaces(t)[1..] == SplitSpaces(t);
    } else {
      assert (u + t)[1..] == u[1..] + t;
      SplitSpacesAfterWord(u[1..], t);
      assert [u[0]] + (u[1..] + SplitSpaces(t)[0]) == u + SplitSpaces(t)[0];
    }
  }

  /** A run of white space in front separates an empty first part. */
  lemma SplitSpacesAfterSpaces(sp: string, d: string)
    requires AllSpace(sp) && sp != [] && (d == [] || !IsSpace(d[0]))
    ensures SplitSpaces(sp + d) == [""] + SplitSpaces(d)
  {
    assert (sp + d)[0] == sp[0];
    assert (sp + d)[1..] == sp[1..] + d;
    TrimStartPadded(sp[1..], d);
  }

  /** `url descriptor`, white space between, splits into exactly those two words. */
  lemma SplitSpacesPair(u: string, sp: string, d: string)
    requires NoSpace(u) && AllSpace(sp) && sp != [] && NoSpace(d) && d != []
    ensures SplitSpaces(u + sp + d) == [u, d]
  {
    SplitSpacesWord(d);
    SplitSpacesAfterSpaces(sp, d);
    SplitSpacesAfterWord(u, sp + d);
    assert u + sp + d == u + (sp + d);
    assert u + "" == u;
  }

  /** A single word splits into itself. */
  lemma SplitSpacesWord(u: string)
    requires NoSpace(u)
    ensures SplitSpaces(u) == [u]
  {
    SplitSpacesAfterWord(u, []);
    assert u + [] == u;
  }
}
