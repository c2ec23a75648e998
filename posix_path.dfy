/**
 * The string operations on POSIX paths that the site initialiser relies on:
 * `os.path.join` and `os.path.split` with `/` as separator, and the `str`
 * methods `startswith`, `endswith` and `replace`.
 */
module PosixPath {

  const Sep: char := '/'

  predicate StartsWith(s: string, prefix: string)
  {
    |prefix| <= |s| && s[..|prefix|] == prefix
  }

  predicate EndsWith(s: string, suffix: string)
  {
    |suffix| <= |s| && s[|s| - |suffix|..] == suffix
  }

  /** Whether `pat` occurs in `s` at some position. */
  predicate Contains(s: string, pat: string)
    decreases |s|
  {
    if |s| < |pat| then false
    else StartsWith(s, pat) || (|s| > 0 && Contains(s[1..], pat))
  }

  /** `os.path.join(a, b)`: an absolute `b` replaces `a`; otherwise one separator goes between them. */
  function Join(a: string, b: string): string
  {
    if StartsWith(b, [Sep]) then b
    else if a == [] || EndsWith(a, [Sep]) then a + b
    else a + [Sep] + b
  }

  /** The index just after the last separator of `p`, or 0 when `p` has none. */
  function LastSepEnd(p: string): (i: nat)
    ensures i <= |p|
    decreases |p|
  {
    if p == [] then 0
    else if p[|p| - 1] == Sep then |p|
    else LastSepEnd(p[..|p| - 1])
  }

  lemma {:induction false} LastSepEndIsLast(p: string)
    ensures LastSepEnd(p) <= |p|
    ensures LastSepEnd(p) > 0 ==> p[LastSepEnd(p) - 1] == Sep
    ensures forall k :: LastSepEnd(p) <= k < |p| ==> p[k] != Sep
    decreases |p|
  {
    if p != [] && p[|p| - 1] != Sep {
      LastSepEndIsLast(p[..|p| - 1]);
    }
  }

  predicate AllSeps(s: string)
  {
    forall k :: 0 <= k < |s| ==> s[k] == Sep
  }

  /** `s.rstrip('/')`. */
  function RStripSeps(s: string): string
    decreases |s|
  {
    if s != [] && s[|s| - 1] == Sep then RStripSeps(s[..|s| - 1]) else s
  }

  /**
   * `os.path.split(p)`: the tail is everything after the last separator; the head is
   * everything up to it, with trailing separators removed unless the head is only separators.
   */
  function Split(p: string): (string, string)
  {
    var i := LastSepEnd(p);
    var head := p[..i];
    (if head != [] && !AllSeps(head) then RStripSeps(head) else head, p[i..])
  }

  function Dirname(p: string): string
  {
    Split(p).0
  }

  /**
   * `s.replace(pat, rep)` for a non-empty `pat`: every occurrence, scanning left to
   * right without overlaps, is replaced.
   */
  function ReplaceAll(s: string, pat: string, rep: string): string
    requires pat != []
    decreases |s|
  {
    if |s| < |pat| then s
    else if StartsWith(s, pat) then rep + ReplaceAll(s[|pat|..], pat, rep)
    else [s[0]] + ReplaceAll(s[1..], pat, rep)
  }

  /** Joining a directory and a plain file name, then splitting, gives both back. */
  lemma SplitJoin(dir: string, name: string)
    requires dir != [] && dir[|dir| - 1] != Sep
    requires Sep !in name
    ensures Join(dir, name) == dir + [Sep] + name
    ensures Split(Join(dir, name)) == (dir, name)
  {
    var p := dir + [Sep] + name;
    assert !StartsWith(name, [Sep]) by {
      if |name| > 0 { assert name[0] in name; }
    }
    assert !EndsWith(dir, [Sep]) by {
      assert dir[|dir| - 1..] == [dir[|dir| - 1]];
    }
    var i := LastSepEnd(p);
    LastSepEndIsLast(p);
    assert p[|dir|] == Sep;
    assert forall k :: |dir| < k < |p| ==> p[k] != Sep by {
      forall k | |dir| < k < |p| ensures p[k] != Sep {
        assert p[k] == name[k - |dir| - 1];
      }
    }
    assert i == |dir| + 1;
    assert p[..i] == dir + [Sep];
    assert !AllSeps(p[..i]) by {
      assert p[..i][|dir| - 1] == dir[|dir| - 1];
    }
    assert RStripSeps(dir + [Sep]) == RStripSeps(dir) by {
      assert (dir + [Sep])[..|dir|] == dir;
    }
    assert p[i..] == name;
  }

  lemma {:induction false} RStripSepsPrefix(s: string)
    ensures StartsWith(s, RStripSeps(s))
    ensures RStripSeps(s) == [] || RStripSeps(s)[|RStripSeps(s)| - 1] != Sep
    decreases |s|
  {
    if s != [] && s[|s| - 1] == Sep {
      RStripSepsPrefix(s[..|s| - 1]);
    }
  }

  /** A string without the pattern is left as it is. */
  lemma {:induction false} ReplaceAbsent(s: string, pat: string, rep: string)
    requires pat != [] && !Contains(s, pat)
    ensures ReplaceAll(s, pat, rep) == s
    decreases |s|
  {
    if |s| >= |pat| {
      ReplaceAbsent(s[1..], pat, rep);
      assert s == [s[0]] + s[1..];
    }
  }

  /** Removing the leading occurrence of the pattern leaves the replacement applied to the rest. */
  lemma ReplaceLeading(pat: string, rest: string, rep: string)
    requires pat != []
    ensures ReplaceAll(pat + rest, pat, rep) == rep + ReplaceAll(rest, pat, rep)
  {
    assert (pat + rest)[..|pat|] == pat;
    assert (pat + rest)[|pat|..] == rest;
  }
}
