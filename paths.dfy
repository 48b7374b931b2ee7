/** POSIX path manipulation as Python's `os.path` does it. */
module Paths {

  predicate StartsWithSep(s: string) { |s| > 0 && s[0] == '/' }

  predicate EndsWithSep(s: string) { |s| > 0 && s[|s| - 1] == '/' }

  /** One path component: not empty, no separator. */
  predicate IsName(s: string) { s != "" && '/' !in s }

  /** `os.path.join(a, b)`: an absolute `b` replaces `a`; otherwise `b` is
      appended after a separator unless `a` is empty or already ends in one. */
  function Join(a: string, b: string): string
  {
    if StartsWithSep(b) then b
    else if a == "" || EndsWithSep(a) then a + b
    else a + "/" + b
  }

  /** What `Join` puts between `a` and a relative second part. */
  function Glue(a: string): string
  {
    if a == "" || EndsWithSep(a) then "" else "/"
  }

  lemma JoinRelative(a: string, b: string)
    requires !StartsWithSep(b)
    ensures Join(a, b) == a + Glue(a) + b
  {
  }

  /** A path ending like `b` needs the same glue as `b`. */
  lemma GlueOfExtension(a: string, b: string)
    requires b != ""
    ensures Glue(a + b) == Glue(b)
  {
    assert (a + b)[|a + b| - 1] == b[|b| - 1];
  }

  lemma ConcatAssociative(a: string, g: string, b: string, h: string, c: string)
    ensures a + g + (b + h + c) == (a + g + b) + h + c
  {
  }

  lemma JoinAssociativeRelative(a: string, b: string, c: string)
    requires !StartsWithSep(c) && !StartsWithSep(b) && b != ""
    ensures Join(a, Join(b, c)) == Join(Join(a, b), c)
  {
    JoinRelative(b, c);
    assert !StartsWithSep(b + Glue(b) + c) by {
      assert (b + Glue(b) + c)[0] == b[0];
    }
    JoinRelative(a, b + Glue(b) + c);
    JoinRelative(a, b);
    GlueOfExtension(a + Glue(a), b);
    JoinRelative(a + Glue(a) + b, c);
    ConcatAssociative(a, Glue(a), b, Glue(b), c);
  }

  /** `os.path.join(a, b, c)` is `join(join(a, b), c)` and also `join(a, join(b, c))`. */
  lemma JoinAssociative(a: string, b: string, c: string)
    ensures Join(a, Join(b, c)) == Join(Join(a, b), c)
  {
    if StartsWithSep(c) {
      assert Join(b, c) == c;
    } else if StartsWithSep(b) {
      JoinRelative(b, c);
      assert StartsWithSep(Join(b, c));
    } else if b == "" {
      JoinRelative(b, c);
      assert Join(b, c) == c;
      JoinRelative(a, b);
      JoinRelative(a + Glue(a), c);
      JoinRelative(a, c);
    } else {
      JoinAssociativeRelative(a, b, c);
    }
  }

  /** Joining a single component gives a path that ends with it. */
  lemma JoinName(a: string, c: string)
    requires IsName(c)
    ensures Join(a, c) == (if a == "" || EndsWithSep(a) then a + c else a + "/" + c)
    ensures Join(a, c) != "" && !EndsWithSep(Join(a, c))
  {
    assert c[0] in c;
    assert c[|c| - 1] in c;
  }

  /** Index of the last separator, or -1 when there is none. */
  function LastSep(p: string): (i: int)
    ensures -1 <= i < |p|
    ensures i >= 0 ==> p[i] == '/'
    decreases |p|
  {
    if p == [] then -1
    else if p[|p| - 1] == '/' then |p| - 1
    else LastSep(p[..|p| - 1])
  }

  /** Trailing separators removed (`rstrip('/')`). */
  function StripTrailingSeps(s: string): (r: string)
    ensures |r| <= |s| && r == s[..|r|]
    decreases |s|
  {
    if EndsWithSep(s) then StripTrailingSeps(s[..|s| - 1]) else s
  }

  /** `os.path.basename(p)`: what follows the last separator. */
  function Basename(p: string): string
  {
    p[LastSep(p) + 1..]
  }

  /** `os.path.dirname(p)`: what precedes the last separator, without
      trailing separators unless it consists of separators only. */
  function Dirname(p: string): string
  {
    var head := p[..LastSep(p) + 1];
    if head != "" && exists i :: 0 <= i < |head| && head[i] != '/' then StripTrailingSeps(head) else head
  }

  lemma {:induction false} LastSepSkipsName(p: string, c: string)
    requires '/' !in c
    ensures LastSep(p + c) == LastSep(p)
    decreases |c|
  {
    if c != [] {
      assert c[|c| - 1] in c;
      assert (p + c)[..|p + c| - 1] == p + c[..|c| - 1];
      LastSepSkipsName(p, c[..|c| - 1]);
    } else {
      assert p + c == p;
    }
  }

  /** Splitting a path that ends in a component gives back its parent and the component. */
  lemma SplitLastComponent(d: string, c: string)
    requires d != "" && !EndsWithSep(d) && IsName(c)
    ensures Dirname(d + "/" + c) == d
    ensures Basename(d + "/" + c) == c
  {
    var p := d + "/" + c;
    LastSepSkipsName(d + "/", c);
    assert LastSep(d + "/") == |d|;
    assert p[..|d| + 1] == d + "/";
    assert (d + "/")[|d| - 1] != '/';
    assert StripTrailingSeps(d + "/") == StripTrailingSeps(d);
    assert p[|d| + 1..] == c;
  }
}
