/** Lexical path resolution as `Path.resolve()` performs it when no
  * symbolic link is involved: a path is the list of its components, "."
  * and empty components vanish, ".." drops the previous component (and
  * stays at the root). The routers' containment checks are stated on it. */
module Paths {
  import opened Common

  /** A resolved path: no empty, ".", ".." or slash-bearing component. */
  predicate NormalForm(p: seq<string>)
  {
    forall k :: 0 <= k < |p| ==> p[k] != "" && p[k] != "." && p[k] != ".." && '/' !in p[k]
  }

  /** Resolution of the components `parts`, read left to right from the
    * already resolved `acc`. */
  function Walk(acc: seq<string>, parts: seq<string>): (r: seq<string>)
    requires NormalForm(acc)
    requires forall k :: 0 <= k < |parts| ==> '/' !in parts[k]
    ensures NormalForm(r)
    decreases |parts|
  {
    if parts == [] then acc
    else
      var p := parts[0];
      var next := if p == "" || p == "." then acc
                  else if p == ".." then (if acc == [] then [] else acc[..|acc| - 1])
                  else acc + [p];
      Walk(next, parts[1..])
  }

  /** `Path(path).resolve()` for a process whose working directory is
    * `cwd`: an absolute path starts from the root. */
  function Resolve(cwd: seq<string>, path: string): (r: seq<string>)
    requires NormalForm(cwd)
    ensures NormalForm(r)
  {
    Walk(if path != [] && path[0] == '/' then [] else cwd, Split(path, '/'))
  }

  /** `str(path)` of a resolved path. */
  function Render(p: seq<string>): string
  {
    "/" + Join(p, "/")
  }

  /** `resolved.relative_to(base)` succeeds: `base` is a leading run of
    * whole components of `p`. */
  predicate Under(p: seq<string>, base: seq<string>)
  {
    |base| <= |p| && p[..|base|] == base
  }

  predicate NoDotDot(parts: seq<string>)
  {
    forall k :: 0 <= k < |parts| ==> parts[k] != ".."
  }

  /** Resolving in two steps is resolving the concatenation. */
  lemma {:induction false} WalkAppend(acc: seq<string>, a: seq<string>, b: seq<string>)
    requires NormalForm(acc)
    requires forall k :: 0 <= k < |a| ==> '/' !in a[k]
    requires forall k :: 0 <= k < |b| ==> '/' !in b[k]
    ensures Walk(acc, a + b) == Walk(Walk(acc, a), b)
    decreases |a|
  {
    if a == [] {
      assert a + b == b;
    } else {
      assert (a + b)[0] == a[0] && (a + b)[1..] == a[1..] + b;
      var p := a[0];
      var next := if p == "" || p == "." then acc
                  else if p == ".." then (if acc == [] then [] else acc[..|acc| - 1])
                  else acc + [p];
      WalkAppend(next, a[1..], b);
    }
  }

  /** Without "..", resolution only ever adds components. */
  lemma {:induction false} WalkExtends(acc: seq<string>, parts: seq<string>)
    requires NormalForm(acc) && NoDotDot(parts)
    requires forall k :: 0 <= k < |parts| ==> '/' !in parts[k]
    ensures Under(Walk(acc, parts), acc)
    decreases |parts|
  {
    if parts != [] {
      var p := parts[0];
      var next := if p == "" || p == "." then acc else acc + [p];
      WalkExtends(next, parts[1..]);
      var r := Walk(acc, parts);
      assert r[..|next|] == next;
      assert r[..|acc|] == r[..|next|][..|acc|];
    }
  }

  /** A relative path without ".." joined to a base stays under the base. */
  lemma JoinStaysUnder(cwd: seq<string>, base: string, rest: string)
    requires NormalForm(cwd)
    requires base != [] && base[0] == '/' && base[|base| - 1] != '/'
    requires rest != [] && rest[0] != '/' && NoDotDot(Split(rest, '/'))
    ensures Under(Resolve(cwd, PathJoin(base, rest)), Resolve(cwd, base))
  {
    var joined := PathJoin(base, rest);
    assert joined == base + ['/'] + rest;
    SplitAppend(base, '/', rest);
    WalkAppend([], Split(base, '/'), Split(rest, '/'));
    WalkExtends(Walk([], Split(base, '/')), Split(rest, '/'));
  }

  /** Whole-component containment implies the text of the path starts
    * with the text of the base. */
  lemma UnderStartsWith(p: seq<string>, base: seq<string>)
    requires Under(p, base)
    ensures StartsWith(Render(p), Render(base))
  {
    if |base| < |p| && base != [] {
      JoinPrefix(base, p[|base|..]);
      assert p == base + p[|base|..];
    } else if |base| == |p| {
      assert p == base;
    }
  }

  lemma {:induction false} JoinPrefix(a: seq<string>, b: seq<string>)
    requires a != [] && b != []
    ensures Join(a + b, "/") == Join(a, "/") + "/" + Join(b, "/")
  {
    if |a| == 1 {
      assert (a + b)[1..] == b;
    } else {
      assert (a + b)[1..] == a[1..] + b;
      JoinPrefix(a[1..], b);
    }
  }
}
