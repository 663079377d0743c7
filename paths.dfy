/** Resolved absolute paths, as `pathlib.Path` values after `resolve_path=True`. */
module Paths {

  /** An absolute path, given as its components below the root: `/repo/build` is ["repo", "build"]. */
  type Path = seq<string>

  /** A component of a resolved path: non-empty, no separator, no `.` or `..`. */
  predicate ValidComponent(c: string) {
    c != "" && c != "." && c != ".." && '/' !in c
  }

  predicate ValidPath(p: Path) {
    forall i :: 0 <= i < |p| ==> ValidComponent(p[i])
  }

  /** `a` lies strictly above `p`: a proper prefix of its components. */
  predicate IsProperAncestor(a: Path, p: Path) {
    |a| < |p| && p[..|a|] == a
  }

  /** `p` is `root` itself or lies somewhere beneath it. */
  predicate IsUnder(p: Path, root: Path) {
    |root| <= |p| && p[..|root|] == root
  }

  /** `Path.parents`: the ancestors of `p`, nearest first and ending with the root, never `p` itself. */
  function Parents(p: Path): (r: seq<Path>)
    ensures |r| == |p|
    ensures forall i :: 0 <= i < |r| ==> r[i] == p[..|p| - 1 - i]
    decreases |p|
  {
    if p == [] then [] else [p[..|p| - 1]] + Parents(p[..|p| - 1])
  }

  /** Membership in `Path.parents` is exactly being a proper ancestor; in particular `p !in Parents(p)`. */
  lemma ParentsAreProperAncestors(a: Path, p: Path)
    ensures a in Parents(p) <==> IsProperAncestor(a, p)
  {
    var r := Parents(p);
    if IsProperAncestor(a, p) {
      assert r[|p| - 1 - |a|] == a;
    }
  }

  /** Being under a path is transitive. */
  lemma UnderTransitive(p: Path, q: Path, root: Path)
    requires IsUnder(p, q) && IsUnder(q, root)
    ensures IsUnder(p, root)
  {
    assert p[..|root|] == p[..|q|][..|root|];
  }

  /** The components, each preceded by a separator. */
  function Join(p: Path): string
  {
    if p == [] then "" else "/" + p[0] + Join(p[1..])
  }

  /** `str(Path)` for a resolved absolute path: "/" for the root, "/repo/build" for ["repo", "build"]. */
  function Render(p: Path): (s: string)
    ensures |s| > 0 && s[0] == '/'
  {
    if p == [] then "/" else Join(p)
  }

  lemma JoinShape(p: Path)
    requires ValidPath(p)
    ensures p == [] <==> Join(p) == ""
    ensures p != [] ==> |Join(p)| >= 2 && Join(p)[0] == '/'
  {
  }

  lemma {:induction false} JoinInjective(p: Path, q: Path)
    requires ValidPath(p) && ValidPath(q)
    requires Join(p) == Join(q)
    ensures p == q
    decreases |p|
  {
    JoinShape(p);
    JoinShape(q);
    if p != [] && q != [] {
      var s := Join(p);
      var p0, q0 := p[0], q[0];
      var restP, restQ := Join(p[1..]), Join(q[1..]);
      assert ValidPath(p[1..]) && ValidPath(q[1..]) by {
        assert forall i :: 0 <= i < |p| - 1 ==> p[1..][i] == p[i + 1];
        assert forall i :: 0 <= i < |q| - 1 ==> q[1..][i] == q[i + 1];
      }
      JoinShape(p[1..]);
      JoinShape(q[1..]);
      assert s == "/" + p0 + restP && s == "/" + q0 + restQ;
      assert ValidComponent(p0) && ValidComponent(q0);
      ComponentEndsAtSeparator(p0, restP);
      ComponentEndsAtSeparator(q0, restQ);
      assert s[1..] == p0 + restP && s[1..] == q0 + restQ;
      assert p0 == s[1..1 + |p0|] == q0;
      assert restP == s[1 + |p0|..] == restQ;
      JoinInjective(p[1..], q[1..]);
      assert p == [p0] + p[1..] && q == [q0] + q[1..];
    }
  }

  /** Position of the first separator in `t`, or `|t|` when there is none. */
  function FirstSeparator(t: string): (k: nat)
    ensures k <= |t|
  {
    if t == "" || t[0] == '/' then 0 else 1 + FirstSeparator(t[1..])
  }

  /** A component followed by the rest of a joined path ends exactly at the next separator. */
  lemma {:induction false} ComponentEndsAtSeparator(c: string, rest: string)
    requires '/' !in c
    requires rest == "" || rest[0] == '/'
    ensures FirstSeparator(c + rest) == |c|
  {
    if c != "" {
      assert (c + rest)[0] == c[0];
      assert (c + rest)[1..] == c[1..] + rest;
      ComponentEndsAtSeparator(c[1..], rest);
    } else {
      assert c + rest == rest;
    }
  }

  /** Distinct resolved paths render as distinct tokens. */
  lemma RenderInjective(p: Path, q: Path)
    requires ValidPath(p) && ValidPath(q)
    ensures Render(p) == Render(q) <==> p == q
  {
    if Render(p) == Render(q) {
      JoinShape(p);
      JoinShape(q);
      if p != [] && q != [] {
        JoinInjective(p, q);
      }
    }
  }
}
