/**
  The part of Python's `pathlib.PurePosixPath` that the uploaders rely on:
  building a path from a string, joining with `/`, and reading `.name` and
  `.parent`. A path keeps its components normalised as pathlib does: empty
  components and "." are dropped, ".." is kept verbatim.
*/
module Paths {
  import opened PyStrings

  /** One component of a normalised path. */
  predicate IsComponent(s: string) {
    s != "" && s != "." && '/' !in s
  }

  datatype Path = Path(absolute: bool, parts: seq<string>)
  {
    ghost predicate Normal() {
      forall i :: 0 <= i < |parts| ==> IsComponent(parts[i])
    }

    /** `PurePath.name`: the final component, or "" for "/" and ".". */
    function Name(): (n: string)
      requires Normal()
      ensures n == "" <==> parts == []
      ensures n != "" ==> IsComponent(n)
      ensures parts != [] ==> Parent().parts + [n] == parts
    {
      if parts == [] then "" else parts[|parts| - 1]
    }

    /** `PurePath.parent`: "/" and "." are their own parents. */
    function Parent(): (p: Path)
      ensures p.absolute == absolute
      ensures parts != [] ==> p.parts + [parts[|parts| - 1]] == parts
    {
      if parts == [] then this else Path(absolute, parts[..|parts| - 1])
    }
  }

  /** The proper ancestor of `p` made of its first `k` components; `k == 0` is
      the root for an absolute path and the working directory otherwise. */
  function Ancestor(p: Path, k: nat): Path
    requires k <= |p.parts|
  {
    Path(p.absolute, p.parts[..k])
  }

  /** `Path(".")`, the working directory. */
  const Cwd := Path(false, [])

  /** The components pathlib keeps when it parses `s`: the '/'-separated pieces,
      in order, except the empty ones and ".". */
  function Components(s: string): (r: seq<string>)
    ensures forall i :: 0 <= i < |r| ==> IsComponent(r[i])
    decreases |s|
  {
    var k := AfterLast(s, '/');
    var init := if k == 0 then [] else Components(s[..k - 1]);
    init + (if IsComponent(s[k..]) then [s[k..]] else [])
  }

  /** A single component parses as itself. */
  lemma ComponentsOfComponent(c: string)
    requires IsComponent(c)
    ensures Components(c) == [c]
  {
    assert AfterLast(c, '/') == 0;
    assert c[0..] == c;
  }

  /** Appending "/" and a component to a string appends that component to its
      parse, whatever the string holds. */
  lemma ComponentsAppend(a: string, c: string)
    requires IsComponent(c)
    ensures Components(a + "/" + c) == Components(a) + [c]
  {
    var s := a + "/" + c;
    assert s[|a|] == '/';
    assert forall j :: |a| < j < |s| ==> s[j] == c[j - |a| - 1];
    assert AfterLast(s, '/') == |a| + 1;
    assert s[..|a|] == a;
    assert s[|a| + 1..] == c;
  }

  /** `PurePosixPath(s)`: a leading '/' makes it absolute. */
  function PathOf(s: string): (p: Path)
    ensures p.Normal()
    ensures p.absolute <==> |s| > 0 && s[0] == '/'
  {
    Path(|s| > 0 && s[0] == '/', Components(s))
  }

  /** The name of a path that ends in "/" and a component is that component,
      and its parent holds the components of the text before it. */
  lemma PathOfLastSegment(d: string, c: string)
    requires IsComponent(c)
    ensures PathOf(d + "/" + c).Name() == c
    ensures PathOf(d + "/" + c).Parent().parts == PathOf(d).parts
  {
    ComponentsAppend(d, c);
  }

  /** `dir / s`: an absolute `s` replaces `dir`, a relative one is appended to it. */
  function Join(dir: Path, s: string): (p: Path)
    requires dir.Normal()
    ensures p.Normal()
  {
    if |s| > 0 && s[0] == '/' then PathOf(s)
    else Path(dir.absolute, dir.parts + Components(s))
  }

  /** A component followed by more text without '/' is again a component. */
  lemma ComponentConcat(a: string, b: string)
    requires IsComponent(a) && '/' !in b
    ensures IsComponent(a + b)
  {
    var s := a + b;
    assert forall i :: 0 <= i < |s| ==> s[i] == if i < |a| then a[i] else b[i - |a|];
    if |s| == 1 {
      assert s == a;
    }
  }

  /** A string that is a single component joins as exactly one new component:
      the joined path is named after it and its parent is the directory. */
  lemma JoinComponent(dir: Path, s: string)
    requires dir.Normal() && IsComponent(s)
    ensures Join(dir, s).Name() == s
    ensures Join(dir, s).Parent() == dir
  {
    ComponentsOfComponent(s);
  }
}
