/** The path arithmetic of `pathlib.PurePosixPath` and `os.path.relpath` that
    the core uses. */
module Paths {
  import opened Strs

  /** Drops the empty and "." components, as pathlib does when it parses. */
  function DropTrivial(xs: seq<string>): (r: seq<string>)
    ensures |r| <= |xs|
    ensures forall k :: 0 <= k < |r| ==> r[k] != "" && r[k] != "." && r[k] in xs
  {
    if xs == [] then []
    else
      var rest := DropTrivial(xs[1..]);
      if xs[0] == "" || xs[0] == "." then rest else [xs[0]] + rest
  }

  /** The components of a POSIX path string. */
  function Parts(p: string): (r: seq<string>)
    ensures forall k :: 0 <= k < |r| ==> r[k] != "" && r[k] != "." && '/' !in r[k]
  {
    DropTrivial(Split(p, '/'))
  }

  predicate IsAbsolute(p: string) {
    |p| > 0 && p[0] == '/'
  }

  /** `str(Path(p).parent)`. */
  function Parent(p: string): string {
    var parts := Parts(p);
    var root := if IsAbsolute(p) then "/" else "";
    if |parts| <= 1 then (if root == "/" then "/" else ".")
    else root + Join(parts[..|parts| - 1], '/')
  }

  /** `Path(p).name`: the last component, or "" when there is none. */
  function Name(p: string): string {
    var parts := Parts(p);
    if parts == [] then "" else parts[|parts| - 1]
  }

  /** `Path(p).suffix`: the name from its last dot, when that dot is neither
      the first nor the last character of the name. */
  function Suffix(p: string): (r: string)
    ensures r == "" || (|r| >= 2 && r[0] == '.' && EndsWith(Name(p), r) && '.' !in r[1..])
    ensures r == "" <==>
      || (|Name(p)| > 0 && Name(p)[|Name(p)| - 1] == '.')
      || forall j :: 0 < j < |Name(p)| ==> Name(p)[j] != '.'
  {
    var name := Name(p);
    var i := RFind(name, '.');
    if 0 < i < |name| - 1 then
      assert forall j :: 1 <= j < |name[i..]| ==> name[i..][j] == name[i + j];
      name[i..]
    else ""
  }

  /** A path in a plain relative form: its string is its components joined by
      "/", none of them empty, "." or holding a "/". */
  predicate PlainParts(parts: seq<string>) {
    parts != [] && forall k :: 0 <= k < |parts| ==> parts[k] != "" && parts[k] != "." && '/' !in parts[k]
  }

  lemma {:induction false} DropTrivialOfPlain(xs: seq<string>)
    requires forall k :: 0 <= k < |xs| ==> xs[k] != "" && xs[k] != "."
    ensures DropTrivial(xs) == xs
  {
    if xs != [] {
      DropTrivialOfPlain(xs[1..]);
    }
  }

  /** For a relative path written in plain form, the parent is the path of
      all but its last component. */
  lemma ParentOfPlain(parts: seq<string>)
    requires PlainParts(parts)
    ensures Parts(Join(parts, '/')) == parts
    ensures Parent(Join(parts, '/')) == if |parts| == 1 then "." else Join(parts[..|parts| - 1], '/')
  {
    SplitJoin(parts, '/');
    DropTrivialOfPlain(parts);
    var s := Join(parts, '/');
    assert !IsAbsolute(s) by {
      JoinStartsWithFirst(parts, '/');
    }
  }

  lemma {:induction false} JoinStartsWithFirst(parts: seq<string>, c: char)
    requires parts != [] && parts[0] != ""
    ensures |Join(parts, c)| > 0 && Join(parts, c)[0] == parts[0][0]
  {
    if |parts| > 1 {
      assert Join(parts, c) == parts[0] + [c] + Join(parts[1..], c);
    }
  }

  /** A normalised path as a list of components (what `os.path.abspath`
      produces, split on "/"). */
  type PathParts = seq<string>

  /** The length of the longest common prefix of two component lists. */
  function CommonPrefixLen(a: PathParts, b: PathParts): (n: nat)
    ensures n <= |a| && n <= |b|
    ensures a[..n] == b[..n]
    ensures n < |a| && n < |b| ==> a[n] != b[n]
  {
    if a == [] || b == [] || a[0] != b[0] then 0
    else
      var n := 1 + CommonPrefixLen(a[1..], b[1..]);
      assert a[..n] == [a[0]] + a[1..][..n - 1];
      assert b[..n] == [b[0]] + b[1..][..n - 1];
      n
  }

  /** `os.path.relpath(path, start)` on normalised component lists: one ".."
      per component of `start` past the common prefix, then the rest of
      `path`; "." when nothing is left. */
  function RelPath(path: PathParts, start: PathParts): string {
    var n := CommonPrefixLen(path, start);
    var rel := seq(|start| - n, _ => "..") + path[n..];
    if rel == [] then "." else Join(rel, '/')
  }

  /** A path below `start` is written relative to it as its remaining
      components. */
  lemma RelPathBelow(path: PathParts, start: PathParts)
    requires |start| <= |path| && path[..|start|] == start
    ensures RelPath(path, start) == if |path| == |start| then "." else Join(path[|start|..], '/')
  {
    var n := CommonPrefixLen(path, start);
    assert n == |start|;
    var rel := seq(|start| - n, _ => "..") + path[n..];
    assert rel == path[|start|..];
  }
}
