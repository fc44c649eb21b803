/**
 * The part of Python's pure paths (`pathlib.PurePosixPath`) that the noxfile relies on:
 * joining with `/`, `parent`, `name`, `stem`, `suffix` and `relative_to`. Nothing here
 * touches a file system.
 */
module Paths {
  import opened Common

  /**
   * A path as pathlib splits it: an anchor ("/" for an absolute path, "" for a relative one)
   * followed by its components. Every component is a single name without a separator.
   */
  datatype Path = Path(anchor: string, parts: seq<string>)

  /** The final component, or "" for a path that has none (`PurePath.name`). */
  function Name(p: Path): (n: string)
    ensures p.parts == [] ==> n == ""
    ensures p.parts != [] ==> Path(p.anchor, Parent(p).parts + [n]) == p
  {
    if p.parts == [] then "" else p.parts[|p.parts| - 1]
  }

  /** The path without its final component; a path with no components is its own parent. */
  function Parent(p: Path): (q: Path)
    ensures q.anchor == p.anchor && q.parts <= p.parts
    ensures |q.parts| == if p.parts == [] then 0 else |p.parts| - 1
  {
    if p.parts == [] then p else Path(p.anchor, p.parts[..|p.parts| - 1])
  }

  /** `p / name` for a single component `name`. */
  function Join(p: Path, name: string): (q: Path)
    ensures Name(q) == name && Parent(q) == p
    ensures q.anchor == p.anchor && |q.parts| == |p.parts| + 1
  {
    Path(p.anchor, p.parts + [name])
  }

  /** `s.rfind('.')`: the index of the last dot in `s`, or -1 when there is none. */
  function LastDot(s: string): (i: int)
    ensures -1 <= i < |s|
    ensures i == -1 ==> forall j :: 0 <= j < |s| ==> s[j] != '.'
    ensures 0 <= i ==> s[i] == '.' && forall j :: i < j < |s| ==> s[j] != '.'
  {
    if s == [] then -1
    else if s[|s| - 1] == '.' then |s| - 1
    else LastDot(s[..|s| - 1])
  }

  /** True when the name's last dot starts a suffix: it is neither the first nor the last character. */
  predicate HasSuffix(name: string)
  {
    0 < LastDot(name) < |name| - 1
  }

  /** `PurePath.stem`: the final component without its suffix. */
  function Stem(p: Path): (s: string)
    ensures |s| <= |Name(p)| && s == Name(p)[..|s|]
    ensures Name(p) != "" ==> s != ""
  {
    var n := Name(p);
    if HasSuffix(n) then n[..LastDot(n)] else n
  }

  /** `PurePath.suffix`: the final component's extension, dot included, or "". */
  function Suffix(p: Path): (s: string)
    ensures s == "" || (|s| >= 2 && s[0] == '.' && forall j :: 1 <= j < |s| ==> s[j] != '.')
    ensures s != "" <==> exists i :: 0 < i < |Name(p)| - 1 && Name(p)[i] == '.' && forall j :: i < j < |Name(p)| ==> Name(p)[j] != '.'
    ensures |s| <= |Name(p)| && (s != "" ==> s == Name(p)[|Name(p)| - |s|..])
  {
    var n := Name(p);
    if HasSuffix(n) then n[LastDot(n)..] else ""
  }

  /** The stem and the suffix split the name: putting them back together gives the name again. */
  lemma StemSuffixSplit(p: Path)
    ensures Stem(p) + Suffix(p) == Name(p)
    ensures Name(p) != "" ==> Stem(p) != ""
  {
  }

  /** The last dot of `s + "." + e`, when `e` holds no dot, is the one that was added. */
  lemma LastDotOfExtended(s: string, e: string)
    requires forall j :: 0 <= j < |e| ==> e[j] != '.'
    ensures LastDot(s + "." + e) == |s|
    decreases |e|
  {
    if e == [] {
      assert (s + "." + e)[|s|] == '.';
    } else {
      var e' := e[..|e| - 1];
      assert (s + "." + e)[..|s + "." + e| - 1] == s + "." + e';
      LastDotOfExtended(s, e');
    }
  }

  /**
   * `p.relative_to(root)`: the components of `p` after those of `root`, or None where Python
   * raises ValueError because `root` is neither `p` nor one of its ancestors.
   */
  function RelativeTo(p: Path, root: Path): (r: Option<Path>)
    ensures r.Some? <==> p.anchor == root.anchor && root.parts <= p.parts
    ensures r.Some? ==> r.value.anchor == "" && Path(root.anchor, root.parts + r.value.parts) == p
  {
    if p.anchor == root.anchor && |root.parts| <= |p.parts| && p.parts[..|root.parts|] == root.parts
    then
      assert root.parts + p.parts[|root.parts|..] == p.parts;
      Some(Path("", p.parts[|root.parts|..]))
    else None
  }
}
