/**
  An abstract local filesystem for the edge service: paths as sequences of
  components (pathlib's `parts` of an absolute path), the pathlib accessors
  the scanner and the runner use, and a FileSystem object holding the regular
  files that exist, with the operations the two modules apply to it.
  Directories are implicit: `mkdir(parents=True, exist_ok=True)` never
  changes the model.
*/
module FileSystems {

  /** An absolute path, as its components below `/`. */
  type Path = seq<string>

  datatype FileMeta = FileMeta(size: nat, mtime: int)

  /** pathlib's `name`: the last component, or "" for the root. */
  function Name(p: Path): string {
    if p == [] then "" else p[|p| - 1]
  }

  /** pathlib's `parent`: the root is its own parent. */
  function Parent(p: Path): (r: Path)
    ensures p != [] ==> p == r + [Name(p)]
  {
    if p == [] then [] else p[..|p| - 1]
  }

  /** `str.rfind(c)`: the last index of `c`, or -1. */
  function LastIndexOf(s: string, c: char): (i: int)
    ensures -1 <= i < |s|
    ensures i >= 0 ==> s[i] == c
    ensures forall j :: i < j < |s| ==> s[j] != c
    decreases |s|
  {
    if |s| == 0 then -1
    else if s[|s| - 1] == c then |s| - 1
    else LastIndexOf(s[..|s| - 1], c)
  }

  /**
    pathlib's `suffix`: from the last dot on, provided that dot is neither the
    first nor the last character of the name.
  */
  function Suffix(name: string): string {
    var i := LastIndexOf(name, '.');
    if 0 < i < |name| - 1 then name[i..] else ""
  }

  /** pathlib's `stem`: the name without its suffix. */
  function Stem(name: string): string {
    var i := LastIndexOf(name, '.');
    if 0 < i < |name| - 1 then name[..i] else name
  }

  lemma StemAndSuffix(name: string)
    ensures Stem(name) + Suffix(name) == name
    ensures Suffix(name) != "" ==> Suffix(name)[0] == '.' && |Suffix(name)| >= 2 && Stem(name) != ""
  {
  }

  /**
    The name untrunc gives its own output when it ignores `-dst`:
    `input.parent / f"{input.stem}_fixed{input.suffix}"`.
  */
  function FixedPath(input: Path): Path {
    var name := Name(input);
    Parent(input) + [Stem(name) + "_fixed" + Suffix(name)]
  }

  /** The fallback output is a sibling of the input, and never the input itself. */
  lemma FixedPathIsSibling(input: Path)
    ensures FixedPath(input) != input
    ensures Parent(FixedPath(input)) == Parent(input)
    ensures |Name(FixedPath(input))| == |Name(input)| + 6
  {
    var name := Name(input);
    StemAndSuffix(name);
    var fixed := Stem(name) + "_fixed" + Suffix(name);
    assert FixedPath(input)[|FixedPath(input)| - 1] == fixed;
    assert |fixed| == |name| + 6;
  }

  /** `p` lies strictly below `root` (pathlib's `relative_to` succeeds and is not "."). */
  predicate IsUnder(p: Path, root: Path) {
    |root| < |p| && p[..|root|] == root
  }

  /** pathlib's `relative_to(root)` for a path strictly below `root`. */
  function RelativePath(p: Path, root: Path): (rel: Path)
    requires IsUnder(p, root)
    ensures |rel| > 0 && root + rel == p
  {
    p[|root|..]
  }

  /** Every file outside `changed` is the same in `before` and `after`. */
  ghost predicate AgreeOutside(before: map<Path, FileMeta>, after: map<Path, FileMeta>, changed: set<Path>) {
    forall p :: p !in changed ==> (p in after <==> p in before) && (p in after ==> after[p] == before[p])
  }

  /** Two changes in a row change only what one of them changes. */
  lemma AgreeOutsideTrans(
    a: map<Path, FileMeta>, b: map<Path, FileMeta>, c: map<Path, FileMeta>,
    first: set<Path>, second: set<Path>, changed: set<Path>)
    requires AgreeOutside(a, b, first) && AgreeOutside(b, c, second)
    requires first <= changed && second <= changed
    ensures AgreeOutside(a, c, changed)
  {
  }

  predicate IsPrefix(a: Path, b: Path) {
    |a| <= |b| && b[..|a|] == a
  }

  /** Two directory trees that do not nest. */
  predicate Disjoint(a: Path, b: Path) {
    !IsPrefix(a, b) && !IsPrefix(b, a)
  }

  /** The fallback output of a file below `root` is below `root` too. */
  lemma FixedPathUnder(p: Path, root: Path)
    requires IsUnder(p, root)
    ensures IsUnder(FixedPath(p), root)
  {
    assert FixedPath(p)[..|root|] == p[..|p| - 1][..|root|] == p[..|root|];
  }

  /** `root / rel`, then `relative_to(root)` again. */
  lemma RebaseUnder(p: Path, from: Path, to: Path)
    requires IsUnder(p, from)
    ensures IsUnder(to + p[|from|..], to)
    ensures (to + p[|from|..])[|to|..] == p[|from|..]
    ensures from + p[|from|..] == p
  {
  }

  /** Rebasing two different paths of one tree onto another tree keeps them apart. */
  lemma RebaseInjective(p: Path, q: Path, from: Path, to: Path)
    requires IsUnder(p, from) && IsUnder(q, from) && p != q
    ensures to + p[|from|..] != to + q[|from|..]
  {
    RebaseUnder(p, from, to);
    RebaseUnder(q, from, to);
  }

  /** Paths below two non-nesting roots are different paths. */
  lemma {:induction false} DisjointTreesDiffer(p: Path, q: Path, a: Path, b: Path)
    requires IsUnder(p, a) && IsUnder(q, b) && Disjoint(a, b)
    ensures p != q
  {
    if |a| <= |b| {
      assert q[..|a|] == q[..|b|][..|a|] == b[..|a|];
    } else {
      assert p[..|b|] == p[..|a|][..|b|] == a[..|b|];
    }
  }

  function Join(parts: seq<string>, sep: string): string {
    if parts == [] then ""
    else if |parts| == 1 then parts[0]
    else parts[0] + sep + Join(parts[1..], sep)
  }

  /** `str(path)` for an absolute path. */
  function PathString(p: Path): string {
    "/" + Join(p, "/")
  }

  class FileSystem {
    /** The regular files that exist, with what `stat` reports for each. */
    var entries: map<Path, FileMeta>

    constructor (initial: map<Path, FileMeta>)
      ensures entries == initial
    {
      entries := initial;
    }

    /** A file is written (created or replaced) at `p`. */
    method Write(p: Path, size: nat, mtime: int)
      modifies this
      ensures entries == old(entries)[p := FileMeta(size, mtime)]
    {
      entries := entries[p := FileMeta(size, mtime)];
    }

    /** `Path.unlink()`; every caller in the model has just seen `p` exist. */
    method Unlink(p: Path)
      requires p in entries
      modifies this
      ensures entries == old(entries) - {p}
    {
      entries := entries - {p};
    }

    /**
      `Path.rename` / `shutil.move`: fails when `src` is missing, or when the
      operating system refuses (`refused`); otherwise `dst` is replaced by `src`.
    */
    method Rename(src: Path, dst: Path, refused: bool) returns (ok: bool)
      modifies this
      ensures ok <==> src in old(entries) && !refused
      ensures ok ==> entries == (old(entries) - {src})[dst := old(entries)[src]]
      ensures !ok ==> entries == old(entries)
    {
      ok := src in entries && !refused;
      if ok {
        entries := (entries - {src})[dst := entries[src]];
      }
    }

    /** `shutil.copy2`: contents and modification time are copied. */
    method Copy(src: Path, dst: Path, refused: bool) returns (ok: bool)
      modifies this
      ensures ok <==> src in old(entries) && !refused
      ensures ok ==> entries == old(entries)[dst := old(entries)[src]]
      ensures !ok ==> entries == old(entries)
    {
      ok := src in entries && !refused;
      if ok {
        entries := entries[dst := entries[src]];
      }
    }
  }
}
