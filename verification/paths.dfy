/** POSIX path strings as the stages manipulate them: stripping leading
    slashes, joining a tree-rooted path under a directory, and taking the
    parent directory. Paths are assumed canonical (no `.`, `..` or repeated
    slashes), so normalisation is the identity and is not modelled. */
module Paths {
  import opened Results

  /** A directory path in canonical form: non-empty, and without a trailing
      slash unless it is the filesystem root. */
  predicate Normalized(p: string)
  {
    p != [] && (p == "/" || p[|p| - 1] != '/')
  }

  /** `p.lstrip("/")`: `p` without its leading slashes. */
  function LStrip(p: string): (r: string)
    ensures |r| <= |p|
    ensures r == [] || r[0] != '/'
  {
    if p != [] && p[0] == '/' then LStrip(p[1..]) else p
  }

  /** What `LStrip` removes is a run of slashes, and what it keeps is the
      rest of `p`. */
  lemma {:induction false} LStripShape(p: string)
    ensures LStrip(p) == p[|p| - |LStrip(p)|..]
    ensures forall i | 0 <= i < |p| - |LStrip(p)| :: p[i] == '/'
    decreases |p|
  {
    if p != [] && p[0] == '/' {
      LStripShape(p[1..]);
      assert forall i | 1 <= i < |p| :: p[i] == p[1..][i - 1];
    }
  }

  /** Stripping is determined by its result: whatever is left after a run of
      slashes and does not itself start with one is what `LStrip` returns. */
  lemma {:induction false} LStripUnique(slashes: string, rest: string)
    requires forall i | 0 <= i < |slashes| :: slashes[i] == '/'
    requires rest == [] || rest[0] != '/'
    ensures LStrip(slashes + rest) == rest
  {
    var p := slashes + rest;
    var r := LStrip(p);
    LStripShape(p);
    assert rest != [] ==> p[|slashes|] == rest[0];
    assert forall i | 0 <= i < |slashes| :: p[i] == slashes[i];
    assert |r| == |rest|;
  }

  /** Stripping twice is stripping once. */
  lemma LStripIdempotent(p: string)
    ensures LStrip(LStrip(p)) == LStrip(p)
  {
  }

  /** `dir` followed by exactly one separator. */
  function DirPrefix(dir: string): (r: string)
    ensures r != [] && r[|r| - 1] == '/'
    ensures dir <= r && |r| <= |dir| + 1
  {
    if dir != [] && dir[|dir| - 1] == '/' then dir else dir + "/"
  }

  /** Python's two-argument `os.path.join(base, rel)`. */
  function Join(base: string, rel: string): string
  {
    if rel != [] && rel[0] == '/' then rel
    else if base == [] then rel
    else DirPrefix(base) + rel
  }

  /** `os.path.join(root, p.lstrip("/"))`: a tree-rooted path `p` moved
      under `root`. */
  function Rebase(root: string, p: string): (r: string)
    ensures root != [] ==> r == DirPrefix(root) + LStrip(p)
  {
    Join(root, LStrip(p))
  }

  /** `path` relative to `root` (the part after `root` and its separator),
      or `None` when `path` is not strictly below `root`. */
  function RelativeTo(root: string, path: string): (r: Option<string>)
    ensures r.Some? ==> root != [] && DirPrefix(root) + r.value == path
  {
    if root != [] && DirPrefix(root) <= path then Some(path[|DirPrefix(root)|..]) else None
  }

  /** `path` is `root` itself or lies below it. */
  predicate Within(root: string, path: string)
  {
    path == root || DirPrefix(root) <= path
  }

  /** Rebasing then taking the relative path gives back the stripped input:
      the separator is not duplicated and nothing is lost. */
  lemma RebaseThenRelative(root: string, p: string)
    requires root != []
    ensures RelativeTo(root, Rebase(root, p)) == Some(LStrip(p))
  {
    assert Rebase(root, p)[|DirPrefix(root)|..] == LStrip(p);
  }

  /** A path found below `root` is rebuilt by rebasing its relative part. */
  lemma RelativeThenRebase(root: string, path: string)
    requires RelativeTo(root, path).Some?
    requires RelativeTo(root, path).value == [] || RelativeTo(root, path).value[0] != '/'
    ensures Rebase(root, RelativeTo(root, path).value) == path
  {
    var rel := RelativeTo(root, path).value;
    LStripUnique([], rel);
  }

  /** Two tree-rooted paths land on the same place under `root` exactly when
      they agree once their leading slashes are stripped. */
  lemma RebaseInjective(root: string, p: string, q: string)
    requires root != []
    ensures Rebase(root, p) == Rebase(root, q) <==> LStrip(p) == LStrip(q)
  {
    if Rebase(root, p) == Rebase(root, q) {
      RebaseThenRelative(root, p);
      RebaseThenRelative(root, q);
    }
  }

  /** Under a canonical root other than `/`, rebasing yields `root + "/" + rel`
      with `rel` free of leading slashes: `/sysroot` under `T` is `T/sysroot`. */
  lemma RebaseUnderNormalized(root: string, p: string)
    requires Normalized(root) && root != "/"
    ensures Rebase(root, p) == root + "/" + LStrip(p)
    ensures |Rebase(root, p)| > |root| + 1 ==> Rebase(root, p)[|root| + 1] != '/'
  {
  }

  /** The directory a location URL's `path` names inside `root`: `root`
      joined with the path stripped of its leading slashes, for canonical
      paths. An empty or all-slash path names `root` itself. */
  function Location(root: string, urlPath: string): (r: string)
    ensures root != [] ==> Within(root, r)
    ensures root != [] ==> (r == root <==> LStrip(urlPath) == [])
  {
    if LStrip(urlPath) == [] then root else Rebase(root, urlPath)
  }

  /** `d` is `p` itself or a directory above it. */
  predicate AncestorOrSelf(d: string, p: string)
  {
    d == p || DirPrefix(d) <= p
  }

  /** Index of the last `/` in `p`, if any. */
  function LastSlash(p: string): (r: Option<nat>)
    ensures r.Some? ==> r.value < |p| && p[r.value] == '/' && '/' !in p[r.value + 1..]
    ensures r.None? ==> '/' !in p
  {
    if p == [] then None
    else if p[|p| - 1] == '/' then Some(|p| - 1)
    else
      var r := LastSlash(p[..|p| - 1]);
      assert p == p[..|p| - 1] + [p[|p| - 1]];
      r
  }

  /** `os.path.dirname(p)` for canonical paths: everything before the last
      separator, `/` for a child of the root, and empty for a bare name. */
  function Dirname(p: string): (r: string)
    ensures r <= p
    ensures r == [] || r == "/" || |r| < |p|
    ensures r != [] ==> DirPrefix(r) <= p
  {
    match LastSlash(p)
    case None => []
    case Some(i) =>
      if i == 0 then (assert p[..1] == "/"; "/") else p[..i]
  }

  /** The parent of a name placed in a canonical directory is that directory:
      the partner of `DirPrefix`. */
  lemma DirnameOfChild(parent: string, name: string)
    requires Normalized(parent)
    requires name != [] && '/' !in name
    ensures Dirname(DirPrefix(parent) + name) == parent
  {
    var d := DirPrefix(parent);
    var p := d + name;
    var k := |d| - 1;
    assert p[k] == '/';
    assert p[k] in p;
    assert forall j | k < j < |p| :: p[j] == name[j - |d|];
    var ls := LastSlash(p);
    assert p[k] in p[ls.value..];
    assert ls == Some(k);
    if parent == "/" {
      assert k == 0;
    } else {
      assert p[..k] == parent;
    }
  }
}
