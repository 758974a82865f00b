/** Location URLs (`tree://…`, `mount://…`) and their resolution to a
    directory, shared by the selinux stage's `targets` and the mkdir stage's
    `paths`. A location splits as a URL does (section 3 of RFC 3986): a
    scheme, then after `//` an authority running up to the next `/`, then a
    path. Query and fragment parts are not split off. */
module Locations {
  import opened Results
  import opened Paths

  const TreeScheme: string := "tree://"
  const MountScheme: string := "mount://"

  /** A parsed location. For `mount://` the authority names an entry of the
      mount table; an empty one stands for the mounts directory itself. For
      `tree://` the authority is carried but plays no part in resolution. */
  datatype Target =
    | Tree(authority: string, path: string)
    | Mount(authority: string, path: string)

  /** The string starts with one of the two location schemes. */
  predicate HasScheme(s: string)
  {
    TreeScheme <= s || MountScheme <= s
  }

  /** A target that some location string parses to: the authority holds no
      `/` and the path is empty or starts with one. */
  predicate WellFormed(t: Target)
  {
    '/' !in t.authority && (t.path == [] || t.path[0] == '/')
  }

  /** Splits what follows `//` into authority and path. */
  function SplitAuthority(rest: string): (r: (string, string))
    ensures r.0 + r.1 == rest
    ensures '/' !in r.0
    ensures r.1 == [] || r.1[0] == '/'
  {
    if rest == [] || rest[0] == '/' then ([], rest)
    else
      var (a, p) := SplitAuthority(rest[1..]);
      assert [rest[0]] + a + p == rest;
      ([rest[0]] + a, p)
  }

  /** The split is the only one with a slash-free authority. */
  lemma {:induction false} SplitAuthorityUnique(authority: string, path: string)
    requires '/' !in authority
    requires path == [] || path[0] == '/'
    ensures SplitAuthority(authority + path) == (authority, path)
  {
    var rest := authority + path;
    if authority != [] {
      assert rest[0] == authority[0] && authority[0] in authority;
      assert rest[1..] == authority[1..] + path;
      SplitAuthorityUnique(authority[1..], path);
      assert [authority[0]] + authority[1..] == authority;
    } else {
      assert rest == path;
    }
  }

  function FormatTarget(t: Target): string
  {
    match t
    case Tree(a, p) => TreeScheme + a + p
    case Mount(a, p) => MountScheme + a + p
  }

  /** Parses a location string; `None` when it has neither scheme. */
  function ParseTarget(s: string): (r: Option<Target>)
    ensures r.Some? <==> HasScheme(s)
    ensures r.Some? ==> WellFormed(r.value) && FormatTarget(r.value) == s
    ensures r.Some? ==> (r.value.Tree? <==> TreeScheme <= s)
  {
    if TreeScheme <= s then
      var (a, p) := SplitAuthority(s[|TreeScheme|..]);
      assert s == TreeScheme + (a + p) == TreeScheme + a + p;
      Some(Tree(a, p))
    else if MountScheme <= s then
      var (a, p) := SplitAuthority(s[|MountScheme|..]);
      assert s == MountScheme + (a + p) == MountScheme + a + p;
      Some(Mount(a, p))
    else None
  }

  /** Formatting then parsing a well-formed target gives it back. */
  lemma ParseFormat(t: Target)
    requires WellFormed(t)
    ensures HasScheme(FormatTarget(t))
    ensures ParseTarget(FormatTarget(t)) == Some(t)
  {
    SplitAuthorityUnique(t.authority, t.path);
    var s := FormatTarget(t);
    var tail := t.authority + t.path;
    if t.Tree? {
      assert s == TreeScheme + tail;
      assert TreeScheme <= s && s[|TreeScheme|..] == tail;
    } else {
      assert s == MountScheme + tail;
      assert MountScheme <= s && s[|MountScheme|..] == tail;
      assert s[0] != TreeScheme[0];
    }
  }

  /** What the stage runtime hands a stage: the tree, the mount table (name
      to mounted path) and the mounts directory (`paths.mounts`). */
  datatype Args = Args(tree: string, mounts: map<string, string>, mountsDir: string)

  datatype ResolveError =
    | UnknownMount(name: string)
    | UnsupportedScheme(location: string)

  /** The directory a target's path is relative to. */
  function Base(t: Target, args: Args): (r: Option<string>)
    ensures r.None? <==> t.Mount? && t.authority != [] && t.authority !in args.mounts
  {
    match t
    case Tree(_, _) => Some(args.tree)
    case Mount(name, _) =>
      if name == [] then Some(args.mountsDir)
      else if name in args.mounts then Some(args.mounts[name])
      else None
  }

  /** The concrete directory a target names; an unknown mount name is an
      error rather than a skipped target. */
  function ResolveTarget(t: Target, args: Args): (r: Result<string, ResolveError>)
    ensures r.Err? <==> t.Mount? && t.authority != [] && t.authority !in args.mounts
    ensures r.Err? ==> r.error == UnknownMount(t.authority)
    ensures r.Ok? && Base(t, args).value != [] ==> Within(Base(t, args).value, r.value)
    ensures r.Ok? ==> (r.value == Base(t, args).value <==> LStrip(t.path) == [])
  {
    match Base(t, args)
    case None => Err(UnknownMount(t.authority))
    case Some(root) => Ok(Location(root, t.path))
  }

  /** A target as a directory to start from and a path below it: the base
      and the target's path without its leading slashes. Together they name
      the directory the target resolves to. */
  function TargetParts(t: Target, args: Args): (r: Result<(string, string), ResolveError>)
    ensures r.Err? <==> ResolveTarget(t, args).Err?
    ensures r.Err? ==> r.error == ResolveTarget(t, args).error
    ensures r.Ok? ==> Base(t, args) == Some(r.value.0)
    ensures r.Ok? ==> r.value.1 == [] || r.value.1[0] != '/'
    ensures r.Ok? ==> Location(r.value.0, r.value.1) == ResolveTarget(t, args).value
  {
    match Base(t, args)
    case None => Err(UnknownMount(t.authority))
    case Some(root) =>
      LStripIdempotent(t.path);
      Ok((root, LStrip(t.path)))
  }

  /** `tree:///p` names `p` under the tree. */
  lemma TreeLocation(args: Args, authority: string, path: string)
    requires Normalized(args.tree) && args.tree != "/"
    requires LStrip(path) != []
    ensures ResolveTarget(Tree(authority, path), args) == Ok(args.tree + "/" + LStrip(path))
  {
    RebaseUnderNormalized(args.tree, path);
  }

  /** `mount:///p` (no mount name) names `p` under the mounts directory, not
      under the tree. */
  lemma MountsDirLocation(args: Args, path: string)
    requires Normalized(args.mountsDir) && args.mountsDir != "/"
    ensures ResolveTarget(Mount([], path), args)
         == Ok(if LStrip(path) == [] then args.mountsDir else args.mountsDir + "/" + LStrip(path))
  {
    RebaseUnderNormalized(args.mountsDir, path);
  }

  /** `mount://name/` names the mounted path recorded for `name`. */
  lemma NamedMountLocation(args: Args, name: string)
    requires name != [] && name in args.mounts && args.mounts[name] != []
    ensures ResolveTarget(Mount(name, "/"), args) == Ok(args.mounts[name])
  {
  }
}
