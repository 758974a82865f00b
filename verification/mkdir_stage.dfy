/** The mkdir stage: each entry of `paths` names a directory, either as a
    plain path (absolute or relative, both taken inside the tree) or as a
    `tree://` / `mount://` location, and is created with `os.mkdir`, or with
    `os.makedirs` when `parents` is set. The filesystem is the set of
    directory paths that exist; `/` and the current directory (the empty
    path) always exist. */
module MkdirStage {
  import opened Results
  import opened Paths
  import opened Locations

  /** One entry of the `paths` option. `parents` and `exist_ok` are taken
      by truth value, so `"parents": 1` reads as `true`. */
  datatype PathItem = PathItem(path: string, parents: bool, existOk: bool)

  datatype FsError =
    | FileExists(path: string)     // the directory is already there
    | NoSuchParent(path: string)   // its parent is missing and `parents` is not set

  datatype MkdirError =
    | Unresolved(location: ResolveError)
    | Failed(fs: FsError)

  // ---------------------------------------------------------------------
  // Locating an entry

  /** `p` has `://` starting at position `i`. */
  predicate SeparatorAt(p: string, i: int)
  {
    0 <= i && i + 3 <= |p| && p[i] == ':' && p[i + 1] == '/' && p[i + 2] == '/'
  }

  /** `p` contains `://`, the mark of a location URL. */
  predicate HasSchemeSeparator(p: string)
  {
    exists i | 0 <= i < |p| :: SeparatorAt(p, i)
  }

  /** A path without a colon is never a location URL. */
  lemma NoColonNoSeparator(p: string)
    requires ':' !in p
    ensures !HasSchemeSeparator(p)
  {
    forall i | 0 <= i < |p|
      ensures !SeparatorAt(p, i)
    {
      assert p[i] in p;
    }
  }

  /** The directory an entry names. A plain path is tree-relative whether or
      not it starts with `/`; a location URL is resolved by its scheme, and
      a URL with another scheme is an error. */
  function ResolvePath(p: string, args: Args): (r: Result<string, ResolveError>)
    ensures !HasSchemeSeparator(p) ==> r.Ok? && (args.tree != [] ==> Within(args.tree, r.value))
    ensures HasSchemeSeparator(p) && !HasScheme(p) ==> r == Err(UnsupportedScheme(p))
  {
    if !HasSchemeSeparator(p) then Ok(Location(args.tree, p))
    else
      match ParseTarget(p)
      case None => Err(UnsupportedScheme(p))
      case Some(t) => ResolveTarget(t, args)
  }

  // ---------------------------------------------------------------------
  // The filesystem

  /** `d` names an existing directory. */
  predicate Exists(fs: set<string>, d: string)
  {
    d == [] || d == "/" || d in fs
  }

  /** Every directory's parent exists: the set is shaped like a directory
      tree. */
  predicate Closed(fs: set<string>)
  {
    forall d | d in fs :: Exists(fs, Dirname(d))
  }

  /** `os.mkdir(p)` followed by an `exist_ok` check: an existing directory
      is an error unless `existOk`, a missing parent always is. */
  function MakeDir(fs: set<string>, p: string, existOk: bool): (r: Result<set<string>, FsError>)
    ensures r.Ok? ==> Exists(r.value, p) && fs <= r.value && r.value <= fs + {p}
    ensures r.Ok? <==> (Exists(fs, p) && existOk) || (!Exists(fs, p) && Exists(fs, Dirname(p)))
    ensures Closed(fs) && r.Ok? ==> Closed(r.value)
  {
    if Exists(fs, p) then
      if existOk then Ok(fs) else Err(FileExists(p))
    else if !Exists(fs, Dirname(p)) then Err(NoSuchParent(p))
    else Ok(fs + {p})
  }

  /** `p` together with its missing ancestors, created from the nearest
      existing one down, as `os.makedirs` does. */
  function AddDirs(fs: set<string>, p: string): (r: set<string>)
    ensures fs <= r && Exists(r, p)
    ensures Exists(r, Dirname(p))
    ensures forall d | d in r && d !in fs :: AncestorOrSelf(d, p)
    ensures Closed(fs) ==> Closed(r)
    decreases |p|
  {
    var head := Dirname(p);
    var fs' := if Exists(fs, head) then fs else AddDirs(fs, head);
    fs' + {p}
  }

  /** `os.makedirs(p, exist_ok=existOk)`. */
  function MakeDirs(fs: set<string>, p: string, existOk: bool): (r: Result<set<string>, FsError>)
    ensures r.Ok? ==> Exists(r.value, p) && fs <= r.value
    ensures r.Ok? && (Closed(fs) || !Exists(fs, p)) ==> Exists(r.value, Dirname(p))
    ensures r.Err? <==> Exists(fs, p) && !existOk
    ensures r.Ok? ==> forall d | d in r.value && d !in fs :: AncestorOrSelf(d, p)
    ensures Closed(fs) && r.Ok? ==> Closed(r.value)
  {
    if Exists(fs, p) then
      if existOk then Ok(fs) else Err(FileExists(p))
    else Ok(AddDirs(fs, p))
  }

  /** Where the parent already exists, `parents` makes no difference:
      `makedirs` does what `mkdir` does. */
  lemma MakeDirsAsMakeDir(fs: set<string>, p: string, existOk: bool)
    requires Exists(fs, Dirname(p))
    ensures MakeDirs(fs, p, existOk) == MakeDir(fs, p, existOk)
  {
    if !Exists(fs, p) {
      assert AddDirs(fs, p) == fs + {p};
    }
  }

  // ---------------------------------------------------------------------
  // The stage

  /** The directory entry `item` resolves to, if it resolves. */
  predicate Resolves(args: Args, item: PathItem)
  {
    ResolvePath(item.path, args).Ok?
  }

  /** Creates one entry. */
  function CreateOne(args: Args, item: PathItem, fs: set<string>): (r: Result<set<string>, MkdirError>)
    ensures r.Ok? ==> Resolves(args, item) && Exists(r.value, ResolvePath(item.path, args).value)
    ensures r.Ok? ==> fs <= r.value
    ensures r.Ok? ==> forall d | d in r.value && d !in fs :: AncestorOrSelf(d, ResolvePath(item.path, args).value)
    ensures Closed(fs) && r.Ok? ==> Closed(r.value)
  {
    match ResolvePath(item.path, args)
    case Err(e) => Err(Unresolved(e))
    case Ok(target) =>
      var made := if item.parents then MakeDirs(fs, target, item.existOk) else MakeDir(fs, target, item.existOk);
      match made
      case Err(e) => Err(Failed(e))
      case Ok(fs') => Ok(fs')
  }

  /** `d` is the directory some entry resolves to, or one above it. */
  predicate CreatedFor(d: string, args: Args, items: seq<PathItem>)
  {
    exists i | 0 <= i < |items| :: Resolves(args, items[i]) && AncestorOrSelf(d, ResolvePath(items[i].path, args).value)
  }

  /** The stage: the entries are created in order and the first failure
      aborts it. When it succeeds every entry's directory exists, nothing
      is removed, every new directory is one of the entries or an ancestor
      of one, and a tree-shaped filesystem stays tree-shaped. */
  function Run(args: Args, items: seq<PathItem>, fs: set<string>): (r: Result<set<string>, MkdirError>)
    ensures r.Ok? ==> fs <= r.value
    ensures r.Ok? ==> forall i | 0 <= i < |items| ::
      Resolves(args, items[i]) && Exists(r.value, ResolvePath(items[i].path, args).value)
    ensures r.Ok? ==> forall d | d in r.value && d !in fs :: CreatedFor(d, args, items)
    ensures Closed(fs) && r.Ok? ==> Closed(r.value)
    decreases |items|
  {
    if items == [] then Ok(fs)
    else
      match CreateOne(args, items[0], fs)
      case Err(e) => Err(e)
      case Ok(fs') =>
        var r := Run(args, items[1..], fs');
        assert r.Ok? ==> forall d | d in r.value && d !in fs :: CreatedFor(d, args, items) by {
          if r.Ok? {
            forall d | d in r.value && d !in fs
              ensures CreatedFor(d, args, items)
            {
              if d in fs' {
                assert Resolves(args, items[0]) && AncestorOrSelf(d, ResolvePath(items[0].path, args).value);
              } else {
                var i :| 0 <= i < |items[1..]| && Resolves(args, items[1..][i])
                  && AncestorOrSelf(d, ResolvePath(items[1..][i].path, args).value);
                assert items[1..][i] == items[i + 1];
              }
            }
          }
        }
        r
  }
}
