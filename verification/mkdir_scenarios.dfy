/** The mkdir stage's test scenarios, stated for every tree, mounts
    directory and directory name rather than fixed temporary paths. */
module MkdirScenarios {
  import opened Results
  import opened Paths
  import opened Locations
  import opened MkdirStage

  /** A single path component. */
  predicate Name(n: string)
  {
    n != [] && '/' !in n && ':' !in n
  }

  /** `/rel` inside a canonical `root` is `root/rel`. */
  lemma ChildLocation(root: string, rel: string)
    requires Normalized(root) && root != "/"
    requires rel != [] && rel[0] != '/'
    ensures Location(root, "/" + rel) == root + "/" + rel
    ensures Location(root, rel) == root + "/" + rel
  {
    LStripUnique("/", rel);
    LStripUnique([], rel);
    RebaseUnderNormalized(root, "/" + rel);
    RebaseUnderNormalized(root, rel);
  }

  /** A colon-free path is a plain path, resolved inside the tree. */
  lemma PlainResolves(args: Args, p: string)
    requires ':' !in p
    ensures ResolvePath(p, args) == Ok(Location(args.tree, p))
  {
    NoColonNoSeparator(p);
  }

  /** `tree://` followed by a path resolves that path inside the tree. */
  lemma TreeUrlResolves(args: Args, path: string)
    requires path == [] || path[0] == '/'
    ensures ResolvePath(TreeScheme + path, args) == Ok(Location(args.tree, path))
  {
    var url := TreeScheme + path;
    assert SeparatorAt(url, 4);
    var t := Tree([], path);
    assert FormatTarget(t) == url;
    ParseFormat(t);
  }

  /** A leading slash makes no difference to where a path lands. */
  lemma LeadingSlashIgnored(root: string, rel: string)
    ensures Location(root, "/" + rel) == Location(root, rel)
  {
    var p := "/" + rel;
    assert p[0] == '/' && p[1..] == rel;
  }

  /** Prefixing a slash adds no colon. */
  lemma SlashAddsNoColon(rel: string)
    requires ':' !in rel
    ensures ':' !in "/" + rel
  {
    assert forall c | c in "/" + rel :: c == '/' || c in rel;
  }

  /** A plain path names the same directory whether or not it starts with
      `/`, and it is the one `tree:///` names. */
  lemma PlainPathIsTreePath(args: Args, rel: string)
    requires ':' !in rel
    ensures ResolvePath("/" + rel, args) == ResolvePath(rel, args)
    ensures ResolvePath(rel, args) == ResolvePath(TreeScheme + "/" + rel, args)
  {
    assert ResolvePath("/" + rel, args) == Ok(Location(args.tree, "/" + rel)) by {
      SlashAddsNoColon(rel);
      PlainResolves(args, "/" + rel);
    }
    assert ResolvePath(rel, args) == Ok(Location(args.tree, rel)) by {
      PlainResolves(args, rel);
    }
    LeadingSlashIgnored(args.tree, rel);
    assert ResolvePath(TreeScheme + "/" + rel, args) == Ok(Location(args.tree, "/" + rel)) by {
      TreeUrlResolves(args, "/" + rel);
      assert TreeScheme + "/" + rel == TreeScheme + ("/" + rel);
    }
  }

  /** A run of one entry is that entry's creation. */
  lemma RunOne(args: Args, item: PathItem, fs: set<string>)
    ensures Run(args, [item], fs) == CreateOne(args, item, fs)
  {
    assert [item][1..] == [];
  }

  /** A run of two entries that both succeed. */
  lemma RunTwo(args: Args, first: PathItem, second: PathItem, fs: set<string>, fs1: set<string>)
    requires CreateOne(args, first, fs) == Ok(fs1)
    ensures Run(args, [first, second], fs) == CreateOne(args, second, fs1)
  {
    assert [first, second][1..] == [second];
    RunOne(args, second, fs1);
  }

  /** An entry without `parents` naming a missing directory whose parent
      exists adds exactly that directory. */
  lemma CreateNew(args: Args, item: PathItem, fs: set<string>, target: string)
    requires ResolvePath(item.path, args) == Ok(target) && !item.parents
    requires !Exists(fs, target) && Exists(fs, Dirname(target))
    ensures CreateOne(args, item, fs) == Ok(fs + {target})
  {
  }

  /** Two different names give two different children. */
  lemma ChildrenDistinct(root: string, a: string, b: string)
    requires a != b
    ensures root + "/" + a != root + "/" + b
  {
    assert (root + "/" + a)[|root| + 1..] == a;
    assert (root + "/" + b)[|root| + 1..] == b;
  }

  /** A colon-free name, with or without a leading slash, is the tree's
      child of that name. */
  lemma PlainChild(args: Args, rel: string)
    requires Normalized(args.tree) && args.tree != "/"
    requires rel != [] && rel[0] != '/' && ':' !in rel
    ensures ResolvePath(rel, args) == Ok(args.tree + "/" + rel)
    ensures ResolvePath("/" + rel, args) == Ok(args.tree + "/" + rel)
  {
    PlainPathIsTreePath(args, rel);
    PlainResolves(args, rel);
    ChildLocation(args.tree, rel);
  }

  /** An entry without `parents` naming `name` or `/name` inside the tree,
      where that child is missing, adds exactly `<tree>/name`. */
  lemma CreateChild(args: Args, fs: set<string>, item: PathItem, name: string)
    requires Normalized(args.tree) && args.tree != "/" && args.tree in fs
    requires Name(name) && args.tree + "/" + name !in fs
    requires item.path in {name, "/" + name} && !item.parents
    ensures CreateOne(args, item, fs) == Ok(fs + {args.tree + "/" + name})
  {
    var child := args.tree + "/" + name;
    assert ResolvePath(item.path, args) == Ok(child) by {
      PlainChild(args, name);
    }
    assert !Exists(fs, child) && Exists(fs, Dirname(child)) by {
      ChildPath(args.tree, name);
    }
    CreateNew(args, item, fs, child);
  }

  /** `paths: [{"path": "/a"}, {"path": "b"}]` creates `<tree>/a` and
      `<tree>/b`: both the absolute and the relative entry land directly in
      the tree. */
  lemma AbsoluteAndRelative(args: Args, fs: set<string>, a: string, b: string)
    requires Normalized(args.tree) && args.tree != "/" && args.tree in fs
    requires Name(a) && Name(b) && a != b
    requires args.tree + "/" + a !in fs && args.tree + "/" + b !in fs
    ensures Run(args, [PathItem("/" + a, false, false), PathItem(b, false, false)], fs)
         == Ok(fs + {args.tree + "/" + a, args.tree + "/" + b})
  {
    var ta, tb := args.tree + "/" + a, args.tree + "/" + b;
    var first, second := PathItem("/" + a, false, false), PathItem(b, false, false);
    CreateChild(args, fs, first, a);
    assert tb !in fs + {ta} by {
      ChildrenDistinct(args.tree, a, b);
    }
    CreateChild(args, fs + {ta}, second, b);
    RunTwoNew(args, first, second, fs, ta, tb);
  }

  /** Two entries that each add one directory add both. */
  lemma RunTwoNew(args: Args, first: PathItem, second: PathItem, fs: set<string>, d1: string, d2: string)
    requires CreateOne(args, first, fs) == Ok(fs + {d1})
    requires CreateOne(args, second, fs + {d1}) == Ok(fs + {d1} + {d2})
    ensures Run(args, [first, second], fs) == Ok(fs + {d1, d2})
  {
    assert fs + {d1} + {d2} == fs + {d1, d2};
    RunTwo(args, first, second, fs, fs + {d1});
  }

  /** A missing directory whose parent is missing but whose grandparent
      exists: `makedirs` adds exactly the two. */
  lemma AddTwoLevels(fs: set<string>, p: string, q: string)
    requires Dirname(q) == p && Exists(fs, Dirname(p))
    requires !Exists(fs, p) && !Exists(fs, q)
    ensures MakeDirs(fs, q, false) == Ok(fs + {p, q})
  {
    assert AddDirs(fs, p) == fs + {p};
    assert AddDirs(fs, q) == AddDirs(fs, p) + {q};
    assert MakeDirs(fs, q, false) == Ok(AddDirs(fs, q));
    assert fs + {p} + {q} == fs + {p, q};
  }

  /** In a tree-shaped filesystem, a child of a missing directory is
      missing. */
  lemma ChildOfMissing(fs: set<string>, p: string, q: string)
    requires Closed(fs) && Dirname(q) == p && !Exists(fs, p)
    requires q != [] && q != "/"
    ensures !Exists(fs, q)
  {
    assert q in fs ==> Exists(fs, Dirname(q));
  }

  /** `root/name` of a canonical `root` is itself canonical, a child of
      `root`, and neither empty nor `/`. */
  lemma ChildPath(root: string, name: string)
    requires Normalized(root) && root != "/" && Name(name)
    ensures var c := root + "/" + name;
      Normalized(c) && c != "/" && Dirname(c) == root && |c| > 1
  {
    DirnameOfChild(root, name);
  }

  /** `parent/leaf` is a colon-free relative path, and under `root` it is
      the child `leaf` of `<root>/parent`. */
  lemma Grandchild(root: string, parent: string, leaf: string, rel: string)
    requires Name(parent) && Name(leaf) && rel == parent + "/" + leaf
    ensures rel != [] && rel[0] != '/' && ':' !in rel
    ensures root + "/" + rel == (root + "/" + parent) + "/" + leaf
  {
    assert rel[0] == parent[0];
    assert forall c | c in rel :: c in parent || c == '/' || c in leaf;
  }

  /** In a tree-shaped filesystem holding `root` but not `<root>/parent`,
      the directory `<root>/parent/leaf` and its parent are both missing,
      and its grandparent is `root`. */
  lemma GrandchildMissing(fs: set<string>, root: string, parent: string, leaf: string, rel: string)
    requires Normalized(root) && root != "/"
    requires Name(parent) && Name(leaf) && rel == parent + "/" + leaf
    requires root + "/" + parent !in fs && Closed(fs)
    ensures var q := root + "/" + rel;
      && Dirname(q) == root + "/" + parent && Dirname(root + "/" + parent) == root
      && !Exists(fs, q) && !Exists(fs, root + "/" + parent)
  {
    var p := root + "/" + parent;
    Grandchild(root, parent, leaf, rel);
    ChildPath(root, parent);
    ChildPath(p, leaf);
    ChildOfMissing(fs, p, p + "/" + leaf);
  }

  /** `<root>/parent/leaf` created with `parents` from a filesystem holding
      `root` but not `<root>/parent`: both directories appear. */
  lemma MakeDirsTwoLevels(fs: set<string>, root: string, parent: string, leaf: string, rel: string)
    requires Normalized(root) && root != "/" && root in fs
    requires Name(parent) && Name(leaf) && rel == parent + "/" + leaf
    requires root + "/" + parent !in fs && Closed(fs)
    ensures MakeDirs(fs, root + "/" + rel, false) == Ok(fs + {root + "/" + parent, root + "/" + rel})
  {
    GrandchildMissing(fs, root, parent, leaf, rel);
    AddTwoLevels(fs, root + "/" + parent, root + "/" + rel);
  }

  /** A location URL with no authority is recognised and parses back to its
      target. */
  lemma UrlRecognised(t: Target)
    requires t.authority == [] && t.path != [] && t.path[0] == '/'
    ensures HasSchemeSeparator(FormatTarget(t))
    ensures ParseTarget(FormatTarget(t)) == Some(t)
  {
    var url := FormatTarget(t);
    var k := if t.Tree? then |TreeScheme| - 3 else |MountScheme| - 3;
    assert SeparatorAt(url, k);
    assert '/' !in t.authority;
    ParseFormat(t);
  }

  /** A location URL with no authority and path `/rel` names `<root>/rel`,
      where `root` is its base directory. */
  lemma UrlResolves(args: Args, t: Target, root: string, rel: string)
    requires Normalized(root) && root != "/"
    requires rel != [] && rel[0] != '/'
    requires t.path == "/" + rel && t.authority == []
    requires Base(t, args) == Some(root)
    ensures ResolvePath(FormatTarget(t), args) == Ok(root + "/" + rel)
  {
    UrlRecognised(t);
    ChildLocation(root, rel);
  }

  /** A single entry with `parents` whose `makedirs` succeeds adds what it
      adds. */
  lemma RunWithParents(args: Args, item: PathItem, fs: set<string>, target: string, made: set<string>)
    requires ResolvePath(item.path, args) == Ok(target) && item.parents
    requires MakeDirs(fs, target, item.existOk) == Ok(made)
    ensures Run(args, [item], fs) == Ok(made)
  {
    assert CreateOne(args, item, fs) == Ok(made);
    RunOne(args, item, fs);
  }

  /** Shared step of the two location scenarios: a location URL whose base
      directory is `root` and whose path is `/parent/leaf`. */
  lemma LocatedWithParents(args: Args, fs: set<string>, t: Target, root: string, parent: string, leaf: string, rel: string)
    requires Normalized(root) && root != "/" && root in fs
    requires Name(parent) && Name(leaf) && rel == parent + "/" + leaf
    requires root + "/" + parent !in fs && Closed(fs)
    requires t.path == "/" + rel && t.authority == []
    requires Base(t, args) == Some(root)
    ensures Run(args, [PathItem(FormatTarget(t), true, false)], fs)
         == Ok(fs + {root + "/" + parent, root + "/" + rel})
  {
    Grandchild(root, parent, leaf, rel);
    UrlResolves(args, t, root, rel);
    MakeDirsTwoLevels(fs, root, parent, leaf, rel);
    RunWithParents(args, PathItem(FormatTarget(t), true, false), fs, root + "/" + rel,
                   fs + {root + "/" + parent, root + "/" + rel});
  }

  /** `tree:///parent/leaf` with `parents` creates `<tree>/parent` and
      `<tree>/parent/leaf`. */
  lemma TreeLocationWithParents(args: Args, fs: set<string>, parent: string, leaf: string, rel: string)
    requires Normalized(args.tree) && args.tree != "/" && args.tree in fs
    requires Name(parent) && Name(leaf) && rel == parent + "/" + leaf
    requires args.tree + "/" + parent !in fs && Closed(fs)
    ensures Run(args, [PathItem(TreeScheme + "/" + rel, true, false)], fs)
         == Ok(fs + {args.tree + "/" + parent, args.tree + "/" + rel})
  {
    var t := Tree([], "/" + rel);
    assert FormatTarget(t) == TreeScheme + "/" + rel;
    LocatedWithParents(args, fs, t, args.tree, parent, leaf, rel);
  }

  /** `mount:///parent/leaf` with `parents` creates `parent/leaf` under the
      mounts directory, not under the tree. */
  lemma MountLocationWithParents(args: Args, fs: set<string>, parent: string, leaf: string, rel: string)
    requires Normalized(args.mountsDir) && args.mountsDir != "/" && args.mountsDir in fs
    requires Name(parent) && Name(leaf) && rel == parent + "/" + leaf
    requires args.mountsDir + "/" + parent !in fs && Closed(fs)
    ensures Run(args, [PathItem(MountScheme + "/" + rel, true, false)], fs)
         == Ok(fs + {args.mountsDir + "/" + parent, args.mountsDir + "/" + rel})
  {
    var t := Mount([], "/" + rel);
    assert FormatTarget(t) == MountScheme + "/" + rel;
    LocatedWithParents(args, fs, t, args.mountsDir, parent, leaf, rel);
  }

  /** A single entry without `parents` whose directory's parent is missing
      fails the run, with that directory named. */
  lemma RunWithoutParent(args: Args, item: PathItem, fs: set<string>, target: string)
    requires ResolvePath(item.path, args) == Ok(target) && !item.parents
    requires !Exists(fs, target) && !Exists(fs, Dirname(target))
    ensures Run(args, [item], fs) == Err(Failed(NoSuchParent(target)))
  {
    assert CreateOne(args, item, fs) == Err(Failed(NoSuchParent(target)));
    RunOne(args, item, fs);
  }

  /** `tree:///parent/leaf` without `parents` fails: the intermediate
      directory is missing. */
  lemma MissingParentWithoutParents(args: Args, fs: set<string>, parent: string, leaf: string, rel: string)
    requires Normalized(args.tree) && args.tree != "/" && args.tree in fs
    requires Name(parent) && Name(leaf) && rel == parent + "/" + leaf
    requires args.tree + "/" + parent !in fs && Closed(fs)
    ensures Run(args, [PathItem(TreeScheme + "/" + rel, false, false)], fs)
         == Err(Failed(NoSuchParent(args.tree + "/" + rel)))
  {
    var t := Tree([], "/" + rel);
    assert FormatTarget(t) == TreeScheme + "/" + rel;
    Grandchild(args.tree, parent, leaf, rel);
    UrlResolves(args, t, args.tree, rel);
    GrandchildMissing(fs, args.tree, parent, leaf, rel);
    RunWithoutParent(args, PathItem(TreeScheme + "/" + rel, false, false), fs, args.tree + "/" + rel);
  }
}
