/** The selinux stage's test scenarios, stated for every tree and mount
    location rather than one temporary directory. */
module SelinuxScenarios {
  import opened Results
  import opened Paths
  import opened Locations
  import opened SelinuxSchema
  import opened SelinuxStage

  const ContextsFile: string := "etc/selinux/thing"

  /** The options `{"file_contexts": "etc/selinux/thing"}` plus the given
      `exclude_paths`, `force_autorelabel`, `targets` and `labels`. */
  function WithContexts(excludes: Option<Json>, force: Option<Json>, targets: Option<Json>, labels: Option<Json>): RawOptions
  {
    RawOptions(Some(JString(ContextsFile)), excludes, force, targets, labels)
  }

  /** One resolvable target resolves to one base and path. */
  lemma SingleTarget(args: Args, t: Target)
    requires ResolveTarget(t, args).Ok?
    ensures ResolveTargets(args, [t]) == Pass([TargetParts(t, args).value], None)
  {
    assert [t][1..] == [];
  }

  /** The bulk pass over one resolved target is one setfiles call. */
  lemma SingleSetfiles(contexts: string, parts: (string, string), excludes: Option<seq<string>>)
    ensures SetfilesCalls(contexts, [parts], excludes) == [SetfilesFor(contexts, parts, excludes)]
  {
  }

  /** A run with a single target that resolves is one setfiles call on that
      target followed by the label calls. */
  lemma OneTargetRun(args: Args, opts: Options, t: Target)
    requires opts.fileContexts.Some? && opts.TargetList() == [t]
    requires ResolveTarget(t, args).Ok?
    ensures Run(args, opts)
         == Completed([SetfilesFor(Rebase(args.tree, opts.fileContexts.value), TargetParts(t, args).value, opts.excludePaths)]
                      + LabelCalls(args.tree, opts.LabelList()),
                      if opts.Force() then Some(AutorelabelFlag) else None)
  {
    SingleTarget(args, t);
    SingleSetfiles(Rebase(args.tree, opts.fileContexts.value), TargetParts(t, args).value, opts.excludePaths);
  }

  /** Without `targets`, a run is one setfiles call on the whole tree, with
      an empty path below it, followed by the label calls. */
  lemma DefaultTargetRun(args: Args, opts: Options)
    requires opts.fileContexts.Some? && opts.targets.None?
    ensures Run(args, opts)
         == Completed([Setfiles(Rebase(args.tree, opts.fileContexts.value), args.tree, [],
                                RebaseExcludes(args.tree, opts.excludePaths))]
                      + LabelCalls(args.tree, opts.LabelList()),
                      if opts.Force() then Some(AutorelabelFlag) else None)
  {
    assert TargetParts(Tree([], "/"), args) == Ok((args.tree, [])) by {
      assert LStrip("/") == [];
    }
    OneTargetRun(args, opts, Tree([], "/"));
  }

  /** Accepted options run as the options they are read as. */
  lemma ReadsAs(raw: RawOptions, opts: Options)
    requires WellFormedOptions(opts) && ToRaw(opts) == raw
    ensures forall args: Args :: Execute(args, raw) == Run(args, opts)
  {
    ParseToRaw(opts);
  }

  /** With `file_contexts` only, setfiles runs once on the tree, with the
      context file read from the tree, an empty path below it and no exclusion list
      (unset, not empty); no label is set and no marker written. */
  lemma FileContextsOnly(args: Args)
    requires Normalized(args.tree) && args.tree != "/"
    ensures Execute(args, WithContexts(None, None, None, None))
         == Completed([Setfiles(args.tree + "/" + ContextsFile, args.tree, "", None)], None)
  {
    var opts := Options(Some(ContextsFile), None, None, None, None);
    ReadsAs(WithContexts(None, None, None, None), opts);
    RebaseUnderNormalized(args.tree, ContextsFile);
    assert LStrip(ContextsFile) == ContextsFile;
    assert LStrip("/") == [];
    DefaultTargetRun(args, opts);
  }

  /** A tree-rooted `/rel` lands at `<root>/rel`. */
  lemma AbsoluteUnderRoot(root: string, rel: string)
    requires Normalized(root) && root != "/"
    requires rel == [] || rel[0] != '/'
    ensures Rebase(root, "/" + rel) == root + "/" + rel
  {
    RebaseUnderNormalized(root, "/" + rel);
    LStripUnique("/", rel);
  }

  lemma RebaseOne(root: string, rel: string)
    requires Normalized(root) && root != "/"
    requires rel == [] || rel[0] != '/'
    ensures RebaseExcludes(root, Some(["/" + rel])) == Some([root + "/" + rel])
  {
    AbsoluteUnderRoot(root, rel);
    var rebased := RebaseExcludes(root, Some(["/" + rel])).value;
    assert |rebased| == 1 && rebased[0] == root + "/" + rel;
    assert rebased == [root + "/" + rel];
  }

  lemma ContextsUnderTree(tree: string)
    requires Normalized(tree) && tree != "/"
    ensures Rebase(tree, ContextsFile) == tree + "/" + ContextsFile
  {
    RebaseUnderNormalized(tree, ContextsFile);
    assert LStrip(ContextsFile) == ContextsFile;
  }

  /** `exclude_paths: ["/sysroot"]` reaches setfiles as the one path
      `<tree>/sysroot`; so does any `/name` as `<tree>/name`. */
  lemma ExcludeUnderTree(args: Args, name: string)
    requires Normalized(args.tree) && args.tree != "/"
    requires name == [] || name[0] != '/'
    ensures Execute(args, WithContexts(Some(JArray([JString("/" + name)])), None, None, None))
         == Completed([Setfiles(args.tree + "/" + ContextsFile, args.tree, "",
                                Some([args.tree + "/" + name]))], None)
  {
    var opts := Options(Some(ContextsFile), Some(["/" + name]), None, None, None);
    var items := ToRaw(opts).excludePaths.value.items;
    assert |items| == 1 && items[0] == JString("/" + name);
    assert items == [JString("/" + name)];
    ReadsAs(WithContexts(Some(JArray([JString("/" + name)])), None, None, None), opts);
    DefaultTargetRun(args, opts);
    ContextsUnderTree(args.tree);
    RebaseOne(args.tree, name);
  }

  /** With target `mount://root/`, setfiles labels the path mounted as
      `root`, while the context file is still read from the tree. */
  lemma MountTargetRoot(args: Args)
    requires Normalized(args.tree) && args.tree != "/"
    requires "root" in args.mounts
    ensures Execute(args, WithContexts(None, None, Some(JArray([JString("mount://root/")])), None))
         == Completed([Setfiles(args.tree + "/" + ContextsFile, args.mounts["root"], "", None)], None)
  {
    var t := Mount("root", "/");
    var opts := Options(Some(ContextsFile), None, None, Some([t]), None);
    MountRootReads();
    ReadsAs(WithContexts(None, None, Some(JArray([JString("mount://root/")])), None), opts);
    ContextsUnderTree(args.tree);
    assert TargetParts(t, args) == Ok((args.mounts["root"], [])) by {
      assert LStrip("/") == [];
    }
    OneTargetRun(args, opts, t);
  }

  /** `targets: ["mount://root/"]` reads as the one target `Mount("root", "/")`. */
  lemma MountRootReads()
    ensures var opts := Options(Some(ContextsFile), None, None, Some([Mount("root", "/")]), None);
      && WellFormedOptions(opts)
      && ToRaw(opts) == WithContexts(None, None, Some(JArray([JString("mount://root/")])), None)
  {
    var t := Mount("root", "/");
    assert FormatTarget(t) == "mount://root/";
    var opts := Options(Some(ContextsFile), None, None, Some([t]), None);
    var items := ToRaw(opts).targets.value.items;
    assert |items| == 1 && items[0] == JString("mount://root/");
    assert items == [JString("mount://root/")];
  }

  /** A `labels` entry gives one setfilecon call on the key moved under the
      tree (`/tree/usr/bin/bootc` is set on `<tree>/tree/usr/bin/bootc`),
      with the label unchanged, after the single setfiles call. */
  lemma LabelUnderTree(args: Args, rel: string, context: string)
    requires Normalized(args.tree) && args.tree != "/"
    requires rel == [] || rel[0] != '/'
    ensures Execute(args, WithContexts(None, None, None, Some(JObject([("/" + rel, JString(context))]))))
         == Completed([Setfiles(args.tree + "/" + ContextsFile, args.tree, "", None),
                       Setfilecon(args.tree + "/" + rel, context)], None)
  {
    var key := "/" + rel;
    var opts := Options(Some(ContextsFile), None, None, None, Some([(key, context)]));
    var members := ToRaw(opts).labels.value.members;
    assert |members| == 1 && members[0] == (key, JString(context));
    assert members == [(key, JString(context))];
    ReadsAs(WithContexts(None, None, None, Some(JObject([(key, JString(context))]))), opts);
    DefaultTargetRun(args, opts);
    ContextsUnderTree(args.tree);
    AbsoluteUnderRoot(args.tree, rel);
    var calls := LabelCalls(args.tree, [(key, context)]);
    assert |calls| == 1 && calls[0] == Setfilecon(args.tree + "/" + rel, context);
  }

  /** `.autorelabel` is written exactly when `force_autorelabel` is true, and
      then holds `-F`. */
  lemma AutorelabelIffForced(args: Args, force: bool)
    ensures Execute(args, WithContexts(None, Some(JBool(force)), None, None)).Completed?
    ensures Execute(args, WithContexts(None, Some(JBool(force)), None, None)).autorelabel
         == if force then Some("-F") else None
  {
  }
}
