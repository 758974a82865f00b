/** The selinux stage: from validated options, the tree, the mount table and
    the mounts directory to the calls it makes on the SELinux utilities and
    the `.autorelabel` marker it leaves. The utilities are not modelled;
    each call is recorded as an event, in the order the stage makes them. */
module SelinuxStage {
  import opened Results
  import opened Paths
  import opened Locations
  import opened SelinuxSchema

  /** A call on the SELinux utility layer. `Setfiles` restores contexts from
      a file-contexts specification on the directory `subpath` names below
      `root`, with `root` as the root the specification's paths are taken
      against; `excludes` is `None` when the stage passes no exclusion list
      at all. `Setfilecon` sets one label. */
  datatype Call =
    | Setfiles(contexts: string, root: string, subpath: string, excludes: Option<seq<string>>)
    | Setfilecon(path: string, context: string)

  /** How a run ends. `Rejected`: the options failed validation and nothing
      ran. `Aborted`: a target did not resolve; the calls made before it
      stand. `Completed`: every call made, and the `.autorelabel` content
      written (`None` when the marker is not written). */
  datatype Outcome =
    | Rejected(errors: seq<SchemaError>)
    | Aborted(calls: seq<Call>, error: ResolveError)
    | Completed(calls: seq<Call>, autorelabel: Option<string>)

  /** Content of `<tree>/.autorelabel`: relabel with force on next boot. */
  const AutorelabelFlag: string := "-F"

  /** The exclusion list for one resolved root: each tree-rooted entry moved
      under the root. Unset stays unset. */
  function RebaseExcludes(root: string, excludes: Option<seq<string>>): (r: Option<seq<string>>)
    ensures r.None? <==> excludes.None?
    ensures r.Some? ==> |r.value| == |excludes.value|
    ensures r.Some? && root != [] ==>
      forall i | 0 <= i < |r.value| :: RelativeTo(root, r.value[i]) == Some(LStrip(excludes.value[i]))
  {
    match excludes
    case None => None
    case Some(e) =>
      var r := seq(|e|, i requires 0 <= i < |e| => Rebase(root, e[i]));
      forall i | 0 <= i < |e| && root != []
        ensures RelativeTo(root, r[i]) == Some(LStrip(e[i]))
      {
        RebaseThenRelative(root, e[i]);
      }
      Some(r)
  }

  /** The setfiles call for one resolved target, given as its base and the
      path below it: the exclusions are moved under the base. */
  function SetfilesFor(contexts: string, parts: (string, string), excludes: Option<seq<string>>): Call
  {
    Setfiles(contexts, parts.0, parts.1, RebaseExcludes(parts.0, excludes))
  }

  /** The targets resolved, in order, each as its base and the path below
      it, up to the first target that does not resolve, and why that one
      did not. */
  datatype Pass = Pass(parts: seq<(string, string)>, failure: Option<ResolveError>)

  /** Resolves the targets one after another, stopping at the first that
      does not resolve. */
  function ResolveTargets(args: Args, targets: seq<Target>): (r: Pass)
    ensures |r.parts| <= |targets|
    ensures r.failure.None? ==> |r.parts| == |targets|
    ensures r.failure.Some? ==>
      |r.parts| < |targets| && ResolveTarget(targets[|r.parts|], args) == Err(r.failure.value)
    ensures forall i | 0 <= i < |r.parts| :: TargetParts(targets[i], args) == Ok(r.parts[i])
    decreases |targets|
  {
    if targets == [] then Pass([], None)
    else
      match TargetParts(targets[0], args)
      case Err(e) => Pass([], Some(e))
      case Ok(part) =>
        var rest := ResolveTargets(args, targets[1..]);
        Pass([part] + rest.parts, rest.failure)
  }

  /** Resolution fails exactly when some target does not resolve. */
  lemma ResolveTargetsFails(args: Args, targets: seq<Target>)
    ensures ResolveTargets(args, targets).failure.None?
        <==> forall i | 0 <= i < |targets| :: ResolveTarget(targets[i], args).Ok?
  {
    var r := ResolveTargets(args, targets);
    if r.failure.Some? {
      assert !ResolveTarget(targets[|r.parts|], args).Ok?;
    }
  }

  /** The bulk pass over resolved targets: one setfiles call per target, in
      order. */
  function SetfilesCalls(contexts: string, parts: seq<(string, string)>, excludes: Option<seq<string>>): seq<Call>
  {
    seq(|parts|, i requires 0 <= i < |parts| => SetfilesFor(contexts, parts[i], excludes))
  }

  /** One setfilecon call per `labels` entry, in the mapping's order. */
  function LabelCalls(tree: string, labels: seq<(string, string)>): seq<Call>
  {
    seq(|labels|, i requires 0 <= i < |labels| => Setfilecon(Rebase(tree, labels[i].0), labels[i].1))
  }

  /** The stage on validated options: the bulk pass when `file_contexts` is
      given, then the explicit labels, then the marker. */
  function Run(args: Args, opts: Options): (r: Outcome)
    ensures !r.Rejected?
    ensures r.Aborted? ==> opts.fileContexts.Some?
    ensures r.Completed? <==>
      opts.fileContexts.None? || forall i | 0 <= i < |opts.TargetList()| :: ResolveTarget(opts.TargetList()[i], args).Ok?
    ensures r.Completed? ==> (r.autorelabel.Some? <==> opts.Force())
    ensures r.Completed? && r.autorelabel.Some? ==> r.autorelabel.value == AutorelabelFlag
  {
    if opts.fileContexts.None? then Finish(args, opts, [])
    else
      var pass := ResolveTargets(args, opts.TargetList());
      ResolveTargetsFails(args, opts.TargetList());
      var bulk := SetfilesCalls(Rebase(args.tree, opts.fileContexts.value), pass.parts, opts.excludePaths);
      if pass.failure.Some? then Aborted(bulk, pass.failure.value)
      else Finish(args, opts, bulk)
  }

  /** The end of a run whose bulk pass made `bulk`: the explicit labels, then
      the marker. */
  function Finish(args: Args, opts: Options, bulk: seq<Call>): (r: Outcome)
  {
    Completed(bulk + LabelCalls(args.tree, opts.LabelList()),
              if opts.Force() then Some(AutorelabelFlag) else None)
  }

  /** The stage as the pipeline runs it: options are validated before any
      call is made. */
  function Execute(args: Args, raw: RawOptions): (r: Outcome)
    ensures r.Rejected? <==> !Valid(raw)
    ensures r.Rejected? ==> r.errors == Validate(raw)
  {
    match Parse(raw)
    case Err(errors) => Rejected(errors)
    case Ok(opts) => Run(args, opts)
  }

  // ---------------------------------------------------------------------
  // The shape of a completed run

  /** Number of setfiles calls a run makes. */
  function BulkCount(opts: Options): nat
  {
    if opts.fileContexts.Some? then |opts.TargetList()| else 0
  }

  /** The setfiles calls of a run that did not abort. */
  function BulkCalls(args: Args, opts: Options): seq<Call>
  {
    if opts.fileContexts.None? then []
    else SetfilesCalls(Rebase(args.tree, opts.fileContexts.value),
                       ResolveTargets(args, opts.TargetList()).parts, opts.excludePaths)
  }

  /** The calls of a completed run: the bulk pass's, then one per label. */
  lemma CompletedCalls(args: Args, opts: Options)
    requires Run(args, opts).Completed?
    ensures Run(args, opts).calls == BulkCalls(args, opts) + LabelCalls(args.tree, opts.LabelList())
    ensures |BulkCalls(args, opts)| == BulkCount(opts)
  {
    if opts.fileContexts.Some? {
      ResolveTargetsFails(args, opts.TargetList());
    }
  }

  /** Every setfiles call of the bulk pass reads the context file from the
      tree, labels the directory its target names, and passes an exclusion
      list exactly when `exclude_paths` was given. */
  lemma BulkCallsShape(args: Args, opts: Options)
    ensures |BulkCalls(args, opts)| <= |opts.TargetList()|
    ensures forall i | 0 <= i < |BulkCalls(args, opts)| ::
      && BulkCalls(args, opts)[i].Setfiles?
      && BulkCalls(args, opts)[i].contexts == Rebase(args.tree, opts.fileContexts.value)
      && ResolveTarget(opts.TargetList()[i], args).Ok?
      && Location(BulkCalls(args, opts)[i].root, BulkCalls(args, opts)[i].subpath)
         == ResolveTarget(opts.TargetList()[i], args).value
      && (BulkCalls(args, opts)[i].excludes.None? <==> opts.excludePaths.None?)
  {
  }

  /** A completed run makes the setfiles calls first, one per target, then one
      setfilecon per label. Every setfiles call reads the context file from
      the tree, whichever target it labels, labels the directory its target
      names, and passes an exclusion list exactly when `exclude_paths` was
      given. */
  lemma CompletedRunShape(args: Args, opts: Options)
    requires Run(args, opts).Completed?
    ensures |Run(args, opts).calls| == BulkCount(opts) + |opts.LabelList()|
    ensures forall i | 0 <= i < BulkCount(opts) ::
      && Run(args, opts).calls[i].Setfiles?
      && Run(args, opts).calls[i].contexts == Rebase(args.tree, opts.fileContexts.value)
      && Location(Run(args, opts).calls[i].root, Run(args, opts).calls[i].subpath)
         == ResolveTarget(opts.TargetList()[i], args).value
      && (Run(args, opts).calls[i].excludes.None? <==> opts.excludePaths.None?)
    ensures forall i | BulkCount(opts) <= i < |Run(args, opts).calls| ::
      Run(args, opts).calls[i]
        == Setfilecon(Rebase(args.tree, opts.LabelList()[i - BulkCount(opts)].0),
                      opts.LabelList()[i - BulkCount(opts)].1)
  {
    var calls := Run(args, opts).calls;
    var k := BulkCount(opts);
    var bulk := BulkCalls(args, opts);
    var labelCalls := LabelCalls(args.tree, opts.LabelList());
    CompletedCalls(args, opts);
    BulkCallsShape(args, opts);
    assert forall i | 0 <= i < k :: calls[i] == bulk[i];
    assert forall i | k <= i < |calls| :: calls[i] == labelCalls[i - k];
  }

  /** In a completed run, setfiles is given each target's base as its root,
      the target's path below it without leading slashes, and the
      exclusions rebased under that same base. */
  lemma CompletedRunRoots(args: Args, opts: Options, i: nat)
    requires Run(args, opts).Completed?
    requires opts.fileContexts.Some? && i < |opts.TargetList()|
    ensures Base(opts.TargetList()[i], args).Some?
    ensures var root := Base(opts.TargetList()[i], args).value;
      Run(args, opts).calls[i]
        == Setfiles(Rebase(args.tree, opts.fileContexts.value), root, LStrip(opts.TargetList()[i].path),
                    RebaseExcludes(root, opts.excludePaths))
  {
    CompletedCalls(args, opts);
    var parts := ResolveTargets(args, opts.TargetList()).parts;
    assert Run(args, opts).calls[i] == BulkCalls(args, opts)[i];
    assert TargetParts(opts.TargetList()[i], args) == Ok(parts[i]);
  }

  /** An aborted run stopped at the first target naming an unknown mount:
      it made the setfiles calls for the targets before it and nothing else,
      and wrote no marker. */
  lemma AbortedRunStopsAtUnknownMount(args: Args, opts: Options)
    requires Run(args, opts).Aborted?
    ensures var r := Run(args, opts);
      && |r.calls| < |opts.TargetList()|
      && (forall i | 0 <= i < |r.calls| :: r.calls[i].Setfiles?)
      && (forall i | 0 <= i < |r.calls| :: ResolveTarget(opts.TargetList()[i], args).Ok?)
      && var t := opts.TargetList()[|r.calls|];
         t.Mount? && t.authority != [] && t.authority !in args.mounts
         && r.error == UnknownMount(t.authority)
  {
    var pass := ResolveTargets(args, opts.TargetList());
    assert |Run(args, opts).calls| == |pass.parts|;
  }
}
