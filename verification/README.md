# osbuild `org.osbuild.selinux` and `org.osbuild.mkdir` stages in Dafny

A model of two osbuild stages, taken from their test suites. In these
stages, options become concrete filesystem arguments through pure decision
logic, and that logic is what the model covers.

**`org.osbuild.selinux`** relabels a build tree. The model is a pure
function. It takes the tree path, the mount table, the mounts directory
and the raw options. It returns the calls the stage makes on the SELinux
utility layer, in order:

- `setfiles(contexts, root, subpath, exclude_paths=…)`;
- `setfilecon(path, label)`.

It also returns the content of `<tree>/.autorelabel`, if the stage writes
that marker. Four parts are modelled:

- **Option gate** (`SelinuxSchema`). This is the shape of the stage's JSON
  schema:
  - one type check per field;
  - every `targets` entry must carry the `tree://` or `mount://` scheme;
  - the top-level rule that `file_contexts` or `labels` must be present.

  `Validate` returns the list of violations. `Parse` reads accepted options
  into an `Options` value, in which a target is a `Tree`/`Mount` variant
  and not a string.
- **Target resolver** (`Locations`). A location splits like a URL, after
  section 3 of RFC 3986: a scheme, an authority up to the next `/`, then a
  path. The directory it names is found as follows:
  - `tree://…` is resolved under the tree;
  - `mount://name/…` is resolved under the path the mount table records
    for `name`;
  - `mount:///…` is resolved under the mounts directory.

  A mount name missing from the table is an error. It is never a skipped
  target.
- **Exclude rebasing** (`SelinuxStage.RebaseExcludes`). Each
  `exclude_paths` entry loses its leading slashes and is joined under the
  target's root. An unset list stays unset (`None`), which is distinct
  from an empty list.
- **Call trace** (`SelinuxStage.Run`). With `file_contexts`, the stage
  makes one `setfiles` call per target, in order. The context file is
  always read from the tree. Each call's root is the target's base (the
  tree, the mounted path or the mounts directory). Its subpath is the
  target's URL path without leading slashes, so root and subpath together
  name the target's directory. Both tests use the path `/`, so there the
  subpath is `""`. Then comes one `setfilecon` per `labels` entry, with the
  key joined under the tree. Last, the marker holds `-F` exactly when
  `force_autorelabel` is true. The pass stops at the first target that
  does not resolve.

**`org.osbuild.mkdir`** creates directories (`MkdirStage`).

- The filesystem is the set of directory paths that exist. `/` and the
  empty path always exist.
- Each `paths` entry names a directory as follows:
  - a plain path, whether absolute or relative, is taken inside the tree;
  - a `tree://` or `mount://` location is resolved as above.
- The directory is created with `os.mkdir`. When `parents` is set, it is
  created with `os.makedirs`, which also creates the missing ancestors.
- The first failure aborts the run.

`Paths` holds the path arithmetic both stages share:

- `str.lstrip("/")`;
- `os.path.join`;
- `os.path.dirname` on canonical paths;
- rebasing a tree-rooted path under a directory.

The `*Scenarios` modules restate each test case for every tree, mount path
and directory name, not just for one temporary directory.

Label keys are joined under the tree and are not passed on as literal
paths. `test_selinux.py:159` shows that the key `/tree/usr/bin/bootc` is
set on `<tree>/tree/usr/bin/bootc`.

## Model

| member | source | states |
|---|---|---|
| Paths.LStrip | stages/test/test_selinux.py:133-134 | the stripped path is no longer than the input, and it is empty or does not start with `/` |
| Paths.LStripShape | stages/test/test_selinux.py:133-134 | what is kept is a suffix of the input, and everything removed before it is `/` |
| Paths.LStripUnique | stages/test/test_selinux.py:133-134 | a run of slashes followed by any rest that does not start with `/` strips to exactly that rest |
| Paths.LStripIdempotent | stages/test/test_selinux.py:133-134 | stripping twice is stripping once |
| Paths.Rebase | stages/test/test_selinux.py:133-134 | under a non-empty root, the rebased path is the root, exactly one separator, then the stripped path |
| Paths.RebaseThenRelative | stages/test/test_selinux.py:133-134 | taking a rebased path relative to its root gives back the stripped path, so rebasing loses nothing |
| Paths.RelativeThenRebase | stages/test/test_selinux.py:133-134 | a path strictly below a root is the rebase of its relative part |
| Paths.RebaseInjective | stages/test/test_selinux.py:133-134 | two paths rebase to the same place if and only if they strip to the same relative path |
| Paths.RebaseUnderNormalized | stages/test/test_selinux.py:133-134 | under a canonical root other than `/`, the rebased path is `root + "/" + stripped`, with no doubled slash |
| Paths.Location | stages/test/test_mkdir.py:40-50 | a location's directory lies within its base, and equals the base exactly when the path is all slashes |
| Paths.Dirname | stages/test/test_mkdir.py:40-50 | the parent is a prefix of the path and strictly shorter, unless it is empty or `/`; a non-empty parent followed by a separator is a prefix of the path, so it is a real ancestor |
| Paths.DirnameOfChild | stages/test/test_mkdir.py:40-50 | the parent of `dir/name` is `dir`, so taking the parent undoes the join |
| Locations.SplitAuthority | stages/test/test_selinux.py:34-36 | authority and path concatenate back to the input; the authority holds no `/`; the path is empty or starts with `/` |
| Locations.SplitAuthorityUnique | stages/test/test_selinux.py:34-36 | the split is the only one with those properties |
| Locations.ParseTarget | stages/test/test_selinux.py:34-36 | a string parses if and only if it carries one of the two schemes; what it parses to is well formed and formats back to the same string; it is `Tree` exactly for `tree://` |
| Locations.ParseFormat | stages/test/test_selinux.py:34 | formatting a well-formed target and parsing it gives the same target back |
| Locations.TargetParts | stages/test/test_selinux.py:111-116 | a target splits into a base and a path below it without a leading slash exactly when it resolves; the base is the target's base; and the two together name the directory the target resolves to |
| Locations.ResolveTarget | stages/test/test_selinux.py:99-115 | resolution fails if and only if the target names a mount missing from the table, and the error names it; otherwise the directory lies within the target's base |
| Locations.TreeLocation | stages/test/test_mkdir.py:40-50 | `tree://…/p` names `<tree>/p` |
| Locations.MountsDirLocation | stages/test/test_mkdir.py:76-89 | `mount:///p` names `p` under the mounts directory, not under the tree |
| Locations.NamedMountLocation | stages/test/test_selinux.py:101-115 | `mount://name/` names the path the mount table records for `name` |
| SelinuxSchema.StringItemErrors | stages/test/test_selinux.py:33 | an array has no item error if and only if every item is a string |
| SelinuxSchema.TargetItemErrors | stages/test/test_selinux.py:34-36 | a target array has no item error if and only if every item is a string with a location scheme |
| SelinuxSchema.LabelErrors | stages/test/test_selinux.py:31 | a `labels` object has no value error if and only if every value is a string |
| SelinuxSchema.Validate | stages/test/test_selinux.py:29-58 | options are accepted if and only if every field has its type and `file_contexts` or `labels` is present; well-typed options with neither get exactly one error |
| SelinuxSchema.Parse | stages/test/test_selinux.py:41-47 | options are read if and only if they are valid, and rejected options carry at least one error |
| SelinuxSchema.ParseToRaw | stages/test/test_selinux.py:29-34 | reading back the raw form of any well-formed options gives those options |
| SelinuxSchema.ToRawParse | stages/test/test_selinux.py:29-34 | any valid raw options are the raw form of what they read as |
| SelinuxSchema.NoMechanismOneError | stages/test/test_selinux.py:50-54 | options without `file_contexts` and `labels`, whose other fields are well-typed, are rejected with exactly one error |
| SelinuxSchema.SingleMechanismAccepted | stages/test/test_selinux.py:55-58 | `file_contexts` alone is accepted, and so is `labels` alone |
| SelinuxSchema.TargetNeedsScheme | stages/test/test_selinux.py:34-36 | a target is accepted if and only if it carries a location scheme; a bare path gives exactly one error |
| SelinuxSchema.IllTypedFileContexts | stages/test/test_selinux.py:37-47 | a non-string `file_contexts` gives exactly one error, a type error on that field |
| SelinuxSchema.IllTypedLabels | stages/test/test_selinux.py:38-47 | a non-object `labels` gives exactly one error, a type error on that field |
| SelinuxSchema.IllTypedForceAutorelabel | stages/test/test_selinux.py:39-47 | a non-boolean `force_autorelabel` gives exactly one error, a type error on that field |
| SelinuxStage.RebaseExcludes | stages/test/test_selinux.py:119-134 | unset stays unset; one entry comes out per entry, in order; each lies below the root, and its part relative to the root is the stripped entry |
| SelinuxStage.ResolveTargets | stages/test/test_selinux.py:99-115 | the base and subpath of each leading target, in order; resolution stops at the first target that fails, and that target's error is the failure |
| SelinuxStage.ResolveTargetsFails | stages/test/test_selinux.py:99-115 | the pass fails if and only if some target does not resolve |
| SelinuxStage.Run | stages/test/test_selinux.py:163-178 | validated options are never rejected; only the bulk pass can abort; a run completes if and only if there is no bulk pass or every target resolves; the marker is written if and only if `force_autorelabel` is true, and then it holds `-F` |
| SelinuxStage.Execute | stages/test/test_selinux.py:41-47 | the stage is rejected, before any call, if and only if its options are invalid, and it reports the validation errors |
| SelinuxStage.CompletedCalls | stages/test/test_selinux.py:156-160 | a completed run's calls are the bulk pass's, one per target, followed by the label calls |
| SelinuxStage.BulkCallsShape | stages/test/test_selinux.py:113-134 | every bulk call reads the context file from the tree, its root and subpath name the directory its target resolves to, and it passes exclusions exactly when they were given |
| SelinuxStage.CompletedRunShape | stages/test/test_selinux.py:156-160 | a completed run makes one call per target and then one per label; every setfiles call reads the context file from the tree, names its target's directory through root and subpath, and passes exclusions exactly when given; every later call is the setfilecon of the matching label, key joined under the tree |
| SelinuxStage.CompletedRunRoots | stages/test/test_selinux.py:113-116 | the i-th setfiles call has the i-th target's base as its root, its URL path without leading slashes as its subpath, and the exclusions rebased under that base |
| SelinuxStage.AbortedRunStopsAtUnknownMount | stages/test/test_selinux.py:101-111 | an aborted run made setfiles calls only for the targets before the failing one; that target names a mount missing from the table, and the error names it |
| SelinuxScenarios.DefaultTargetRun | stages/test/test_selinux.py:70-75 | without `targets`, a run is one setfiles call on the tree itself with an empty subpath, then the label calls |
| SelinuxScenarios.OneTargetRun | stages/test/test_selinux.py:111-116 | a run over a single resolvable target is one setfiles call on that target's base and subpath, then the label calls |
| SelinuxScenarios.ReadsAs | stages/test/test_selinux.py:41-44 | accepted raw options run exactly as the options they are read as |
| SelinuxScenarios.FileContextsOnly | stages/test/test_selinux.py:61-75 | `file_contexts` alone gives one setfiles call `(<tree>/etc/selinux/thing, <tree>, "")` with exclusions unset, no label call and no marker |
| SelinuxScenarios.ExcludeUnderTree | stages/test/test_selinux.py:119-134 | `exclude_paths: ["/name"]` reaches setfiles as `[<tree>/name]` |
| SelinuxScenarios.MountTargetRoot | stages/test/test_selinux.py:99-116 | target `mount://root/` gives one setfiles call on the mounted path, while the context file is still read from the tree |
| SelinuxScenarios.LabelUnderTree | stages/test/test_selinux.py:144-160 | one `labels` entry gives one setfiles call and then one setfilecon, on the key joined under the tree, with the label unchanged |
| SelinuxScenarios.AutorelabelIffForced | stages/test/test_selinux.py:163-178 | the run completes; `.autorelabel` is written if and only if `force_autorelabel` is true, and then it holds `-F` |
| MkdirStage.NoColonNoSeparator | stages/test/test_mkdir.py:20-21 | a path without a colon is never taken for a location URL |
| MkdirStage.ResolvePath | stages/test/test_mkdir.py:18-30 | a plain path always resolves, and lands within the tree; a `://` string with any other scheme is an unsupported-scheme error |
| MkdirStage.MakeDir | stages/test/test_mkdir.py:18-30 | `mkdir` succeeds if and only if the directory is new and its parent exists, or it exists and `exist_ok` is set; it adds at most that directory and keeps the filesystem tree-shaped |
| MkdirStage.AddDirs | stages/test/test_mkdir.py:37-50 | afterwards the directory and its parent exist, nothing is removed, every added directory is the requested one or an ancestor of it, and tree shape is kept |
| MkdirStage.MakeDirs | stages/test/test_mkdir.py:37-50 | `makedirs` fails if and only if the directory exists and `exist_ok` is unset; otherwise the directory exists afterwards and every directory added is it or an ancestor of it |
| MkdirStage.MakeDirsAsMakeDir | stages/test/test_mkdir.py:37-50 | where the parent already exists, `makedirs` and `mkdir` agree |
| MkdirStage.CreateOne | stages/test/test_mkdir.py:18-30 | a created entry resolved, and its directory exists afterwards; every directory added is it or an ancestor of it |
| MkdirStage.Run | stages/test/test_mkdir.py:14-30 | after a successful run every entry's directory exists, nothing was removed, every new directory is some entry's directory or an ancestor of it, and a tree-shaped filesystem stays tree-shaped |
| MkdirScenarios.PlainPathIsTreePath | stages/test/test_mkdir.py:19-30 | for a colon-free `rel`, `/rel`, `rel` and `tree:///rel` all name the same directory |
| MkdirScenarios.AbsoluteAndRelative | stages/test/test_mkdir.py:14-30 | `paths: ["/a", "b"]` adds exactly `<tree>/a` and `<tree>/b` |
| MkdirScenarios.MakeDirsTwoLevels | stages/test/test_mkdir.py:37-50 | `makedirs` on `<root>/parent/leaf`, with `<root>/parent` missing, adds exactly those two directories |
| MkdirScenarios.UrlResolves | stages/test/test_mkdir.py:40-50 | a location URL with no authority and path `/rel`, for a non-empty `rel` not starting with `/`, whose base is a canonical directory other than `/`, names `<base>/rel` |
| MkdirScenarios.TreeLocationWithParents | stages/test/test_mkdir.py:33-50 | `tree:///parent/leaf` with `parents` adds exactly `<tree>/parent` and `<tree>/parent/leaf` |
| MkdirScenarios.MountLocationWithParents | stages/test/test_mkdir.py:55-89 | `mount:///parent/leaf` with `parents` adds exactly `<mounts>/parent` and `<mounts>/parent/leaf`, under the mounts directory and not the tree |
| MkdirScenarios.MissingParentWithoutParents | stages/test/test_mkdir.py:37-50 | `tree:///parent/leaf` without `parents`, with `<tree>/parent` missing, fails and names `<tree>/parent/leaf` |

## Left out

- The stage sources themselves are not part of this model: `stages/org.osbuild.selinux`, `stages/org.osbuild.mkdir` and the location parser in `osbuild/util/parsing.py`. Their behaviour is taken from the two test files.
- Subprocess and disk plumbing is I/O: `mkfs.ext4`, `mount`/`umount`, disk images, and the root and executable skip conditions.
- The SELinux utilities are foreign calls. `setfiles` and `setfilecon` appear only as recorded call events. Failures they would raise, and failures writing `.autorelabel`, are not modelled.
- The JSON-schema engine and its message text are not modelled. Violations are error values, and only their number and kind are stated.
- Option keys outside the five known fields are not modelled, because the raw options have exactly those fields.
- SelinuxSchema.Validate: `labels` counts as present even when it is an empty object. A "non-empty" reading of the gate is not modelled, because no test tells the two apart.
- Path normalisation is not modelled (`.`, `..`, repeated slashes, `mounts / "."`). Paths are assumed canonical.
- URL query and fragment parts are not split off. A `tree://` authority is carried but plays no part in resolution.
- Directory modes and umask are left out. The mkdir filesystem holds directories only, so a regular file in the way is not modelled.
- SelinuxStage.Run: the tests fix setfiles' arguments only for targets whose URL path is `/`. For a deeper path such as `tree:///boot/efi`, the model passes the target's base as the root and `boot/efi` as the subpath, and rebases exclusions under the base. It does not label `<tree>/boot/efi` as a root of its own.
- SelinuxStage.Run: the context-file path is `file_contexts` with its leading slashes stripped and joined under the tree, so an absolute `file_contexts` such as `/etc/x` is read from `<tree>/etc/x`. A plain `os.path.join(tree, "/etc/x")` would give `/etc/x` instead. The tests use only a relative `file_contexts`, so the two readings agree on them.
- MkdirStage.PathItem: `exist_ok` appears in neither test. It is modelled as a per-entry flag that defaults to off in every scenario. `parents` and `exist_ok` are read by truth value, so the tests' `"parents": 1` is `true`.
- Paths.Location: an empty URL path, as in `tree://` or `mount://name`, names the base itself. Python's `os.path.relpath("", "/")` would raise instead, and the code that decides this case is not part of this model.
- SelinuxSchema.Validate: duplicate keys in a `labels` object are not rejected. Each is carried through and gives its own setfilecon call. A Python dict cannot hold a key twice, so real options never reach this case.
- Schemes other than `tree://` and `mount://` are a mkdir resolution error (`UnsupportedScheme`). No other scheme is modelled.
