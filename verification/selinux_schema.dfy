/** The option schema of the selinux stage, as a logical shape: per-field
    types, the location schemes allowed in `targets`, and the top-level rule
    that `file_contexts` or `labels` must be given. Validation yields one
    error per violated constraint (the error count the stage's tests check),
    not the JSON-schema engine's message text. */
module SelinuxSchema {
  import opened Results
  import opened Locations

  /** A JSON value. An object is its members in insertion order. Nothing
      here keeps its keys distinct: a repeated key is carried as given. */
  datatype Json =
    | JNull
    | JBool(b: bool)
    | JNumber(n: int)
    | JString(s: string)
    | JArray(items: seq<Json>)
    | JObject(members: seq<(string, Json)>)

  /** The stage's options object before validation, one entry per property
      the schema declares; `None` means the key is absent. */
  datatype RawOptions = RawOptions(
    fileContexts: Option<Json>,
    excludePaths: Option<Json>,
    forceAutorelabel: Option<Json>,
    targets: Option<Json>,
    labels: Option<Json>)

  datatype Field = FileContexts | ExcludePaths | ForceAutorelabel | Targets | Labels

  datatype SchemaError =
    | NotOfType(field: Field)                  // the property has the wrong JSON type
    | ItemNotString(field: Field, index: nat)  // an `exclude_paths` entry is not a string
    | LabelNotString(key: string)              // a `labels` value is not a string
    | NoSchemeMatches(index: nat)              // a `targets` entry is neither `tree://…` nor `mount://…`
    | NoLabelingMechanism                      // neither `file_contexts` nor `labels` is given

  /** Validated options. Unset stays distinct from every value, in particular
      an unset `exclude_paths` from an empty list. */
  datatype Options = Options(
    fileContexts: Option<string>,
    excludePaths: Option<seq<string>>,
    forceAutorelabel: Option<bool>,
    targets: Option<seq<Target>>,
    labels: Option<seq<(string, string)>>)
  {
    /** The targets, defaulting to the whole tree (`tree:///`). */
    function TargetList(): seq<Target>
    {
      targets.GetOr([Tree([], "/")])
    }

    function LabelList(): seq<(string, string)>
    {
      labels.GetOr([])
    }

    function Force(): bool
    {
      forceAutorelabel.GetOr(false)
    }
  }

  // ---------------------------------------------------------------------
  // The schema's shape, stated as predicates

  predicate IsTarget(j: Json)
  {
    j.JString? && HasScheme(j.s)
  }

  predicate StringArray(j: Json)
  {
    j.JArray? && forall i | 0 <= i < |j.items| :: j.items[i].JString?
  }

  predicate TargetArray(j: Json)
  {
    j.JArray? && forall i | 0 <= i < |j.items| :: IsTarget(j.items[i])
  }

  predicate StringMap(j: Json)
  {
    j.JObject? && forall i | 0 <= i < |j.members| :: j.members[i].1.JString?
  }

  /** Every property that is present has the type the schema declares. */
  predicate FieldsConform(raw: RawOptions)
  {
    && (raw.fileContexts.Some? ==> raw.fileContexts.value.JString?)
    && (raw.excludePaths.Some? ==> StringArray(raw.excludePaths.value))
    && (raw.forceAutorelabel.Some? ==> raw.forceAutorelabel.value.JBool?)
    && (raw.targets.Some? ==> TargetArray(raw.targets.value))
    && (raw.labels.Some? ==> StringMap(raw.labels.value))
  }

  /** At least one labeling mechanism is given. */
  predicate HasMechanism(raw: RawOptions)
  {
    raw.fileContexts.Some? || raw.labels.Some?
  }

  predicate Valid(raw: RawOptions)
  {
    FieldsConform(raw) && HasMechanism(raw)
  }

  // ---------------------------------------------------------------------
  // Validation

  /** One error per `exclude_paths` entry that is not a string. */
  function StringItemErrors(items: seq<Json>, field: Field, from: nat): (r: seq<SchemaError>)
    ensures r == [] <==> forall i | 0 <= i < |items| :: items[i].JString?
    ensures |r| <= |items|
    decreases |items|
  {
    if items == [] then []
    else
      (if items[0].JString? then [] else [ItemNotString(field, from)])
      + StringItemErrors(items[1..], field, from + 1)
  }

  /** One error per `targets` entry without a location scheme. */
  function TargetItemErrors(items: seq<Json>, from: nat): (r: seq<SchemaError>)
    ensures r == [] <==> forall i | 0 <= i < |items| :: IsTarget(items[i])
    ensures |r| <= |items|
    decreases |items|
  {
    if items == [] then []
    else
      (if IsTarget(items[0]) then [] else [NoSchemeMatches(from)])
      + TargetItemErrors(items[1..], from + 1)
  }

  /** One error per `labels` value that is not a string. */
  function LabelErrors(members: seq<(string, Json)>): (r: seq<SchemaError>)
    ensures r == [] <==> forall i | 0 <= i < |members| :: members[i].1.JString?
    ensures |r| <= |members|
  {
    if members == [] then []
    else
      (if members[0].1.JString? then [] else [LabelNotString(members[0].0)])
      + LabelErrors(members[1..])
  }

  function FileContextsErrors(v: Option<Json>): seq<SchemaError>
  {
    if v.Some? && !v.value.JString? then [NotOfType(FileContexts)] else []
  }

  function ExcludePathsErrors(v: Option<Json>): seq<SchemaError>
  {
    match v
    case None => []
    case Some(JArray(items)) => StringItemErrors(items, ExcludePaths, 0)
    case Some(_) => [NotOfType(ExcludePaths)]
  }

  function ForceAutorelabelErrors(v: Option<Json>): seq<SchemaError>
  {
    if v.Some? && !v.value.JBool? then [NotOfType(ForceAutorelabel)] else []
  }

  function TargetsErrors(v: Option<Json>): seq<SchemaError>
  {
    match v
    case None => []
    case Some(JArray(items)) => TargetItemErrors(items, 0)
    case Some(_) => [NotOfType(Targets)]
  }

  function LabelsErrors(v: Option<Json>): seq<SchemaError>
  {
    match v
    case None => []
    case Some(JObject(members)) => LabelErrors(members)
    case Some(_) => [NotOfType(Labels)]
  }

  /** Every constraint the options violate. The options are accepted exactly
      when they conform field by field and name a labeling mechanism; with
      conforming fields and no mechanism there is exactly one error. */
  function Validate(raw: RawOptions): (r: seq<SchemaError>)
    ensures r == [] <==> Valid(raw)
    ensures FieldsConform(raw) && !HasMechanism(raw) ==> r == [NoLabelingMechanism]
  {
    FileContextsErrors(raw.fileContexts)
    + ExcludePathsErrors(raw.excludePaths)
    + ForceAutorelabelErrors(raw.forceAutorelabel)
    + TargetsErrors(raw.targets)
    + LabelsErrors(raw.labels)
    + (if HasMechanism(raw) then [] else [NoLabelingMechanism])
  }

  // ---------------------------------------------------------------------
  // Conversion between raw and validated options

  function ReadStrings(items: seq<Json>): seq<string>
    requires forall i | 0 <= i < |items| :: items[i].JString?
  {
    seq(|items|, i requires 0 <= i < |items| => items[i].s)
  }

  function ReadTargets(items: seq<Json>): seq<Target>
    requires forall i | 0 <= i < |items| :: IsTarget(items[i])
  {
    seq(|items|, i requires 0 <= i < |items| && IsTarget(items[i]) => ParseTarget(items[i].s).value)
  }

  function ReadLabels(members: seq<(string, Json)>): seq<(string, string)>
    requires forall i | 0 <= i < |members| :: members[i].1.JString?
  {
    seq(|members|, i requires 0 <= i < |members| => (members[i].0, members[i].1.s))
  }

  /** Validates the options and, when they are accepted, reads them. */
  function Parse(raw: RawOptions): (r: Result<Options, seq<SchemaError>>)
    ensures r.Err? <==> !Valid(raw)
    ensures r.Err? ==> r.error != []
  {
    var errors := Validate(raw);
    if errors != [] then Err(errors)
    else
      Ok(Options(
        if raw.fileContexts.Some? then Some(raw.fileContexts.value.s) else None,
        if raw.excludePaths.Some? then Some(ReadStrings(raw.excludePaths.value.items)) else None,
        if raw.forceAutorelabel.Some? then Some(raw.forceAutorelabel.value.b) else None,
        if raw.targets.Some? then Some(ReadTargets(raw.targets.value.items)) else None,
        if raw.labels.Some? then Some(ReadLabels(raw.labels.value.members)) else None))
  }

  /** Options that some raw options object parses to. */
  predicate WellFormedOptions(o: Options)
  {
    && (o.fileContexts.Some? || o.labels.Some?)
    && (o.targets.Some? ==> forall i | 0 <= i < |o.targets.value| :: WellFormed(o.targets.value[i]))
  }

  /** Writes validated options back as a JSON options object. */
  function ToRaw(o: Options): RawOptions
  {
    RawOptions(
      if o.fileContexts.Some? then Some(JString(o.fileContexts.value)) else None,
      if o.excludePaths.Some? then
        var e := o.excludePaths.value;
        Some(JArray(seq(|e|, i requires 0 <= i < |e| => JString(e[i]))))
      else None,
      if o.forceAutorelabel.Some? then Some(JBool(o.forceAutorelabel.value)) else None,
      if o.targets.Some? then
        var t := o.targets.value;
        Some(JArray(seq(|t|, i requires 0 <= i < |t| => JString(FormatTarget(t[i])))))
      else None,
      if o.labels.Some? then
        var l := o.labels.value;
        Some(JObject(seq(|l|, i requires 0 <= i < |l| => (l[i].0, JString(l[i].1)))))
      else None)
  }

  /** Well-formed options survive being written out and validated again. */
  lemma ParseToRaw(o: Options)
    requires WellFormedOptions(o)
    ensures Parse(ToRaw(o)) == Ok(o)
  {
    var raw := ToRaw(o);
    if o.targets.Some? {
      var t := o.targets.value;
      forall i | 0 <= i < |t|
        ensures IsTarget(raw.targets.value.items[i])
        ensures ParseTarget(raw.targets.value.items[i].s) == Some(t[i])
      {
        ParseFormat(t[i]);
      }
      assert ReadTargets(raw.targets.value.items) == t;
    }
    assert Valid(raw);
    if o.excludePaths.Some? {
      assert ReadStrings(raw.excludePaths.value.items) == o.excludePaths.value;
    }
    if o.labels.Some? {
      assert ReadLabels(raw.labels.value.members) == o.labels.value;
    }
  }

  /** Accepted options are read without loss: writing them back gives the
      original options object. */
  lemma ToRawParse(raw: RawOptions)
    requires Valid(raw)
    ensures Parse(raw).Ok? && ToRaw(Parse(raw).value) == raw
  {
    var o := Parse(raw).value;
    if raw.excludePaths.Some? {
      var items := raw.excludePaths.value.items;
      assert ToRaw(o).excludePaths.value.items == items;
    }
    if raw.targets.Some? {
      var items := raw.targets.value.items;
      assert ToRaw(o).targets.value.items == items;
    }
    if raw.labels.Some? {
      var members := raw.labels.value.members;
      assert ToRaw(o).labels.value.members == members;
    }
  }

  // ---------------------------------------------------------------------
  // The accepted and rejected option sets of the stage's tests

  /** An options object naming no labeling mechanism, and whose other
      fields are well-typed, is rejected with exactly one error. */
  lemma NoMechanismOneError(raw: RawOptions)
    requires FieldsConform(raw)
    requires raw.fileContexts.None? && raw.labels.None?
    ensures !Valid(raw) && Validate(raw) == [NoLabelingMechanism]
  {
  }

  /** `file_contexts` alone is accepted, and so is `labels` alone. */
  lemma SingleMechanismAccepted(fileContexts: string, labels: seq<(string, string)>)
    ensures Valid(RawOptions(Some(JString(fileContexts)), None, None, None, None))
    ensures Valid(ToRaw(Options(None, None, None, None, Some(labels))))
  {
  }

  /** A `targets` entry is accepted exactly when it carries the `tree://` or
      `mount://` scheme; a bare path is one error. */
  lemma TargetNeedsScheme(raw: RawOptions, target: string)
    requires FieldsConform(raw.(targets := None)) && HasMechanism(raw)
    requires raw.targets == Some(JArray([JString(target)]))
    ensures Valid(raw) <==> HasScheme(target)
    ensures !HasScheme(target) ==> Validate(raw) == [NoSchemeMatches(0)]
  {
  }

  /** A `file_contexts` that is not a string is exactly one error. */
  lemma IllTypedFileContexts(raw: RawOptions)
    requires FieldsConform(raw.(fileContexts := None))
    requires raw.fileContexts.Some? && !raw.fileContexts.value.JString?
    ensures Validate(raw) == [NotOfType(FileContexts)]
  {
  }

  /** A `labels` that is not an object is exactly one error. */
  lemma IllTypedLabels(raw: RawOptions)
    requires FieldsConform(raw.(labels := None))
    requires raw.labels.Some? && !raw.labels.value.JObject?
    ensures Validate(raw) == [NotOfType(Labels)]
  {
  }

  /** A `force_autorelabel` that is not a boolean is exactly one error. */
  lemma IllTypedForceAutorelabel(raw: RawOptions)
    requires FieldsConform(raw.(forceAutorelabel := None)) && HasMechanism(raw)
    requires raw.forceAutorelabel.Some? && !raw.forceAutorelabel.value.JBool?
    ensures Validate(raw) == [NotOfType(ForceAutorelabel)]
  {
  }
}
