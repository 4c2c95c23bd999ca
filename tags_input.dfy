/** src/components/TagsInput.tsx: the input widget's rules.

    The widget resolves its options, decides which warnings and which kind of select to
    show, sets the loading flags of its four sources when it mounts, feeds what the sources
    emit into the option groups and the selection, and turns every change of the selection
    into a patch of the stored value. Rendering is not modelled; each subscription callback
    and each handler is a method of `TagsInputField`, and `Settle` runs the two effects that
    React runs after a render. */
module TagsInput {
  import opened Wrappers
  import opened Types
  import opened Paths
  import opened Helpers
  import opened Mutators
  import opened Hooks
  import opened Observables

  /** `InputOptions`. An absent option is `None`; `includeFromReference` and
      `includeFromRelated` are `None` when absent or `false`. */
  datatype InputOptions = InputOptions(
    predefinedTags: Option<PredefinedTags>,
    includeFromReference: Option<string>,
    includeFromRelated: Option<string>,
    customLabel: Option<string>,
    customValue: Option<string>,
    allowCreate: Option<bool>,
    onCreate: Option<string -> Record>,
    checkValid: Option<(string, seq<Value>) -> bool>)

  /** The parts of `schemaType` the widget reads: the shape `isSchemaMulti` and
      `isSchemaReference` inspect, `options`, and the name of `schemaType.type`. */
  datatype SchemaType = SchemaType(shape: Record, options: Option<InputOptions>, parentType: Option<string>)

  /** The options after defaults are applied. `onCreate` is `None` for the default. */
  datatype Settings = Settings(
    predefinedTags: PredefinedTags,
    includeFromReference: Option<string>,
    includeFromRelated: Option<string>,
    cfg: PathConfig,
    allowCreate: bool,
    onCreate: Option<string -> Record>,
    checkValid: (string, seq<Value>) -> bool)

  /** The characters `String.prototype.trim` removes (white space and line terminators). */
  predicate IsWhitespace(c: char) {
    c == '\t' || c == '\n' || c == '\U{B}' || c == '\U{C}' || c == '\r' || c == ' '
    || c == '\U{A0}' || c == '\U{1680}' || ('\U{2000}' <= c <= '\U{200A}')
    || c == '\U{2028}' || c == '\U{2029}' || c == '\U{202F}' || c == '\U{205F}'
    || c == '\U{3000}' || c == '\U{FEFF}'
  }

  /** `trimStart`: a suffix of `s` that does not start with white space; only white space
      is cut off. */
  function TrimStart(s: string): (r: string)
    ensures |r| <= |s| && r == s[|s| - |r|..]
    ensures forall i :: 0 <= i < |s| - |r| ==> IsWhitespace(s[i])
    ensures r == [] || !IsWhitespace(r[0])
    ensures r == s <==> s == [] || !IsWhitespace(s[0])
  {
    if s != [] && IsWhitespace(s[0]) then
      var r := TrimStart(s[1..]);
      assert forall i :: 1 <= i < |s| - |r| ==> s[i] == s[1..][i - 1];
      r
    else s
  }

  /** `trimEnd`: a prefix of `s` that does not end with white space; only white space is
      cut off. */
  function TrimEnd(s: string): (r: string)
    ensures |r| <= |s| && r == s[..|r|]
    ensures forall i :: |r| <= i < |s| ==> IsWhitespace(s[i])
    ensures r == [] || !IsWhitespace(r[|r| - 1])
    ensures r == s <==> s == [] || !IsWhitespace(s[|s| - 1])
  {
    if s != [] && IsWhitespace(s[|s| - 1]) then
      var r := TrimEnd(s[..|s| - 1]);
      assert forall i :: |r| <= i < |s| - 1 ==> s[i] == s[..|s| - 1][i];
      r
    else s
  }

  /** `trim`: the slice of `s` that neither starts nor ends with white space, with only
      white space outside it. */
  /** `r` is the slice of `s` starting at `start`, and everything around it is white
      space. */
  predicate SliceInWhitespace(s: string, start: nat, r: string) {
    && start + |r| <= |s| && r == s[start..start + |r|]
    && (forall i :: 0 <= i < start ==> IsWhitespace(s[i]))
    && (forall i :: start + |r| <= i < |s| ==> IsWhitespace(s[i]))
  }

  /** `trim`: the slice of `s` that neither starts nor ends with white space, with only
      white space around it. */
  function Trim(s: string): (r: string)
    ensures r == [] || (!IsWhitespace(r[0]) && !IsWhitespace(r[|r| - 1]))
    ensures SliceInWhitespace(s, |s| - |TrimStart(s)|, r)
  {
    var suffix := TrimStart(s);
    var trimmed := TrimEnd(suffix);
    TrimmedSlice(s, |s| - |suffix|, suffix, trimmed);
    trimmed
  }

  /** Cutting a prefix of white space and then a suffix of white space leaves a slice with
      only white space around it. */
  lemma TrimmedSlice(s: string, start: nat, suffix: string, trimmed: string)
    requires start <= |s| && suffix == s[start..]
    requires forall i :: 0 <= i < start ==> IsWhitespace(s[i])
    requires |trimmed| <= |suffix| && trimmed == suffix[..|trimmed|]
    requires forall i :: |trimmed| <= i < |suffix| ==> IsWhitespace(suffix[i])
    requires suffix == [] || !IsWhitespace(suffix[0])
    requires trimmed == [] || !IsWhitespace(trimmed[|trimmed| - 1])
    ensures SliceInWhitespace(s, start, trimmed)
    ensures trimmed == [] || (!IsWhitespace(trimmed[0]) && !IsWhitespace(trimmed[|trimmed| - 1]))
  {
    forall i | start + |trimmed| <= i < |s|
      ensures IsWhitespace(s[i])
    {
      assert s[i] == suffix[i - start];
    }
  }

  /** A string is its own trim exactly when it neither starts nor ends with white space. */
  lemma TrimIdentity(s: string)
    ensures Trim(s) == s <==> s == [] || (!IsWhitespace(s[0]) && !IsWhitespace(s[|s| - 1]))
  {
    if TrimStart(s) != s {
      assert |TrimEnd(TrimStart(s))| <= |TrimStart(s)| < |s|;
    }
  }

  /** The default `checkValid`: the input is accepted exactly when it is not empty, is not
      one of the current values, and has no white space at either end. */
  function DefaultCheckValid(input: string, currentValues: seq<Value>): (valid: bool)
    ensures valid <==> input != [] && Str(input) !in currentValues
                       && !IsWhitespace(input[0]) && !IsWhitespace(input[|input| - 1])
  {
    TrimIdentity(input);
    Str(input) !in currentValues && input != [] && Trim(input) == input
  }

  /** `isValidNewOption`: `checkValid` judges the input against the `value` of every
      selected option and then of every selected value, in that order. */
  function IsValidNewOption(checkValid: (string, seq<Value>) -> bool, input: string,
                            selectedValues: seq<Record>, selectedOptions: seq<Record>): (valid: bool)
    ensures valid == checkValid(input, Project(selectedOptions + selectedValues, "value"))
  {
    ProjectAppend(selectedOptions, selectedValues, "value");
    checkValid(input, Project(selectedOptions, "value") + Project(selectedValues, "value"))
  }

  /** With the default `checkValid`, a new option is rejected when its text is the value
      of any selected option or selected value, and otherwise judged by its text alone. */
  lemma DefaultIsValidNewOption(input: string, selectedValues: seq<Record>, selectedOptions: seq<Record>)
    ensures IsValidNewOption((i, c) => DefaultCheckValid(i, c), input, selectedValues, selectedOptions)
        <==> && (forall t :: t in selectedOptions + selectedValues ==> Lookup(t, "value") != Str(input))
             && DefaultCheckValid(input, [])
  {
    var all := selectedOptions + selectedValues;
    var current := Project(all, "value");
    if Str(input) in current {
      var i :| 0 <= i < |current| && current[i] == Str(input);
      assert all[i] in all;
    }
  }

  /** The default `onCreate`: a new record holding the input at both custom paths (the
      value path is written last, so it wins where the paths collide). */
  function DefaultOnCreate(cfg: PathConfig, input: string): (r: Result<Record, Error>)
    ensures r.Success? <==> SafePath(cfg.LabelPath()) && SafePath(cfg.ValuePath())
    ensures r.Success? ==> r.value.Keys == {cfg.LabelPath()[0], cfg.ValuePath()[0]}
    ensures r.Success? ==> Get(r.value, cfg.ValuePath()) == Str(input)
    ensures r.Success? && (cfg.LabelPath() == cfg.ValuePath() || Disjoint(cfg.LabelPath(), cfg.ValuePath())) ==>
      Get(r.value, cfg.LabelPath()) == Str(input)
  {
    var tag :- SetAtPath(map[], cfg.LabelPath(), Str(input));
    var tag' :- SetAtPath(tag, cfg.ValuePath(), Str(input));
    if cfg.LabelPath() != cfg.ValuePath() && Disjoint(cfg.LabelPath(), cfg.ValuePath()) then
      DisjointSymmetric(cfg.LabelPath(), cfg.ValuePath());
      GetPutDisjoint(tag, cfg.ValuePath(), cfg.LabelPath(), Str(input));
      Success(tag')
    else Success(tag')
  }

  /** With the default paths a created tag is `{label: input, value: input}`, and its
      option shows the input as both label and value. */
  lemma DefaultCreateThenPrepare(input: string)
    ensures DefaultOnCreate(DefaultPaths, input) == Success(map["label" := Str(input), "value" := Str(input)])
    ensures var option := PrepareTag(DefaultPaths, DefaultOnCreate(DefaultPaths, input).value);
      option["label"] == Str(input) && option["value"] == Str(input) && option["_key"] == Str(input)
  {
    assert DefaultPaths.LabelPath() == ["label"];
    assert DefaultPaths.ValuePath() == ["value"];
  }

  /** The destructuring of `schemaType.options` with its defaults: no predefined tags, no
      reference or related source, `label` / `value` paths, creation allowed, the default
      `onCreate` and `checkValid`. */
  function Resolve(options: Option<InputOptions>): (s: Settings)
    ensures options.None? ==>
      && s.predefinedTags == NoPredefinedTags && s.includeFromReference.None? && s.includeFromRelated.None?
      && s.cfg == DefaultPaths && s.allowCreate && s.onCreate.None?
      && forall input, current :: s.checkValid(input, current) == DefaultCheckValid(input, current)
    ensures options.Some? ==>
      var given := options.value;
      && s.predefinedTags == given.predefinedTags.GetOr(NoPredefinedTags)
      && s.includeFromReference == given.includeFromReference
      && s.includeFromRelated == given.includeFromRelated
      && s.cfg == PathConfig(given.customLabel.GetOr("label"), given.customValue.GetOr("value"))
      && s.allowCreate == given.allowCreate.GetOr(true)
      && s.onCreate == given.onCreate
      && (given.checkValid.Some? ==> s.checkValid == given.checkValid.value)
      && (given.checkValid.None? ==>
            forall input, current :: s.checkValid(input, current) == DefaultCheckValid(input, current))
  {
    var o := options.GetOr(InputOptions(None, None, None, None, None, None, None, None));
    Settings(
      o.predefinedTags.GetOr(NoPredefinedTags),
      o.includeFromReference,
      o.includeFromRelated,
      PathConfig(o.customLabel.GetOr("label"), o.customValue.GetOr("value")),
      o.allowCreate.GetOr(true),
      o.onCreate,
      o.checkValid.GetOr((i, c) => DefaultCheckValid(i, c)))
  }

  /** The record `onCreate` produces for an input: the configured function's record, or
      the default one, which holds the input at the value path and fails only when a
      custom path is refused. */
  function CreateTag(settings: Settings, input: string): (r: Result<Record, Error>)
    ensures settings.onCreate.Some? ==> r == Success(settings.onCreate.value(input))
    ensures settings.onCreate.None? ==> (r.Success? <==> SafePath(settings.cfg.LabelPath()) && SafePath(settings.cfg.ValuePath()))
    ensures settings.onCreate.None? && r.Success? ==> Get(r.value, settings.cfg.ValuePath()) == Str(input)
  {
    match settings.onCreate
    case Some(onCreate) => Success(onCreate(input))
    case None => DefaultOnCreate(settings.cfg, input)
  }

  /** What the widget shows around the select. */
  datatype Display = Display(createWarning: bool, predefinedWarning: bool, creatable: bool)

  /** The two reference warnings and the choice of a creatable select: a reference field
      never gets a creatable select, and warns instead when options ask for creation or
      for predefined tags. Without options nothing is warned and only a reference field is
      not creatable. */
  function DisplayOf(schema: SchemaType): (d: Display)
    ensures d.createWarning <==> schema.options.Some? && schema.options.value.allowCreate.GetOr(true) && IsSchemaReference(schema.shape)
    ensures d.predefinedWarning <==> schema.options.Some? && schema.options.value.predefinedTags.Some? && IsSchemaReference(schema.shape)
    ensures d.creatable <==> Resolve(schema.options).allowCreate && !IsSchemaReference(schema.shape)
    ensures d.createWarning || d.predefinedWarning ==> !d.creatable
    ensures schema.options.None? ==> !d.createWarning && !d.predefinedWarning && (d.creatable <==> !IsSchemaReference(schema.shape))
  {
    var isReference := IsSchemaReference(schema.shape);
    var allowCreate := Resolve(schema.options).allowCreate;
    Display(
      schema.options.Some? && allowCreate && isReference,
      schema.options.Some? && schema.options.value.predefinedTags.Some? && isReference,
      allowCreate && !isReference)
  }

  /** The first update of the mount effect: every source is loading. */
  const AllSources: Flags :=
    map["selectedTags" := true, "predefinedTags" := true, "referenceTags" := true, "relatedTags" := true]

  /** The mount effect's updates taken together: all four sources start loading, and the
      reference and related sources are cleared at once when they are not configured. */
  function MountFlags(settings: Settings, hasParentType: bool): (flags: Flags)
    ensures flags.Keys == {"selectedTags", "predefinedTags", "referenceTags", "relatedTags"}
    ensures flags["selectedTags"] && flags["predefinedTags"]
    ensures flags["referenceTags"] <==> settings.includeFromReference.Some?
    ensures flags["relatedTags"] <==> settings.includeFromRelated.Some? && hasParentType
  {
    map["selectedTags" := true, "predefinedTags" := true,
        "referenceTags" := settings.includeFromReference.Some?,
        "relatedTags" := settings.includeFromRelated.Some? && hasParentType]
  }

  /** Clearing the reference and then the related flag of `AllSources` gives `MountFlags`. */
  lemma MountClears(settings: Settings, hasParentType: bool)
    ensures var referenceDone :=
        if settings.includeFromReference.None? then MergeFlags(AllSources, map["referenceTags" := false]) else AllSources;
      MountFlags(settings, hasParentType)
        == if !(settings.includeFromRelated.Some? && hasParentType) then MergeFlags(referenceDone, map["relatedTags" := false])
           else referenceDone
  {
    var flags := MountFlags(settings, hasParentType);
    var referenceDone :=
      if settings.includeFromReference.None? then MergeFlags(AllSources, map["referenceTags" := false]) else AllSources;
    var relatedDone :=
      if !(settings.includeFromRelated.Some? && hasParentType) then MergeFlags(referenceDone, map["relatedTags" := false])
      else referenceDone;
    assert relatedDone.Keys == flags.Keys;
    forall k | k in flags
      ensures relatedDone[k] == flags[k]
    {
    }
  }

  /** The mount effect's three updates amount to one merge of `MountFlags`. */
  lemma MountSteps(before: Flags, settings: Settings, hasParentType: bool)
    ensures var started := MergeFlags(before, AllSources);
      var referenceDone := if settings.includeFromReference.None? then MergeFlags(started, map["referenceTags" := false]) else started;
      var relatedDone := if !(settings.includeFromRelated.Some? && hasParentType) then MergeFlags(referenceDone, map["relatedTags" := false]) else referenceDone;
      relatedDone == MergeFlags(before, MountFlags(settings, hasParentType))
  {
    MountClears(settings, hasParentType);
    var reference := map["referenceTags" := false];
    var related := map["relatedTags" := false];
    if settings.includeFromReference.None? {
      MergeFlagsAssoc(before, AllSources, reference);
      if !(settings.includeFromRelated.Some? && hasParentType) {
        MergeFlagsAssoc(before, MergeFlags(AllSources, reference), related);
      }
    } else if !(settings.includeFromRelated.Some? && hasParentType) {
      MergeFlagsAssoc(before, AllSources, related);
    }
  }

  /** A `set` or `unset` patch of the stored value. */
  datatype Patch = SetPatch(tags: Tags) | UnsetPatch

  /** `tagsForEvent ? set(tagsForEvent) : unset(tagsForEvent)`: only `undefined` and
      `null` are falsy among the shapes a selection can take, so an empty list is still
      set. */
  function PatchFor(tags: Tags): (p: Patch)
    ensures p == UnsetPatch <==> tags == NoTags || tags == NullTags
    ensures p.SetPatch? ==> p.tags == tags
  {
    if tags == NoTags || tags == NullTags then UnsetPatch else SetPatch(tags)
  }

  /** Removing every tag from a multi field stores an empty list, and an `undefined`
      selection unsets the field. Clearing a single field hands `null` to revertTags,
      which throws, so no patch follows. */
  lemma ClearingPatches(cfg: PathConfig, isReference: bool)
    ensures RevertTags(cfg, true, isReference, TagList([])).Success?
    ensures PatchFor(RevertTags(cfg, true, isReference, TagList([])).value) == SetPatch(TagList([]))
    ensures PatchFor(RevertTags(cfg, false, isReference, NoTags).value) == UnsetPatch
    ensures RevertTags(cfg, false, isReference, NullTags) == Failure(NullTag)
  {
  }

  /** `[...selected, newCreateValue]` when the selection is an array, `newCreateValue`
      otherwise. */
  function AppendCreated(selected: Tags, created: Record): (r: Tags)
    ensures selected.TagList? ==> r.TagList? && |r.tags| == |selected.tags| + 1
    ensures selected.TagList? ==> r.tags[..|selected.tags|] == selected.tags && r.tags[|selected.tags|] == created
    ensures !selected.TagList? ==> r == OneTag(created)
  {
    if selected.TagList? then TagList(selected.tags + [created]) else OneTag(created)
  }

  /** The selection `handleCreate` hands to `handleChange`: the `onCreate` record,
      prepared, appended to the captured selection when that is an array and replacing
      it otherwise. */
  function CreatedSelection(client: Client, settings: Settings, input: string, base: Tags): (r: Result<Tags, Error>)
    ensures r.Success? <==> CreateTag(settings, input).Success?
                            && PrepareTags(client, settings.cfg, OneTag(CreateTag(settings, input).value)).Success?
    ensures r.Success? && base.TagList? ==>
      && r.value.TagList? && |r.value.tags| == |base.tags| + 1 && r.value.tags[..|base.tags|] == base.tags
      && OneTag(r.value.tags[|base.tags|]) == PrepareTags(client, settings.cfg, OneTag(CreateTag(settings, input).value)).value
    ensures r.Success? && !base.TagList? ==>
      r.value == PrepareTags(client, settings.cfg, OneTag(CreateTag(settings, input).value)).value
  {
    var created :- CreateTag(settings, input);
    var prepared :- PrepareTags(client, settings.cfg, OneTag(created));
    Success(AppendCreated(base, prepared.tag))
  }

  /** With the default `onCreate` and paths, creating always succeeds and adds the
      option of `{label: input, value: input}`. */
  lemma DefaultCreatedSelection(client: Client, settings: Settings, input: string, base: Tags)
    requires settings.onCreate.None? && settings.cfg == DefaultPaths
    ensures var option := PrepareTag(DefaultPaths, map["label" := Str(input), "value" := Str(input)]);
      CreatedSelection(client, settings, input, base) == Success(AppendCreated(base, option))
  {
    DefaultCreateThenPrepare(input);
    assert !IsReference(map["label" := Str(input), "value" := Str(input)]);
  }

  /** With the default `onCreate` and paths, creating on a multi field that holds a list
      keeps the list in front, adds one option, and the result can be reverted. */
  lemma DefaultCreateReverts(client: Client, settings: Settings, input: string, base: seq<Record>)
    requires settings.onCreate.None? && settings.cfg == DefaultPaths
    ensures var next := CreatedSelection(client, settings, input, TagList(base));
      && next.Success? && next.value.TagList?
      && |next.value.tags| == |base| + 1 && next.value.tags[..|base|] == base
      && RevertTags(DefaultPaths, true, false, next.value).Success?
  {
    DefaultCreateThenPrepare(input);
    assert !IsReference(map["label" := Str(input), "value" := Str(input)]);
    assert DefaultPaths.LabelPath() == ["label"] && DefaultPaths.ValuePath() == ["value"];
    var next := CreatedSelection(client, settings, input, TagList(base));
    assert next.Success?;
    RevertTagsFailure(DefaultPaths, true, false, next.value);
  }

  /** The input widget. `value` is the stored field value when it mounted. */
  class TagsInputField {
    const schema: SchemaType
    const value: Tags
    const settings: Settings
    const isMulti: bool
    const isReference: bool
    const loading: Loading
    const optionGroups: OptionGroups
    var selected: Tags
    /** The selection `handleCreate` captured when it started. */
    var createBase: Tags
    /** The patches passed to `onChange`, oldest first. */
    var patches: seq<Patch>

    ghost predicate Valid()
      reads this, optionGroups
    {
      && settings == Resolve(schema.options)
      && isMulti == IsSchemaMulti(schema.shape)
      && isReference == IsSchemaReference(schema.shape)
      && optionGroups.Valid()
    }

    /** The first render: nothing selected, no flags, loading, no options. */
    constructor(schema: SchemaType, value: Tags)
      ensures Valid()
      ensures this.schema == schema && this.value == value
      ensures selected == NoTags && patches == []
      ensures fresh(loading) && loading.loadingOptions == map[] && loading.isLoading
      ensures fresh(optionGroups) && optionGroups.options == [] && optionGroups.groupOptions == []
    {
      this.schema := schema;
      this.value := value;
      settings := Resolve(schema.options);
      isMulti := IsSchemaMulti(schema.shape);
      isReference := IsSchemaReference(schema.shape);
      loading := new Loading(Some(map[]), None);
      optionGroups := new OptionGroups(Some([]));
      selected := NoTags;
      createBase := NoTags;
      patches := [];
    }

    /** The mount effect's flag updates (the subscriptions it opens deliver later). */
    method Mount()
      modifies loading
      ensures loading.loadingOptions == MergeFlags(old(loading.loadingOptions), MountFlags(settings, schema.parentType.Some?))
      ensures loading.isLoading == old(loading.isLoading)
    {
      ghost var before := loading.loadingOptions;
      loading.SetLoadOption(AllSources);
      ghost var started := loading.loadingOptions;
      if settings.includeFromReference.None? {
        loading.SetLoadOption(map["referenceTags" := false]);
      }
      ghost var referenceDone := loading.loadingOptions;
      if !(settings.includeFromRelated.Some? && schema.parentType.Some?) {
        loading.SetLoadOption(map["relatedTags" := false]);
      }
      MountSteps(before, settings, schema.parentType.Some?);
    }

    /** The effects that follow a render: the overall loading state and the merged options
        catch up with the flags and the groups. */
    method Settle()
      requires Valid()
      modifies loading, optionGroups
      ensures Valid()
      ensures loading.loadingOptions == old(loading.loadingOptions)
      ensures loading.isLoading == AnyLoading(loading.loadingOptions)
      ensures optionGroups.groupOptions == old(optionGroups.groupOptions)
      ensures optionGroups.options == FilterUniqueTags(Some(Concat(optionGroups.groupOptions)))
    {
      loading.Recompute();
      optionGroups.Recompute();
    }

    /** The selected source's emission: the refined stored value becomes the selection and
        its flag is cleared. If the source fails, nothing changes. */
    method ReceiveSelected(client: Client)
      modifies this, loading
      ensures unchanged(this`patches) && unchanged(this`createBase)
      ensures var r := GetSelectedTags(client, settings.cfg, value, isMulti);
        && (r.Success? ==>
              && selected == r.value
              && loading.loadingOptions == MergeFlags(old(loading.loadingOptions), map["selectedTags" := false]))
        && (r.Failure? ==> selected == old(selected) && loading.loadingOptions == old(loading.loadingOptions))
      ensures loading.isLoading == old(loading.isLoading)
    {
      var r := GetSelectedTags(client, settings.cfg, value, isMulti);
      if r.Success? {
        selected := r.value;
        loading.SetLoadOption(map["selectedTags" := false]);
      }
    }

    /** A group source's emission: the refined tags replace that group and its flag is
        cleared. If the source fails, nothing changes. */
    method ReceiveGroup(name: string, r: Result<seq<Record>, Error>)
      requires Valid()
      modifies loading, optionGroups
      ensures Valid()
      ensures r.Success? ==>
        && optionGroups.groupOptions == Merge(old(optionGroups.groupOptions), [(name, TagList(r.value))])
        && loading.loadingOptions == MergeFlags(old(loading.loadingOptions), map[name := false])
      ensures r.Failure? ==>
        optionGroups.groupOptions == old(optionGroups.groupOptions) && loading.loadingOptions == old(loading.loadingOptions)
      ensures optionGroups.options == old(optionGroups.options) && loading.isLoading == old(loading.isLoading)
    {
      if r.Success? {
        optionGroups.SetTagOption([(name, TagList(r.value))]);
        loading.SetLoadOption(map[name := false]);
      }
    }

    /** The predefined source's emission. */
    method ReceivePredefined(client: Client)
      requires Valid()
      modifies loading, optionGroups
      ensures Valid()
      ensures var r := GetPredefinedTags(client, settings.cfg, settings.predefinedTags);
        && (r.Success? ==>
              && optionGroups.groupOptions == Merge(old(optionGroups.groupOptions), [("predefinedTags", TagList(r.value))])
              && loading.loadingOptions == MergeFlags(old(loading.loadingOptions), map["predefinedTags" := false])
              && Find(optionGroups.groupOptions, "predefinedTags") == Some(TagList(r.value))
              && "predefinedTags" in loading.loadingOptions && !loading.loadingOptions["predefinedTags"])
        && (r.Failure? ==>
              optionGroups.groupOptions == old(optionGroups.groupOptions) && loading.loadingOptions == old(loading.loadingOptions))
      ensures optionGroups.options == old(optionGroups.options) && loading.isLoading == old(loading.isLoading)
    {
      ReceiveGroup("predefinedTags", GetPredefinedTags(client, settings.cfg, settings.predefinedTags));
    }

    /** The reference source's emission after a notification, given what the fetch of
        the reference query returned. */
    method ReceiveReference(client: Client, fetched: Option<Nested>)
      requires Valid() && settings.includeFromReference.Some?
      modifies loading, optionGroups
      ensures Valid()
      ensures var r := RefineTags(client, settings.cfg, fetched);
        && (r.Success? ==>
              && optionGroups.groupOptions == Merge(old(optionGroups.groupOptions), [("referenceTags", TagList(r.value))])
              && loading.loadingOptions == MergeFlags(old(loading.loadingOptions), map["referenceTags" := false])
              && Find(optionGroups.groupOptions, "referenceTags") == Some(TagList(r.value))
              && "referenceTags" in loading.loadingOptions && !loading.loadingOptions["referenceTags"])
        && (r.Failure? ==>
              optionGroups.groupOptions == old(optionGroups.groupOptions) && loading.loadingOptions == old(loading.loadingOptions))
      ensures optionGroups.options == old(optionGroups.options) && loading.isLoading == old(loading.isLoading)
    {
      ReceiveGroup("referenceTags", RefineTags(client, settings.cfg, fetched));
    }

    /** The related source's emission after a notification. */
    method ReceiveRelated(client: Client, fetched: Option<Nested>)
      requires Valid() && settings.includeFromRelated.Some? && schema.parentType.Some?
      modifies loading, optionGroups
      ensures Valid()
      ensures var r := RefineTags(client, settings.cfg, fetched);
        && (r.Success? ==>
              && optionGroups.groupOptions == Merge(old(optionGroups.groupOptions), [("relatedTags", TagList(r.value))])
              && loading.loadingOptions == MergeFlags(old(loading.loadingOptions), map["relatedTags" := false])
              && Find(optionGroups.groupOptions, "relatedTags") == Some(TagList(r.value))
              && "relatedTags" in loading.loadingOptions && !loading.loadingOptions["relatedTags"])
        && (r.Failure? ==>
              optionGroups.groupOptions == old(optionGroups.groupOptions) && loading.loadingOptions == old(loading.loadingOptions))
      ensures optionGroups.options == old(optionGroups.options) && loading.isLoading == old(loading.isLoading)
    {
      ReceiveGroup("relatedTags", RefineTags(client, settings.cfg, fetched));
    }

    /** `handleChange`: the new selection is kept, and the reverted selection is emitted
        as a `set` patch, or `unset` when it is `undefined`. When reverting throws, the
        selection has changed but no patch is emitted; `ok` reports which happened. */
    method HandleChange(input: Tags) returns (ok: bool)
      modifies this
      ensures selected == input && unchanged(this`createBase)
      ensures var r := RevertTags(settings.cfg, isMulti, isReference, input);
        && ok == r.Success?
        && (r.Success? ==> patches == old(patches) + [PatchFor(r.value)])
        && (r.Failure? ==> patches == old(patches))
    {
      selected := input;
      var r := RevertTags(settings.cfg, isMulti, isReference, input);
      ok := r.Success?;
      if r.Success? {
        patches := patches + [PatchFor(r.value)];
      }
    }

    /** `handleCreate` up to its first `await`: the `handleCreate` flag is set and the
        current selection is captured. */
    method BeginCreate()
      modifies this, loading
      ensures loading.loadingOptions == MergeFlags(old(loading.loadingOptions), map["handleCreate" := true])
      ensures loading.isLoading == old(loading.isLoading)
      ensures createBase == selected == old(selected) && patches == old(patches)
    {
      loading.SetLoadOption(map["handleCreate" := true]);
      createBase := selected;
    }

    /** The rest of `handleCreate`: the selection built by `CreatedSelection` goes through
        `handleChange`, and then the flag is cleared. When creating, preparing or reverting
        throws, the flag stays set. */
    method FinishCreate(client: Client, input: string)
      modifies this, loading
      ensures loading.isLoading == old(loading.isLoading)
      ensures var next := CreatedSelection(client, settings, input, old(createBase));
        next.Failure? ==>
          selected == old(selected) && patches == old(patches) && loading.loadingOptions == old(loading.loadingOptions)
      ensures var next := CreatedSelection(client, settings, input, old(createBase));
        next.Success? ==> selected == next.value
      ensures var next := CreatedSelection(client, settings, input, old(createBase));
        next.Success? && RevertTags(settings.cfg, isMulti, isReference, next.value).Success? ==>
          && patches == old(patches) + [PatchFor(RevertTags(settings.cfg, isMulti, isReference, next.value).value)]
          && loading.loadingOptions == MergeFlags(old(loading.loadingOptions), map["handleCreate" := false])
      ensures var next := CreatedSelection(client, settings, input, old(createBase));
        next.Success? && RevertTags(settings.cfg, isMulti, isReference, next.value).Failure? ==>
          patches == old(patches) && loading.loadingOptions == old(loading.loadingOptions)
    {
      var next := CreatedSelection(client, settings, input, createBase);
      if next.Failure? {
        return;
      }
      var ok := HandleChange(next.value);
      if ok {
        loading.SetLoadOption(map["handleCreate" := false]);
      }
    }
  }

  /** A create cycle on a multi field with the default `onCreate` and paths: after
      `FinishCreate` the new option is the last element of the selection, one patch was
      emitted, and the `handleCreate` flag that `BeginCreate` set is clear again. */
  method CreateCycle(field: TagsInputField, client: Client, input: string)
    requires field.Valid() && field.isMulti && !field.isReference
    requires field.selected.TagList?
    requires field.settings.onCreate.None? && field.settings.cfg == DefaultPaths
    modifies field, field.loading
    ensures field.Valid()
    ensures field.selected.TagList? && |field.selected.tags| == |old(field.selected.tags)| + 1
    ensures field.selected.tags[..|old(field.selected.tags)|] == old(field.selected.tags)
    ensures "handleCreate" in field.loading.loadingOptions && !field.loading.loadingOptions["handleCreate"]
    ensures |field.patches| == |old(field.patches)| + 1
  {
    field.BeginCreate();
    DefaultCreateReverts(client, field.settings, input, field.createBase.tags);
    ghost var next := CreatedSelection(client, field.settings, input, field.createBase);
    assert next.Success? && RevertTags(DefaultPaths, true, false, next.value).Success?;
    field.FinishCreate(client, input);
  }
}
