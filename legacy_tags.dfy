/** src/components/Tags.tsx: the older tags widget. It keeps the options and the selection
    as plain `{label, value}` records, without the prepare/revert normalisation, and
    de-duplicates options by whole-record identity. */
module LegacyTags {
  import opened Wrappers
  import opened Types
  import opened Helpers

  /** A record's identity for `getUniqueTags`: the whole record. `JSON.stringify` also
      depends on key insertion order, which records here do not have; two records are the
      same exactly when they are equal. */
  function Whole(t: Record): Record {
    t
  }

  /** `getUniqueTags`: the first occurrence of every distinct record, in input order. */
  function GetUniqueTags(tags: seq<Record>): (r: seq<Record>)
    ensures DistinctKeys(r, Whole)
    ensures forall t :: t in r <==> t in tags
    ensures IsSubsequence(r, tags)
  {
    UniqueByProperties(tags, Whole);
    var r := UniqueBy(tags, Whole);
    forall t ensures t in r <==> t in tags {
      if t in tags {
        var i :| 0 <= i < |tags| && tags[i] == t;
        assert Whole(t) in KeysOf(tags, Whole);
        var j :| 0 <= j < |r| && Whole(r[j]) == Whole(t);
      }
      if t in r {
        var j :| 0 <= j < |r| && r[j] == t;
        assert Whole(t) in KeysOf(r, Whole);
      }
    }
    r
  }

  lemma GetUniqueTagsIdempotent(tags: seq<Record>)
    ensures GetUniqueTags(GetUniqueTags(tags)) == GetUniqueTags(tags)
  {
    UniqueByProperties(tags, Whole);
  }

  /** Tags with the same `label` and `value` but other differing fields are both kept here,
      where `filterUniqueTags` keeps only the first. */
  lemma WholeRecordIdentity(a: Record, b: Record)
    requires LabelValue(a) == LabelValue(b) && a != b
    ensures GetUniqueTags([a, b]) == [a, b]
    ensures FilterUniqueTags(Some([a, b])) == [a]
  {
    assert FindIndex([a, b], Whole, Whole(b)) == 1;
    assert FindIndex([a, b], Whole, Whole(a)) == 0;
    assert KeepFirstFrom([a, b], Whole, 2) == [];
    assert KeepFirstFrom([a, b], Whole, 1) == [b];
    assert KeepFirstFrom([a, b], Whole, 0) == [a, b];
    FilterUniqueTagsIgnoresOtherFields(a, b);
  }

  /** The default `onCreate`: `{value, label: value}`. */
  function DefaultOnCreate(input: string): (tag: Record)
    ensures tag.Keys == {"label", "value"}
    ensures LabelValue(tag) == (Str(input), Str(input))
  {
    map["value" := Str(input), "label" := Str(input)]
  }

  /** A patch of the stored array. */
  datatype Patch = SetPatch(tags: seq<Record>) | UnsetPatch

  /** `value ? set(value) : unset(value)`: an array, even an empty one, is set. */
  function PatchFor(value: Option<seq<Record>>): (p: Patch)
    ensures p == UnsetPatch <==> value.None?
    ensures value.Some? ==> p == SetPatch(value.value)
  {
    match value
    case None => UnsetPatch
    case Some(tags) => SetPatch(tags)
  }

  /** The options the widget uses. */
  datatype Options = Options(
    fetchFromOthers: Option<bool>,
    presetOptions: Option<seq<Record>>,
    onCreate: Option<string -> Record>)

  /** The widget. The stored value and `onChange` come from the host; `patches` are the
      patches passed to `onChange`, oldest first. */
  class LegacyTagsField {
    const fetchFromOthers: bool
    const presetOptions: seq<Record>
    const onCreate: Option<string -> Record>
    var isLoading: bool
    var presetTags: seq<Record>
    var selected: Option<seq<Record>>
    var patches: seq<Patch>

    /** The first render: options default to fetching from other documents, no preset
        options and the default `onCreate`; the widget is loading with no options, and
        the selection is the stored value, `[]` when there is none. */
    constructor(options: Options, value: Option<seq<Record>>)
      ensures fetchFromOthers == options.fetchFromOthers.GetOr(true)
      ensures presetOptions == options.presetOptions.GetOr([])
      ensures onCreate == options.onCreate
      ensures isLoading && presetTags == [] && patches == []
      ensures selected == Some(value.GetOr([]))
    {
      fetchFromOthers := options.fetchFromOthers.GetOr(true);
      presetOptions := options.presetOptions.GetOr([]);
      onCreate := options.onCreate;
      isLoading := true;
      presetTags := [];
      selected := Some(value.GetOr([]));
      patches := [];
    }

    /** The mount effect: loading starts; without `fetchFromOthers` the preset options are
        used as they are (not de-duplicated) and loading ends at once. */
    method Mount()
      modifies this
      ensures fetchFromOthers ==> isLoading && presetTags == old(presetTags)
      ensures !fetchFromOthers ==> !isLoading && presetTags == presetOptions
      ensures selected == old(selected) && patches == old(patches)
    {
      isLoading := true;
      if !fetchFromOthers {
        presetTags := presetOptions;
        isLoading := false;
      }
    }

    /** An emission of the other documents' tags: the options become the unique tags of
        the preset options followed by the emitted ones, and loading ends. */
    method ReceiveOthers(allTags: Option<seq<Record>>)
      requires fetchFromOthers
      modifies this
      ensures presetTags == GetUniqueTags(presetOptions + allTags.GetOr([]))
      ensures !isLoading
      ensures selected == old(selected) && patches == old(patches)
    {
      presetTags := GetUniqueTags(presetOptions + allTags.GetOr([]));
      isLoading := false;
    }

    /** `handleChange`: the new selection is kept and emitted. */
    method HandleChange(value: Option<seq<Record>>)
      modifies this
      ensures selected == value && patches == old(patches) + [PatchFor(value)]
      ensures isLoading == old(isLoading) && presetTags == old(presetTags)
    {
      selected := value;
      patches := patches + [PatchFor(value)];
    }

    /** `handleCreate` up to its `await`. */
    method BeginCreate()
      modifies this
      ensures isLoading
      ensures selected == old(selected) && patches == old(patches) && presetTags == old(presetTags)
    {
      isLoading := true;
    }

    /** The rest of `handleCreate`: the created tag is appended to the current selection,
        the new list is emitted, and loading ends. Spreading a `null` selection throws
        inside the state update; then nothing changes and loading goes on. */
    method FinishCreate(input: string)
      modifies this
      ensures var created := match onCreate case Some(f) => f(input) case None => DefaultOnCreate(input);
        old(selected).Some? ==>
          && selected == Some(old(selected).value + [created])
          && patches == old(patches) + [SetPatch(old(selected).value + [created])]
          && !isLoading
      ensures old(selected).None? ==> selected == old(selected) && patches == old(patches) && isLoading == old(isLoading)
      ensures presetTags == old(presetTags)
    {
      var created := match onCreate case Some(f) => f(input) case None => DefaultOnCreate(input);
      if selected.Some? {
        var newValue := selected.value + [created];
        patches := patches + [PatchFor(Some(newValue))];
        selected := Some(newValue);
        isLoading := false;
      }
    }
  }

  /** With the defaults, creating a tag after any selection keeps the old tags in front
      and adds `{label: input, value: input}` last. */
  method CreateWithDefaults(field: LegacyTagsField, input: string)
    requires field.onCreate.None? && field.selected.Some?
    modifies field
    ensures field.selected.Some? && |field.selected.value| == |old(field.selected.value)| + 1
    ensures field.selected.value[..|old(field.selected.value)|] == old(field.selected.value)
    ensures LabelValue(field.selected.value[|old(field.selected.value)|]) == (Str(input), Str(input))
    ensures !field.isLoading
  {
    field.BeginCreate();
    field.FinishCreate(input);
  }
}
