/** src/utils/observables.ts: the sources of tags the input widget subscribes to, reduced
    to the pure transforms inside their pipelines.

    The listen/fetch plumbing is replaced by the values it delivers: a fetch result is a
    parameter, and a stream of notifications is the sequence of fetch results that follow
    them. */
module Observables {
  import opened Wrappers
  import opened Types
  import opened Paths
  import opened Helpers
  import opened Mutators

  /** A value a source delivers before refinement: one tag, or an array whose elements
      may themselves be arrays. */
  datatype Nested = Leaf(tag: Record) | Group(items: seq<Nested>)

  /** `flat(Infinity)`: the tags of a nested array, depth first, in order. Every tag at
      the top level is kept. */
  function Flatten(items: seq<Nested>): (tags: seq<Record>)
    ensures forall i :: 0 <= i < |items| && items[i].Leaf? ==> items[i].tag in tags
    decreases items
  {
    if items == [] then []
    else
      var head := match items[0]
        case Leaf(t) => [t]
        case Group(inner) => Flatten(inner);
      head + Flatten(items[1..])
  }

  /** `t` is a tag somewhere inside `item`, at any depth. */
  ghost predicate Occurs(item: Nested, t: Record)
    decreases item
  {
    match item
    case Leaf(tag) => tag == t
    case Group(inner) => exists i :: 0 <= i < |inner| && Occurs(inner[i], t)
  }

  /** Flattening distributes over concatenation. */
  lemma {:induction false} FlattenAppend(a: seq<Nested>, b: seq<Nested>)
    ensures Flatten(a + b) == Flatten(a) + Flatten(b)
  {
    if a == [] {
      assert a + b == b;
    } else {
      var head := match a[0] case Leaf(x) => [x] case Group(inner) => Flatten(inner);
      assert (a + b)[0] == a[0];
      assert (a + b)[1..] == a[1..] + b;
      assert Flatten(a + b) == head + Flatten(a[1..] + b);
      FlattenAppend(a[1..], b);
    }
  }

  /** A nested array inside an array contributes exactly its own flattening. */
  lemma FlattenGroup(inner: seq<Nested>)
    ensures Flatten([Group(inner)]) == Flatten(inner)
  {
    assert [Group(inner)][1..] == [];
  }

  /** Flattening keeps exactly the tags that occur at some depth: nothing is lost and
      nothing is made up. */
  lemma {:induction false} FlattenMembers(items: seq<Nested>, t: Record)
    ensures t in Flatten(items) <==> exists i :: 0 <= i < |items| && Occurs(items[i], t)
    decreases items
  {
    if items != [] {
      var head := match items[0] case Leaf(x) => [x] case Group(inner) => Flatten(inner);
      assert Flatten(items) == head + Flatten(items[1..]);
      FlattenMembers(items[1..], t);
      if items[0].Group? {
        FlattenMembers(items[0].items, t);
      }
      if t in Flatten(items[1..]) {
        var i :| 0 <= i < |items[1..]| && Occurs(items[1..][i], t);
        assert Occurs(items[i + 1], t);
      }
      if exists i :: 0 <= i < |items| && Occurs(items[i], t) {
        var i :| 0 <= i < |items| && Occurs(items[i], t);
        if i > 0 {
          assert Occurs(items[1..][i - 1], t);
        }
      }
    }
  }

  /** An array of tags, as a nested array of depth one. */
  function Leaves(tags: seq<Record>): (items: seq<Nested>)
    ensures |items| == |tags|
    ensures forall i :: 0 <= i < |tags| ==> items[i] == Leaf(tags[i])
  {
    seq(|tags|, i requires 0 <= i < |tags| => Leaf(tags[i]))
  }

  /** Flattening an array that is already flat gives back its tags. */
  lemma {:induction false} FlattenLeaves(tags: seq<Record>)
    ensures Flatten(Leaves(tags)) == tags
  {
    if tags != [] {
      assert Leaves(tags)[1..] == Leaves(tags[1..]);
      FlattenLeaves(tags[1..]);
    }
  }

  /** Flattening is idempotent. */
  lemma FlattenIdempotent(items: seq<Nested>)
    ensures Flatten(Leaves(Flatten(items))) == Flatten(items)
  {
    FlattenLeaves(Flatten(items));
  }

  /** The first map of `refineTagsPipe`: an array is flattened, anything else passes.
      `None` is `undefined` or `null`, which the next step treats alike. */
  function ToTags(raw: Option<Nested>): (tags: Tags)
    ensures raw.None? <==> tags == NoTags
    ensures raw.Some? && raw.value.Leaf? ==> tags == OneTag(raw.value.tag)
    ensures raw.Some? && raw.value.Group? ==>
      tags.TagList? && forall t :: t in tags.tags <==> Occurs(raw.value, t)
  {
    match raw
    case None => NoTags
    case Some(Leaf(t)) => OneTag(t)
    case Some(Group(items)) =>
      assert forall t :: t in Flatten(items) <==> Occurs(Group(items), t) by {
        forall t ensures t in Flatten(items) <==> Occurs(Group(items), t) {
          FlattenMembers(items, t);
        }
      }
      TagList(Flatten(items))
  }

  /** A stored field value, as the nested value the selected-tags source delivers. */
  function FromTags(tags: Tags): Option<Nested> {
    match tags
    case NoTags => None
    case NullTags => None
    case OneTag(t) => Some(Leaf(t))
    case TagList(list) => Some(Group(Leaves(list)))
  }

  /** A stored value passes the first step of the pipe unchanged, except that `null`
      reads as `undefined`; either way the prepared list is the same. */
  lemma ToTagsFromTags(client: Client, cfg: PathConfig, tags: Tags)
    ensures ToTags(FromTags(tags)) == if tags == NullTags then NoTags else tags
    ensures PrepareTagsAsList(client, cfg, ToTags(FromTags(tags))) == PrepareTagsAsList(client, cfg, tags)
  {
    if tags.TagList? {
      FlattenLeaves(tags.tags);
    }
  }

  /** `refineTagsPipe`: flatten, `prepareTagsAsList`, then `filterUniqueTags`. It always
      yields a list, never one with two tags sharing `(label, value)`, and every
      `(label, value)` of the prepared list survives. */
  function RefineTags(client: Client, cfg: PathConfig, raw: Option<Nested>): (r: Result<seq<Record>, Error>)
    ensures r.Success? <==> PrepareTagsAsList(client, cfg, ToTags(raw)).Success?
    ensures raw.None? ==> r == Success([])
    ensures r.Success? ==> DistinctKeys(r.value, LabelValue)
    ensures r.Success? ==> KeysOf(r.value, LabelValue) == KeysOf(PrepareTagsAsList(client, cfg, ToTags(raw)).value, LabelValue)
    ensures r.Success? ==> IsSubsequence(r.value, PrepareTagsAsList(client, cfg, ToTags(raw)).value)
  {
    var list :- PrepareTagsAsList(client, cfg, ToTags(raw));
    Success(FilterUniqueTags(Some(list)))
  }

  /** A flat list of plain tags refines to the de-duplicated list of their options. */
  lemma RefinePlainList(client: Client, cfg: PathConfig, tags: seq<Record>)
    requires tags == [] || !IsReference(tags[0])
    ensures RefineTags(client, cfg, Some(Group(Leaves(tags)))) == Success(FilterUniqueTags(Some(PrepareEach(cfg, tags))))
  {
    FlattenLeaves(tags);
  }

  /** The last map of `getSelectedTags`: the whole list for a multi field, otherwise its
      first element, which is `undefined` for an empty list. */
  function SelectTags(isMulti: bool, refined: seq<Record>): (selected: Tags)
    ensures isMulti ==> selected == TagList(refined)
    ensures !isMulti && refined == [] ==> selected == NoTags
    ensures !isMulti && refined != [] ==> selected == OneTag(refined[0])
  {
    if isMulti then TagList(refined)
    else if refined == [] then NoTags
    else OneTag(refined[0])
  }

  /** `getSelectedTags`: the stored field value, refined and then selected. A multi field
      gets the prepared list without `(label, value)` duplicates, in stored order; a
      single field gets the first prepared tag, or `undefined` when there is none. */
  function GetSelectedTags(client: Client, cfg: PathConfig, tags: Tags, isMulti: bool): (r: Result<Tags, Error>)
    ensures r.Success? <==> PrepareTagsAsList(client, cfg, tags).Success?
    ensures tags == NoTags || tags == NullTags ==> r == Success(if isMulti then TagList([]) else NoTags)
    ensures r.Success? && isMulti ==>
      var prepared := PrepareTagsAsList(client, cfg, tags).value;
      && r.value.TagList? && DistinctKeys(r.value.tags, LabelValue)
      && KeysOf(r.value.tags, LabelValue) == KeysOf(prepared, LabelValue)
      && IsSubsequence(r.value.tags, prepared)
    ensures r.Success? && !isMulti ==>
      var prepared := PrepareTagsAsList(client, cfg, tags).value;
      && (r.value == NoTags <==> prepared == [])
      && (prepared != [] ==> r.value == OneTag(prepared[0]))
  {
    ToTagsFromTags(client, cfg, tags);
    var refined :- RefineTags(client, cfg, FromTags(tags));
    FilterUniqueTagsHead(PrepareTagsAsList(client, cfg, tags).value);
    Success(SelectTags(isMulti, refined))
  }

  /** A single stored plain tag comes back, prepared, as the selection of a single field. */
  lemma SelectedSinglePlainTag(client: Client, cfg: PathConfig, tag: Record)
    requires !IsReference(tag)
    ensures GetSelectedTags(client, cfg, OneTag(tag), false) == Success(OneTag(PrepareTag(cfg, tag)))
  {
    ToTagsFromTags(client, cfg, OneTag(tag));
    FilterUniqueTagsSingleton(PrepareTag(cfg, tag));
  }

  /** `predefinedTagWrapper`: a single tag becomes a one-element array; an array is
      returned as it is. */
  function PredefinedTagWrapper(tags: Nested): (items: seq<Nested>)
    ensures tags.Leaf? ==> items == [tags]
    ensures tags.Group? ==> items == tags.items
  {
    match tags
    case Leaf(_) => [tags]
    case Group(items) => items
  }

  /** The `predefinedTags` option: tags, or a function that returns them. */
  datatype PredefinedTags = Static(value: Nested) | Supplier(supply: () -> Nested)

  /** The default `predefinedTags`: `[]`. */
  const NoPredefinedTags := Static(Group([]))

  /** The `tagFunction` of `getPredefinedTags`: a function is used as it is, anything else
      becomes a function that always returns it. */
  function AsSupplier(predefined: PredefinedTags): (supply: () -> Nested)
    ensures predefined.Static? ==> supply() == predefined.value
    ensures predefined.Supplier? ==> supply == predefined.supply
  {
    match predefined
    case Static(v) => () => v
    case Supplier(f) => f
  }

  /** `getPredefinedTags`: the supplied tags, wrapped into an array and refined. */
  function GetPredefinedTags(client: Client, cfg: PathConfig, predefined: PredefinedTags): (r: Result<seq<Record>, Error>)
    ensures r.Success? ==> DistinctKeys(r.value, LabelValue)
    ensures predefined == NoPredefinedTags ==> r == Success([])
  {
    RefineTags(client, cfg, Some(Group(PredefinedTagWrapper(AsSupplier(predefined)()))))
  }

  /** One predefined tag gives the same options as an array holding only it, and a
      constant gives the same options as a function returning it. */
  lemma PredefinedSingleton(client: Client, cfg: PathConfig, tag: Record)
    ensures GetPredefinedTags(client, cfg, Static(Leaf(tag)))
         == GetPredefinedTags(client, cfg, Static(Group([Leaf(tag)])))
    ensures GetPredefinedTags(client, cfg, Static(Leaf(tag)))
         == GetPredefinedTags(client, cfg, Supplier(() => Leaf(tag)))
  {
  }

  /** The parameters of the reference query. */
  datatype ReferenceParams = ReferenceParams(document: string, customLabel: string, customValue: string)

  /** The parameters of the related query. */
  datatype RelatedParams = RelatedParams(
    documentId: string, field: string, isMulti: bool, customLabel: string, customValue: string)

  /** `getTagsFromReference`'s params: only the first segment of each custom path is sent,
      so the query sees top-level keys; a path without a dot is sent whole. */
  function ReferenceQueryParams(document: string, cfg: PathConfig): (params: ReferenceParams)
    ensures params.document == document
    ensures '.' !in params.customLabel && params.customLabel <= cfg.customLabel
    ensures '.' !in params.customValue && params.customValue <= cfg.customValue
    ensures params.customLabel == cfg.customLabel <==> '.' !in cfg.customLabel
    ensures params.customValue == cfg.customValue <==> '.' !in cfg.customValue
  {
    ReferenceParams(document, FirstSegment(cfg.customLabel), FirstSegment(cfg.customValue))
  }

  /** `getTagsFromRelated`'s params, cut the same way. */
  function RelatedQueryParams(documentId: string, field: string, isMulti: bool, cfg: PathConfig): (params: RelatedParams)
    ensures params.documentId == documentId && params.field == field && params.isMulti == isMulti
    ensures '.' !in params.customLabel && params.customLabel <= cfg.customLabel
    ensures '.' !in params.customValue && params.customValue <= cfg.customValue
    ensures params.customLabel == cfg.customLabel <==> '.' !in cfg.customLabel
    ensures params.customValue == cfg.customValue <==> '.' !in cfg.customValue
  {
    RelatedParams(documentId, field, isMulti, FirstSegment(cfg.customLabel), FirstSegment(cfg.customValue))
  }

  /** What a source emitted: a value per notification, possibly ended by an error. */
  datatype Emissions = Emissions(values: seq<seq<Record>>, error: Option<Error>)

  /** `getGeneralObservable`: every listen notification triggers a fetch of the same query
      with the same params, and the refined fetch result is emitted; the first error ends
      the stream. `refined(i)` is the refined result of the fetch after notification `i`. */
  function Observe(refined: nat -> Result<seq<Record>, Error>, notifications: nat): (out: Emissions)
    ensures |out.values| <= notifications
    ensures out.error.None? ==> |out.values| == notifications
    ensures out.error.Some? ==> refined(|out.values|) == Failure(out.error.value)
    ensures forall i :: 0 <= i < |out.values| ==> refined(i) == Success(out.values[i])
  {
    if notifications == 0 then Emissions([], None)
    else
      var before := Observe(refined, notifications - 1);
      if before.error.Some? then before
      else
        var r := refined(notifications - 1);
        if r.Failure? then Emissions(before.values, Some(r.error))
        else
          var values := before.values + [r.value];
          assert forall i :: 0 <= i < |before.values| ==> values[i] == before.values[i];
          Emissions(values, None)
  }

  /** `getTagsFromReference`: the general observable over the reference query. `fetch` is
      the store answering that query with the given params after a notification; the
      refine step gets the full custom paths. */
  function GetTagsFromReference(
    client: Client, cfg: PathConfig, document: string,
    fetch: (ReferenceParams, nat) -> Option<Nested>, notifications: nat): (out: Emissions)
    ensures forall i :: 0 <= i < |out.values| ==>
      RefineTags(client, cfg, fetch(ReferenceQueryParams(document, cfg), i)) == Success(out.values[i])
    ensures out.error.None? ==> |out.values| == notifications
    ensures out.error.Some? ==>
      RefineTags(client, cfg, fetch(ReferenceQueryParams(document, cfg), |out.values|)) == Failure(out.error.value)
  {
    var params := ReferenceQueryParams(document, cfg);
    Observe((i: nat) => RefineTags(client, cfg, fetch(params, i)), notifications)
  }

  /** `getTagsFromRelated`: the general observable over the related query. */
  function GetTagsFromRelated(
    client: Client, cfg: PathConfig, documentId: string, field: string, isMulti: bool,
    fetch: (RelatedParams, nat) -> Option<Nested>, notifications: nat): (out: Emissions)
    ensures forall i :: 0 <= i < |out.values| ==>
      RefineTags(client, cfg, fetch(RelatedQueryParams(documentId, field, isMulti, cfg), i)) == Success(out.values[i])
    ensures out.error.None? ==> |out.values| == notifications
    ensures out.error.Some? ==>
      RefineTags(client, cfg, fetch(RelatedQueryParams(documentId, field, isMulti, cfg), |out.values|)) == Failure(out.error.value)
  {
    var params := RelatedQueryParams(documentId, field, isMulti, cfg);
    Observe((i: nat) => RefineTags(client, cfg, fetch(params, i)), notifications)
  }
}
