/** src/utils/mutators.ts: turning stored tags into select options ("prepare") and
    selected options back into what is stored ("revert"). */
module Mutators {
  import opened Wrappers
  import opened Types
  import opened Paths

  /** The `customLabel` / `customValue` options: dotted paths, `label` and `value` by default. */
  datatype PathConfig = PathConfig(customLabel: string, customValue: string) {
    function LabelPath(): Path { Split(customLabel) }
    function ValuePath(): Path { Split(customValue) }
  }

  const DefaultPaths := PathConfig("label", "value")

  /** The store, as far as prepareTags uses it: `*[_id in $refs]` returns the documents
      whose ids are given, in an order the store chooses, and `*[_id == $ref][0]` returns
      one document or nothing. */
  datatype Client = Client(
    fetchByIds: seq<Value> -> seq<Record>,
    fetchById: Value -> Option<Record>)

  /** The keys prepareTag writes over the stored record. */
  const OptionKeys: set<string> := {"_type", "_key", "_labelTemp", "_valueTemp", "label", "value"}

  /** `prepareTag`: every field of the stored record is kept except the six option keys;
      `label` and `value` are read from the custom paths, the record's own `label` and
      `value` are kept in `_labelTemp` / `_valueTemp`, `_type` is `'tag'` and `_key` is
      the record's own `value`. */
  function PrepareTag(cfg: PathConfig, tag: Record): (option: Record)
    ensures option.Keys == tag.Keys + OptionKeys
    ensures forall k :: k in tag && k !in OptionKeys ==> option[k] == tag[k]
    ensures option["label"] == Get(tag, cfg.LabelPath()) && option["value"] == Get(tag, cfg.ValuePath())
    ensures option["_labelTemp"] == Lookup(tag, "label") && option["_valueTemp"] == Lookup(tag, "value")
    ensures option["_type"] == Str("tag") && option["_key"] == Lookup(tag, "value")
  {
    tag["_type" := Str("tag")]
       ["_key" := Lookup(tag, "value")]
       ["_labelTemp" := Lookup(tag, "label")]
       ["_valueTemp" := Lookup(tag, "value")]
       ["label" := Get(tag, cfg.LabelPath())]
       ["value" := Get(tag, cfg.ValuePath())]
  }

  /** `tags.map(prepare)`. */
  function PrepareEach(cfg: PathConfig, tags: seq<Record>): (options: seq<Record>)
    ensures |options| == |tags|
    ensures forall i :: 0 <= i < |tags| ==> options[i] == PrepareTag(cfg, tags[i])
  {
    seq(|tags|, i requires 0 <= i < |tags| => PrepareTag(cfg, tags[i]))
  }

  /** A reference stub: a record with both `_ref` and `_type` keys. */
  predicate IsReference(tag: Record) {
    "_ref" in tag && "_type" in tag
  }

  /** `prepareTags`: dispatch on the shape of the stored value. `undefined` and `null`
      both give `undefined`. An array counts as references when its FIRST element is a
      reference stub; the batched fetch decides the length and order of the result. A
      single reference whose document the store does not return makes prepareTag read a
      property of `null`, which throws. */
  function PrepareTags(client: Client, cfg: PathConfig, tags: Tags): (r: Result<Tags, Error>)
    ensures r.Success? && r.value == NoTags <==> tags == NoTags || tags == NullTags
    ensures r.Success? ==> !r.value.NullTags?
    ensures tags == TagList([]) ==> r == Success(TagList([]))
    ensures tags.TagList? ==> r.Success? && r.value.TagList?
    ensures tags.OneTag? && !IsReference(tags.tag) ==> r == Success(OneTag(PrepareTag(cfg, tags.tag)))
    ensures tags.OneTag? && IsReference(tags.tag) && client.fetchById(tags.tag["_ref"]).Some? ==>
      r == Success(OneTag(PrepareTag(cfg, client.fetchById(tags.tag["_ref"]).value)))
    ensures r.Failure? <==> tags.OneTag? && IsReference(tags.tag) && client.fetchById(tags.tag["_ref"]).None?
  {
    match tags
    case NoTags => Success(NoTags)
    case NullTags => Success(NoTags)
    case TagList(list) =>
      if list == [] then Success(TagList([]))
      else if IsReference(list[0]) then Success(TagList(PrepareEach(cfg, client.fetchByIds(Project(list, "_ref")))))
      else Success(TagList(PrepareEach(cfg, list)))
    case OneTag(tag) =>
      if IsReference(tag) then
        match client.fetchById(tag["_ref"])
        case None => Failure(MissingDocument)
        case Some(document) => Success(OneTag(PrepareTag(cfg, document)))
      else Success(OneTag(PrepareTag(cfg, tag)))
  }

  /** The array cases of prepareTags: a list of plain objects is prepared element by
      element; a list of references is whatever the batched fetch of all elements' `_ref`
      ids returns, prepared in the store's order. */
  lemma PrepareTagsOfList(client: Client, cfg: PathConfig, list: seq<Record>)
    requires list != []
    ensures !IsReference(list[0]) ==>
      PrepareTags(client, cfg, TagList(list)) == Success(TagList(PrepareEach(cfg, list)))
    ensures IsReference(list[0]) ==>
      PrepareTags(client, cfg, TagList(list)) == Success(TagList(PrepareEach(cfg, client.fetchByIds(Project(list, "_ref")))))
  {
  }

  /** `prepareTagsAsList`: never `undefined`; a single tag becomes a one-element list and
      a list is passed through. */
  function PrepareTagsAsList(client: Client, cfg: PathConfig, tags: Tags): (r: Result<seq<Record>, Error>)
    ensures tags == NoTags || tags == NullTags ==> r == Success([])
    ensures r.Success? <==> PrepareTags(client, cfg, tags).Success?
    ensures r.Success? ==> r.value == match PrepareTags(client, cfg, tags).value {
      case OneTag(t) => [t]
      case TagList(list) => list
      case _ => [] }
    ensures tags.OneTag? && r.Success? ==> |r.value| == 1
    ensures tags.OneTag? && !IsReference(tags.tag) ==> r == Success([PrepareTag(cfg, tags.tag)])
    ensures tags.TagList? && (tags.tags == [] || !IsReference(tags.tags[0])) ==>
      r == Success(PrepareEach(cfg, tags.tags))
  {
    var prepared :- PrepareTags(client, cfg, tags);
    match prepared
    case NoTags => Success([])
    case NullTags => Success([])
    case OneTag(tag) => Success([tag])
    case TagList(list) => Success(list)
  }

  /** The record stored for a tag in reference mode: a reference stub to `id` and nothing
      else. */
  function RefStub(id: Value): (stub: Record)
    ensures IsReference(stub) && stub["_ref"] == id
    ensures stub.Keys == {"_ref", "_type"} && stub["_type"] == Str("reference")
  {
    map["_ref" := id, "_type" := Str("reference")]
  }

  /** `{...tag, label: tag._labelTemp, value: tag._valueTemp}`: the option's own `label`
      and `value` are swapped out for the ones the stored record had. */
  function Restored(tag: Record): (copy: Record)
    ensures copy.Keys == tag.Keys + {"label", "value"}
    ensures copy["label"] == Lookup(tag, "_labelTemp") && copy["value"] == Lookup(tag, "_valueTemp")
    ensures forall k :: k in tag && k != "label" && k != "value" ==> copy[k] == tag[k]
  {
    tag["label" := Lookup(tag, "_labelTemp")]["value" := Lookup(tag, "_valueTemp")]
  }

  /** `delete t._labelTemp; delete t._valueTemp; if (t.label === undefined) delete t.label;
      if (t.value === undefined) delete t.value` */
  function Cleaned(t: Record): (r: Record)
    ensures r.Keys <= t.Keys - {"_labelTemp", "_valueTemp"}
    ensures forall k :: k in r ==> r[k] == t[k]
    ensures forall k :: k in t && k !in r ==> k in {"_labelTemp", "_valueTemp"} || ((k == "label" || k == "value") && t[k] == Undefined)
    ensures Lookup(r, "label") != Undefined || "label" !in r
    ensures Lookup(r, "value") != Undefined || "value" !in r
  {
    var stripped := t - {"_labelTemp", "_valueTemp"};
    var noLabel := if Lookup(stripped, "label") == Undefined then stripped - {"label"} else stripped;
    if Lookup(noLabel, "value") == Undefined then noLabel - {"value"} else noLabel
  }

  /** `revertTag`. In reference mode the result is exactly `{_ref: tag._id, _type:
      'reference'}`. In object mode the original `label` / `value` are put back from the
      temporaries, the option's `label` / `value` are written at the custom paths, and
      the temporaries (and a `label` / `value` left `undefined`) are deleted; the source
      changes a fresh copy in place, modelled here as a chain of bindings. */
  function RevertTag(cfg: PathConfig, isReference: bool, tag: Record): (r: Result<Record, Error>)
    ensures r.Success? <==> isReference || (SafePath(cfg.LabelPath()) && SafePath(cfg.ValuePath()))
    ensures isReference ==> r == Success(RefStub(Lookup(tag, "_id")))
    ensures !isReference && r.Success? ==> "_labelTemp" !in r.value && "_valueTemp" !in r.value
    ensures !isReference && r.Success? ==> Lookup(r.value, "label") != Undefined || "label" !in r.value
    ensures !isReference && r.Success? ==> Lookup(r.value, "value") != Undefined || "value" !in r.value
  {
    if isReference then Success(RefStub(Lookup(tag, "_id")))
    else
      var withLabel :- SetAtPath(Restored(tag), cfg.LabelPath(), Lookup(tag, "label"));
      var withValue :- SetAtPath(withLabel, cfg.ValuePath(), Lookup(tag, "value"));
      Success(Cleaned(withValue))
  }

  /** The object-mode result of revertTag once both paths are accepted. */
  lemma RevertTagWrites(cfg: PathConfig, tag: Record)
    requires SafePath(cfg.LabelPath()) && SafePath(cfg.ValuePath())
    ensures RevertTag(cfg, false, tag) == Success(Cleaned(
      Put(Put(Restored(tag), cfg.LabelPath(), Lookup(tag, "label")), cfg.ValuePath(), Lookup(tag, "value"))))
  {
  }

  /** The deletions at the end of revertTag do not change what a path that does not start
      at a temporary reads. */
  lemma GetAfterCleaned(t: Record, p: Path)
    requires p[0] != "_labelTemp" && p[0] != "_valueTemp"
    ensures Get(Cleaned(t), p) == Get(t, p)
  {
    var stripped := t - {"_labelTemp", "_valueTemp"};
    assert stripped == (t - {"_labelTemp"}) - {"_valueTemp"};
    GetRemove(t, "_labelTemp", p);
    GetRemove(t - {"_labelTemp"}, "_valueTemp", p);
    var noLabel := if Lookup(stripped, "label") == Undefined then stripped - {"label"} else stripped;
    if Lookup(stripped, "label") == Undefined {
      GetRemove(stripped, "label", p);
    }
    if Lookup(noLabel, "value") == Undefined {
      GetRemove(noLabel, "value", p);
    }
  }

  /** The custom paths do not start at a temporary, and either coincide or part ways
      (`a` and `a.b` would overwrite each other). */
  predicate WellFormedPaths(cfg: PathConfig) {
    && SafePath(cfg.LabelPath()) && SafePath(cfg.ValuePath())
    && cfg.LabelPath()[0] !in {"_labelTemp", "_valueTemp"}
    && cfg.ValuePath()[0] !in {"_labelTemp", "_valueTemp"}
    && (cfg.LabelPath() == cfg.ValuePath() || Disjoint(cfg.LabelPath(), cfg.ValuePath()))
  }

  /** revertTag in object mode writes the option's `value` at the value path and its
      `label` at the label path (the value wins when both paths are the same). */
  lemma RevertTagPaths(cfg: PathConfig, tag: Record)
    requires WellFormedPaths(cfg)
    ensures RevertTag(cfg, false, tag).Success?
    ensures Get(RevertTag(cfg, false, tag).value, cfg.ValuePath()) == Lookup(tag, "value")
    ensures Get(RevertTag(cfg, false, tag).value, cfg.LabelPath())
         == if cfg.LabelPath() == cfg.ValuePath() then Lookup(tag, "value") else Lookup(tag, "label")
  {
    var lp, vp := cfg.LabelPath(), cfg.ValuePath();
    var withLabel := Put(Restored(tag), lp, Lookup(tag, "label"));
    var withValue := Put(withLabel, vp, Lookup(tag, "value"));
    RevertTagWrites(cfg, tag);
    GetPut(Restored(tag), lp, Lookup(tag, "label"));
    GetPut(withLabel, vp, Lookup(tag, "value"));
    if lp != vp {
      DisjointSymmetric(lp, vp);
      GetPutDisjoint(withLabel, vp, lp, Lookup(tag, "value"));
    }
    GetAfterCleaned(withValue, lp);
    GetAfterCleaned(withValue, vp);
  }

  /** revertTag in object mode: `label` / `value` keys survive only where the temporaries
      held a value (when no custom path starts with them), and every key outside the
      custom paths, `label`, `value` and the temporaries is the option's own. */
  lemma RevertTagKeys(cfg: PathConfig, tag: Record, k: string)
    requires SafePath(cfg.LabelPath()) && SafePath(cfg.ValuePath())
    requires k != cfg.LabelPath()[0] && k != cfg.ValuePath()[0]
    ensures RevertTag(cfg, false, tag).Success?
    ensures var stored := RevertTag(cfg, false, tag).value;
      && (k == "label" ==> (k in stored <==> Lookup(tag, "_labelTemp") != Undefined)
                           && (k in stored ==> stored[k] == tag["_labelTemp"]))
      && (k == "value" ==> (k in stored <==> Lookup(tag, "_valueTemp") != Undefined)
                           && (k in stored ==> stored[k] == tag["_valueTemp"]))
      && (k !in {"label", "value", "_labelTemp", "_valueTemp"} ==>
            (k in stored <==> k in tag) && (k in tag ==> stored[k] == tag[k]))
  {
    var withLabel := Put(Restored(tag), cfg.LabelPath(), Lookup(tag, "label"));
    var withValue := Put(withLabel, cfg.ValuePath(), Lookup(tag, "value"));
    RevertTagWrites(cfg, tag);
    assert k in withValue <==> k in Restored(tag);
    assert k in withValue ==> withValue[k] == Restored(tag)[k];
  }

  /** Object-mode round trip: reverting a prepared record puts its values back at the
      custom paths and its own `label` / `value` back (dropping ones that were
      `undefined`); apart from the keys the custom paths start with, the only additions
      are `_type: 'tag'` and `_key`. */
  lemma ObjectRoundTrip(cfg: PathConfig, record: Record, k: string)
    requires WellFormedPaths(cfg)
    ensures RevertTag(cfg, false, PrepareTag(cfg, record)).Success?
    ensures var stored := RevertTag(cfg, false, PrepareTag(cfg, record)).value;
      && Get(stored, cfg.LabelPath()) == Get(record, cfg.LabelPath())
      && Get(stored, cfg.ValuePath()) == Get(record, cfg.ValuePath())
      && "_labelTemp" !in stored && "_valueTemp" !in stored
    ensures var stored := RevertTag(cfg, false, PrepareTag(cfg, record)).value;
      k != cfg.LabelPath()[0] && k != cfg.ValuePath()[0] ==>
      && (k == "label" ==> (k in stored <==> Lookup(record, "label") != Undefined)
                           && (k in stored ==> stored[k] == record[k]))
      && (k == "value" ==> (k in stored <==> Lookup(record, "value") != Undefined)
                           && (k in stored ==> stored[k] == record[k]))
      && (k == "_type" ==> k in stored && stored[k] == Str("tag"))
      && (k == "_key" ==> k in stored && stored[k] == Lookup(record, "value"))
      && (k !in OptionKeys ==> (k in stored <==> k in record) && (k in record ==> stored[k] == record[k]))
  {
    var option := PrepareTag(cfg, record);
    RevertTagPaths(cfg, option);
    if k != cfg.LabelPath()[0] && k != cfg.ValuePath()[0] {
      RevertTagKeys(cfg, option, k);
    }
  }

  /** With the default paths revertTag writes the option's `label` and `value` back
      under their own names. */
  lemma DefaultRevertWrites(option: Record)
    ensures RevertTag(DefaultPaths, false, option)
         == Success(Cleaned(Restored(option)["label" := Lookup(option, "label")]["value" := Lookup(option, "value")]))
  {
    assert DefaultPaths.LabelPath() == ["label"];
    assert DefaultPaths.ValuePath() == ["value"];
    RevertTagWrites(DefaultPaths, option);
  }

  /** The deletions at the end of revertTag only drop the temporaries when `label` and
      `value` are defined. */
  lemma CleanedDefined(t: Record)
    requires Lookup(t, "label") != Undefined && Lookup(t, "value") != Undefined
    ensures Cleaned(t) == t - {"_labelTemp", "_valueTemp"}
  {
  }

  /** Deleting freshly added temporaries gives the record back. */
  lemma DropTemporaries(r: Record, labelTemp: Value, valueTemp: Value)
    requires "_labelTemp" !in r && "_valueTemp" !in r
    ensures r["_labelTemp" := labelTemp]["_valueTemp" := valueTemp] - {"_labelTemp", "_valueTemp"} == r
  {
    var t := r["_labelTemp" := labelTemp]["_valueTemp" := valueTemp] - {"_labelTemp", "_valueTemp"};
    assert t.Keys == r.Keys;
  }

  /** With the default paths, the record revertTag builds before its deletions is the
      prepared record with `label` and `value` put back. */
  lemma DefaultWritten(record: Record)
    requires Lookup(record, "label") != Undefined && Lookup(record, "value") != Undefined
    ensures var option := PrepareTag(DefaultPaths, record);
      Restored(option)["label" := Lookup(option, "label")]["value" := Lookup(option, "value")]
      == record["_type" := Str("tag")]["_key" := record["value"]]["_labelTemp" := record["label"]]["_valueTemp" := record["value"]]
  {
    assert DefaultPaths.LabelPath() == ["label"] && DefaultPaths.ValuePath() == ["value"];
  }

  /** With the default paths and a record that has a `label` and a `value` and no
      temporaries, the round trip gives back exactly the record plus `_type` and `_key`. */
  lemma DefaultRoundTrip(record: Record)
    requires Lookup(record, "label") != Undefined && Lookup(record, "value") != Undefined
    requires "_labelTemp" !in record && "_valueTemp" !in record
    ensures RevertTag(DefaultPaths, false, PrepareTag(DefaultPaths, record))
         == Success(record["_type" := Str("tag")]["_key" := record["value"]])
  {
    var option := PrepareTag(DefaultPaths, record);
    DefaultRevertWrites(option);
    DefaultWritten(record);
    var base := record["_type" := Str("tag")]["_key" := record["value"]];
    var written := base["_labelTemp" := record["label"]]["_valueTemp" := record["value"]];
    CleanedDefined(written);
    DropTemporaries(base, record["label"], record["value"]);
  }

  /** Reference round trip: a single stored reference whose document carries its own id
      comes back as the same reference, whatever the custom paths. */
  lemma ReferenceRoundTrip(client: Client, cfg: PathConfig, stub: Record, document: Record)
    requires IsReference(stub)
    requires client.fetchById(stub["_ref"]) == Some(document)
    requires Lookup(document, "_id") == stub["_ref"]
    ensures PrepareTags(client, cfg, OneTag(stub)).Success?
    ensures var prepared := PrepareTags(client, cfg, OneTag(stub)).value;
      RevertTags(cfg, false, true, prepared) == Success(OneTag(RefStub(stub["_ref"])))
  {
  }

  /** `tags.map(revert)`, stopping at the first exception. */
  function RevertEach(cfg: PathConfig, isReference: bool, tags: seq<Record>): (r: Result<seq<Record>, Error>)
    ensures r.Success? <==> tags == [] || RevertTag(cfg, isReference, tags[0]).Success?
    ensures r.Success? ==> |r.value| == |tags|
    ensures r.Success? ==> forall i :: 0 <= i < |tags| ==> RevertTag(cfg, isReference, tags[i]) == Success(r.value[i])
  {
    if tags == [] then Success([])
    else match RevertTag(cfg, isReference, tags[0])
      case Failure(e) => Failure(e)
      case Success(first) =>
        var rest := RevertEach(cfg, isReference, tags[1..]);
        if rest.Success? then Success([first] + rest.value) else rest
  }

  /** `revertTags`: `undefined` stays `undefined`; a multi field reverts every element of
      the (coerced) list in order; a single field reverts only the first element of an
      array, and the first element of an empty array is `undefined`, on which revertTag
      throws. Only `undefined` is tested for, so `null` reaches revertTag (as the only
      element of a list in a multi field) and throws in either mode. */
  function RevertTags(cfg: PathConfig, isMulti: bool, isReference: bool, tags: Tags): (r: Result<Tags, Error>)
    ensures tags == NoTags ==> r == Success(NoTags)
    ensures tags == NullTags ==> r == Failure(NullTag)
    ensures isMulti && tags.OneTag? ==>
      r == (match RevertTag(cfg, isReference, tags.tag)
            case Success(stored) => Success(TagList([stored]))
            case Failure(e) => Failure(e))
    ensures isMulti && tags.TagList? ==>
      && (r.Success? <==> RevertEach(cfg, isReference, tags.tags).Success?)
      && (r.Success? ==>
            && r.value.TagList? && |r.value.tags| == |tags.tags|
            && forall i :: 0 <= i < |tags.tags| ==> RevertTag(cfg, isReference, tags.tags[i]) == Success(r.value.tags[i]))
    ensures !isMulti && tags.OneTag? ==>
      r == (match RevertTag(cfg, isReference, tags.tag)
            case Success(stored) => Success(OneTag(stored))
            case Failure(e) => Failure(e))
    ensures !isMulti && tags.TagList? && tags.tags != [] ==>
      r == (match RevertTag(cfg, isReference, tags.tags[0])
            case Success(stored) => Success(OneTag(stored))
            case Failure(e) => Failure(e))
    ensures !isMulti && tags == TagList([]) ==> r == Failure(UndefinedTag)
  {
    match tags
    case NoTags => Success(NoTags)
    case NullTags => Failure(NullTag)
    case OneTag(tag) =>
      if isMulti then
        var stored :- RevertEach(cfg, isReference, [tag]);
        assert stored == [stored[0]];
        Success(TagList(stored))
      else
        var stored :- RevertTag(cfg, isReference, tag);
        Success(OneTag(stored))
    case TagList(list) =>
      if isMulti then
        var stored :- RevertEach(cfg, isReference, list);
        Success(TagList(stored))
      else if list == [] then Failure(UndefinedTag)
      else
        var stored :- RevertTag(cfg, isReference, list[0]);
        Success(OneTag(stored))
  }

  /** revertTags fails only on `null`, on an empty array in a single field, or when a
      stored path is refused and there is at least one tag to write back. */
  lemma RevertTagsFailure(cfg: PathConfig, isMulti: bool, isReference: bool, tags: Tags)
    ensures RevertTags(cfg, isMulti, isReference, tags).Failure? <==>
      || tags == NullTags
      || (!isMulti && tags == TagList([]))
      || (&& !isReference && !(SafePath(cfg.LabelPath()) && SafePath(cfg.ValuePath()))
          && tags != NoTags && tags != TagList([]))
  {
    if tags.TagList? && tags.tags != [] {
      assert RevertTag(cfg, isReference, tags.tags[0]).Success?
         <==> isReference || (SafePath(cfg.LabelPath()) && SafePath(cfg.ValuePath()));
    }
  }
}
