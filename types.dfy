/** The shapes of src/types.ts: stored values, records, and the tag shapes that the
    normaliser consumes and produces. */
module Types {

  /** A JSON-like value held in a document. A record may hold a key whose value is
      `Undefined`, which is not the same as not holding the key (the `in` operator tells
      them apart). */
  datatype Value =
    | Undefined
    | Null
    | Str(s: string)
    | Obj(fields: map<string, Value>)
    | Arr(items: seq<Value>)

  /** A plain object: `GeneralTag`, `RefTag` and `Tag` are all records. */
  type Record = map<string, Value>

  /** Property access `r.k`: a missing key reads as `undefined`. */
  function Lookup(r: Record, k: string): Value {
    if k in r then r[k] else Undefined
  }

  /** `records.map((r) => r[key])`: one value per record, in order. */
  function Project(records: seq<Record>, key: string): (values: seq<Value>)
    ensures |values| == |records|
    ensures forall i :: 0 <= i < |records| ==> values[i] == Lookup(records[i], key)
  {
    seq(|records|, i requires 0 <= i < |records| => Lookup(records[i], key))
  }

  /** Projecting a concatenation concatenates the projections. */
  lemma ProjectAppend(a: seq<Record>, b: seq<Record>, key: string)
    ensures Project(a + b, key) == Project(a, key) + Project(b, key)
  {
    var left := Project(a + b, key);
    var right := Project(a, key) + Project(b, key);
    forall i | 0 <= i < |left| ensures left[i] == right[i] {
      if i >= |a| {
        assert (a + b)[i] == b[i - |a|];
      }
    }
  }

  /** `UnrefinedTags` / `RefinedTags`: `undefined`, `null`, one tag, or an array of tags.
      A single select that is cleared delivers `null`. */
  datatype Tags = NoTags | NullTags | OneTag(tag: Record) | TagList(tags: seq<Record>)

  /** The exceptions the modelled code can raise. */
  datatype Error =
    | MissingDocument  // a single reference whose document the store does not return
    | UnsafePath       // setAtPath refused a `__proto__`, `constructor` or `prototype` segment
    | UndefinedTag     // a property read on `undefined` (reverting the first element of `[]`)
    | NullTag          // a property read on `null` (reverting a `null` selection)
}
