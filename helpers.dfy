/** src/utils/helpers.ts: the uniqueness filter and the two schema predicates.

    The filter is written once, generic in the identity it compares, because the legacy
    widget (src/components/Tags.tsx) runs the same `findIndex` filter with whole-record
    identity where helpers.ts compares `(label, value)`. */
module Helpers {
  import opened Wrappers
  import opened Types

  /** `findIndex`: the first index whose key is `k`, or -1. */
  function FindIndex<T, K(==)>(xs: seq<T>, key: T -> K, k: K): (i: int)
    ensures -1 <= i < |xs|
    ensures i >= 0 ==> key(xs[i]) == k && forall j :: 0 <= j < i ==> key(xs[j]) != k
    ensures i < 0 ==> forall j :: 0 <= j < |xs| ==> key(xs[j]) != k
  {
    if xs == [] then -1
    else if key(xs[0]) == k then 0
    else
      var i := FindIndex(xs[1..], key, k);
      if i < 0 then -1 else i + 1
  }

  /** The source's filter from position `i` on: keep `xs[j]` exactly when `j` is the
      index `findIndex` returns for its key. */
  function KeepFirstFrom<T, K(==)>(xs: seq<T>, key: T -> K, i: nat): seq<T>
    requires i <= |xs|
    decreases |xs| - i
  {
    if i == |xs| then []
    else (if FindIndex(xs, key, key(xs[i])) == i then [xs[i]] else []) + KeepFirstFrom(xs, key, i + 1)
  }

  /** `xs.filter((x, index) => index === xs.findIndex(y => key(y) === key(x)))`. */
  function UniqueBy<T, K(==)>(xs: seq<T>, key: T -> K): seq<T> {
    KeepFirstFrom(xs, key, 0)
  }

  /** The keys that occur in `xs`. */
  function KeysOf<T, K(==)>(xs: seq<T>, key: T -> K): set<K> {
    set j | 0 <= j < |xs| :: key(xs[j])
  }

  ghost predicate DistinctKeys<T, K>(xs: seq<T>, key: T -> K) {
    forall i, j :: 0 <= i < j < |xs| ==> key(xs[i]) != key(xs[j])
  }

  /** `r` is `xs` with some elements left out, the rest in their original order. */
  predicate IsSubsequence<T(==)>(r: seq<T>, xs: seq<T>)
    decreases |xs|
  {
    if r == [] then true
    else if xs == [] then false
    else if r[0] == xs[0] then IsSubsequence(r[1..], xs[1..])
    else IsSubsequence(r, xs[1..])
  }

  /** An independent definition of the same filter: one left-to-right pass that remembers
      the keys already kept. */
  function DedupFrom<T, K(==)>(xs: seq<T>, key: T -> K, seen: set<K>): (r: seq<T>)
    ensures DistinctKeys(r, key)
    ensures forall i :: 0 <= i < |r| ==> key(r[i]) !in seen
    ensures KeysOf(r, key) == KeysOf(xs, key) - seen
  {
    if xs == [] then []
    else
      var rest := DedupFrom(xs[1..], key, seen + {key(xs[0])});
      KeysOfCons(xs[0], xs[1..], key);
      assert xs == [xs[0]] + xs[1..];
      if key(xs[0]) in seen then
        var r := DedupFrom(xs[1..], key, seen);
        r
      else
        KeysOfCons(xs[0], rest, key);
        [xs[0]] + rest
  }

  lemma KeysOfCons<T, K>(x: T, xs: seq<T>, key: T -> K)
    ensures KeysOf([x] + xs, key) == {key(x)} + KeysOf(xs, key)
  {
    var l, r := KeysOf([x] + xs, key), {key(x)} + KeysOf(xs, key);
    forall k | k in r ensures k in l {
      if k != key(x) {
        var j :| 0 <= j < |xs| && key(xs[j]) == k;
        assert ([x] + xs)[j + 1] == xs[j];
      } else {
        assert ([x] + xs)[0] == x;
      }
    }
    forall k | k in l ensures k in r {
      var j :| 0 <= j < |[x] + xs| && key(([x] + xs)[j]) == k;
      if j > 0 { assert ([x] + xs)[j] == xs[j - 1]; }
    }
  }

  lemma KeysOfSnoc<T, K>(xs: seq<T>, x: T, key: T -> K)
    ensures KeysOf(xs + [x], key) == KeysOf(xs, key) + {key(x)}
  {
    var l, r := KeysOf(xs + [x], key), KeysOf(xs, key) + {key(x)};
    forall k | k in r ensures k in l {
      if k == key(x) {
        assert (xs + [x])[|xs|] == x;
      } else {
        var j :| 0 <= j < |xs| && key(xs[j]) == k;
        assert (xs + [x])[j] == xs[j];
      }
    }
  }

  /** The source's `findIndex` filter and the one-pass definition agree: from position
      `i` on, the filter keeps exactly what one pass keeps after having seen `xs[..i]`. */
  lemma {:induction false} KeepFirstIsDedup<T, K>(xs: seq<T>, key: T -> K, i: nat)
    requires i <= |xs|
    ensures KeepFirstFrom(xs, key, i) == DedupFrom(xs[i..], key, KeysOf(xs[..i], key))
    decreases |xs| - i
  {
    if i < |xs| {
      var seen, k := KeysOf(xs[..i], key), key(xs[i]);
      var rest := KeepFirstFrom(xs, key, i + 1);
      assert KeysOf(xs[..i + 1], key) == seen + {k} by {
        assert xs[..i + 1] == xs[..i] + [xs[i]];
        KeysOfSnoc(xs[..i], xs[i], key);
      }
      assert rest == DedupFrom(xs[i + 1..], key, seen + {k}) by {
        KeepFirstIsDedup(xs, key, i + 1);
      }
      FirstIndexIsUnseen(xs, key, i);
      DedupFromStep(xs[i..], key, seen);
      assert xs[i..][1..] == xs[i + 1..];
      if k in seen {
        assert seen + {k} == seen;
        assert KeepFirstFrom(xs, key, i) == rest;
      } else {
        assert KeepFirstFrom(xs, key, i) == [xs[i]] + rest;
      }
    }
  }

  /** One step of the one-pass filter. */
  lemma DedupFromStep<T, K>(xs: seq<T>, key: T -> K, seen: set<K>)
    requires xs != []
    ensures key(xs[0]) in seen ==> DedupFrom(xs, key, seen) == DedupFrom(xs[1..], key, seen)
    ensures key(xs[0]) !in seen ==> DedupFrom(xs, key, seen) == [xs[0]] + DedupFrom(xs[1..], key, seen + {key(xs[0])})
  {
  }

  /** `findIndex` returns `i` for the key of `xs[i]` exactly when that key does not occur
      before `i`. */
  lemma FirstIndexIsUnseen<T, K>(xs: seq<T>, key: T -> K, i: nat)
    requires i < |xs|
    ensures FindIndex(xs, key, key(xs[i])) == i <==> key(xs[i]) !in KeysOf(xs[..i], key)
  {
    if key(xs[i]) in KeysOf(xs[..i], key) {
      var j :| 0 <= j < i && key(xs[..i][j]) == key(xs[i]);
      assert xs[..i][j] == xs[j];
    } else {
      forall j | 0 <= j < i ensures key(xs[j]) != key(xs[i]) {
        assert xs[..i][j] == xs[j];
      }
    }
  }

  lemma UniqueByIsDedup<T, K>(xs: seq<T>, key: T -> K)
    ensures UniqueBy(xs, key) == DedupFrom(xs, key, {})
  {
    KeepFirstIsDedup(xs, key, 0);
    assert xs[0..] == xs;
    assert KeysOf(xs[..0], key) == {};
  }

  /** One pass keeps a subsequence of its input. */
  lemma {:induction false} DedupIsSubsequence<T, K>(xs: seq<T>, key: T -> K, seen: set<K>)
    ensures IsSubsequence(DedupFrom(xs, key, seen), xs)
  {
    if xs != [] {
      DedupIsSubsequence(xs[1..], key, seen + {key(xs[0])});
      DedupIsSubsequence(xs[1..], key, seen);
      var r := DedupFrom(xs, key, seen);
      if key(xs[0]) !in seen {
        assert r[1..] == DedupFrom(xs[1..], key, seen + {key(xs[0])});
      } else if r != [] {
        // the kept element's key is unseen, so it is not xs[0]
        assert key(r[0]) !in seen;
      }
    }
  }

  /** A list whose keys are distinct and unseen passes through one pass unchanged. */
  lemma {:induction false} DedupOfDistinct<T, K>(xs: seq<T>, key: T -> K, seen: set<K>)
    requires DistinctKeys(xs, key)
    requires forall i :: 0 <= i < |xs| ==> key(xs[i]) !in seen
    ensures DedupFrom(xs, key, seen) == xs
  {
    if xs != [] {
      DedupOfDistinct(xs[1..], key, seen + {key(xs[0])});
      assert xs == [xs[0]] + xs[1..];
    }
  }

  /** The filter's result: distinct keys, every input key kept, a subsequence of the
      input in input order, and a second application changes nothing. */
  lemma UniqueByProperties<T, K>(xs: seq<T>, key: T -> K)
    ensures DistinctKeys(UniqueBy(xs, key), key)
    ensures KeysOf(UniqueBy(xs, key), key) == KeysOf(xs, key)
    ensures IsSubsequence(UniqueBy(xs, key), xs)
    ensures UniqueBy(UniqueBy(xs, key), key) == UniqueBy(xs, key)
  {
    UniqueByIsDedup(xs, key);
    DedupIsSubsequence(xs, key, {});
    var r := UniqueBy(xs, key);
    UniqueByIsDedup(r, key);
    DedupOfDistinct(r, key, {});
  }

  /** An element is kept exactly when no earlier element has its key. */
  lemma UniqueByKeepsFirst<T, K>(xs: seq<T>, key: T -> K, i: nat)
    requires i < |xs|
    ensures FindIndex(xs, key, key(xs[i])) == i <==> forall j :: 0 <= j < i ==> key(xs[j]) != key(xs[i])
  {
  }

  /** The identity `filterUniqueTags` compares: the tag's `label` and `value`. */
  function LabelValue(t: Record): (Value, Value) {
    (Lookup(t, "label"), Lookup(t, "value"))
  }

  /** `filterUniqueTags`: a missing list counts as empty; the result has no two tags with
      the same `(label, value)` and keeps every `(label, value)` of the input.
      `flat(Infinity)` is the identity here: every caller passes a flat list. */
  function FilterUniqueTags(tags: Option<seq<Record>>): (r: seq<Record>)
    ensures tags.None? ==> r == []
    ensures DistinctKeys(r, LabelValue)
    ensures KeysOf(r, LabelValue) == KeysOf(tags.GetOr([]), LabelValue)
    ensures IsSubsequence(r, tags.GetOr([]))
  {
    var xs := tags.GetOr([]);
    UniqueByProperties(xs, LabelValue);
    UniqueBy(xs, LabelValue)
  }

  lemma FilterUniqueTagsIdempotent(tags: seq<Record>)
    ensures FilterUniqueTags(Some(FilterUniqueTags(Some(tags)))) == FilterUniqueTags(Some(tags))
  {
    UniqueByProperties(tags, LabelValue);
  }

  /** A single tag is kept. */
  lemma FilterUniqueTagsSingleton(t: Record)
    ensures FilterUniqueTags(Some([t])) == [t]
  {
    assert FindIndex([t], LabelValue, LabelValue(t)) == 0;
    assert KeepFirstFrom([t], LabelValue, 1) == [];
  }

  /** The filter keeps the first tag of a non-empty list in front, and empties only the
      empty list. */
  lemma FilterUniqueTagsHead(tags: seq<Record>)
    ensures FilterUniqueTags(Some(tags)) == [] <==> tags == []
    ensures tags != [] ==> FilterUniqueTags(Some(tags))[0] == tags[0]
  {
    UniqueByIsDedup(tags, LabelValue);
    if tags != [] {
      DedupFromStep(tags, LabelValue, {});
    }
  }

  /** Two tags that differ only outside `label`/`value` are duplicates: the first stays. */
  lemma FilterUniqueTagsIgnoresOtherFields(a: Record, b: Record)
    requires LabelValue(a) == LabelValue(b)
    ensures FilterUniqueTags(Some([a, b])) == [a]
  {
    assert FindIndex([a, b], LabelValue, LabelValue(b)) == 0;
    assert KeepFirstFrom([a, b], LabelValue, 1) == [];
  }

  /** `isSchemaMulti`: every schema whose JSON type is not `object` (an array field) is
      multi-valued; an object field is single-valued. */
  function IsSchemaMulti(schema: Record): (multi: bool)
    ensures Lookup(schema, "jsonType") == Str("array") ==> multi
    ensures Lookup(schema, "jsonType") == Str("object") ==> !multi
  {
    Lookup(schema, "jsonType") != Str("object")
  }

  /** `isSchemaReference`: the schema declares `to`, or its first `of` member does.
      (`of` is an array of member schemas; other shapes of `of` are not modelled.) */
  function IsSchemaReference(schema: Record): (reference: bool)
    ensures "to" in schema ==> reference
    ensures FirstMemberIsReference(Lookup(schema, "of")) ==> reference
    ensures reference && "to" !in schema ==> "of" in schema && FirstMemberIsReference(schema["of"])
    ensures "to" !in schema && "of" !in schema ==> !reference
    ensures "to" !in schema && Lookup(schema, "of") == Arr([]) ==> !reference
  {
    "to" in schema
    || ("of" in schema && schema["of"].Arr? && |schema["of"].items| > 0
        && schema["of"].items[0].Obj? && "to" in schema["of"].items[0].fields)
  }

  /** `of[0] && 'to' in of[0]`: an array of member schemas whose first member declares
      `to`. */
  predicate FirstMemberIsReference(of: Value) {
    match of
    case Arr(members) => members != [] && match members[0] {
      case Obj(member) => "to" in member
      case _ => false
    }
    case _ => false
  }
}
