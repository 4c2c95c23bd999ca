/** src/utils/hooks.ts: the two state hooks the input widget builds on.

    `useLoading` keeps one boolean per source and reports the widget as loading while any
    of them is set; `useOptions` keeps one tag list per source (a "group") and offers the
    de-duplicated concatenation of all groups. Each hook is a class: the React state
    becomes its fields, the setter it returns becomes a method that merges into them, and
    the effect that recomputes the derived value becomes a `Recompute` method. */
module Hooks {
  import opened Wrappers
  import opened Types
  import opened Helpers

  /** `LoadingOptions`: a loading flag per source name. */
  type Flags = map<string, bool>

  /** Some source is still loading. */
  predicate AnyLoading(flags: Flags) {
    exists k :: k in flags && flags[k]
  }

  /** The effect of `useLoading`: `loaded` starts `false` and is set by every flag that is
      `true`; an empty map leaves it `false`. */
  method ComputeLoading(flags: Flags) returns (loaded: bool)
    ensures loaded <==> AnyLoading(flags)
    ensures flags == map[] ==> !loaded
  {
    loaded := false;
    if |flags| > 0 {
      var remaining := flags.Keys;
      while remaining != {}
        invariant remaining <= flags.Keys
        invariant loaded <==> exists k :: k in flags && k !in remaining && flags[k]
        decreases |remaining|
      {
        var option :| option in remaining;
        if flags[option] {
          loaded := true;
        }
        remaining := remaining - {option};
      }
    }
  }

  /** `{...oldValue, ...properties}` on flag maps: the given flags are overwritten or
      added, every other flag keeps its value. */
  function MergeFlags(flags: Flags, properties: Flags): (merged: Flags)
    ensures merged.Keys == flags.Keys + properties.Keys
    ensures forall k :: k in properties ==> merged[k] == properties[k]
    ensures forall k :: k in flags && k !in properties ==> merged[k] == flags[k]
  {
    flags + properties
  }

  /** After a merge the widget is loading exactly when a given flag is `true` or an
      untouched old flag is. */
  lemma MergedLoading(flags: Flags, properties: Flags)
    ensures AnyLoading(MergeFlags(flags, properties))
        <==> (exists k :: k in properties && properties[k])
             || (exists k :: k in flags && k !in properties && flags[k])
  {
    var merged := MergeFlags(flags, properties);
    if AnyLoading(merged) {
      var k :| k in merged && merged[k];
      assert k in properties || (k in flags && k !in properties);
    }
  }

  /** Two updates in a row amount to one update with both, the later one winning. */
  lemma MergeFlagsAssoc(flags: Flags, first: Flags, second: Flags)
    ensures MergeFlags(MergeFlags(flags, first), second) == MergeFlags(flags, MergeFlags(first, second))
  {
    var l := MergeFlags(MergeFlags(flags, first), second);
    var r := MergeFlags(flags, MergeFlags(first, second));
    assert l.Keys == r.Keys;
    forall k | k in l ensures l[k] == r[k] {
      if k !in second && k !in first {
        assert l[k] == flags[k];
      }
    }
  }

  /** Clearing a flag that is already clear changes nothing. */
  lemma ClearingClearFlag(flags: Flags, k: string)
    requires k in flags && !flags[k]
    ensures MergeFlags(flags, map[k := false]) == flags
  {
    var merged := MergeFlags(flags, map[k := false]);
    assert merged.Keys == flags.Keys;
    assert forall j :: j in merged ==> merged[j] == flags[j];
  }

  /** The widget stops loading after a report only when that report clears the last
      source that was still loading. */
  lemma ClearingLastFlag(flags: Flags, k: string)
    requires forall j :: j in flags && j != k ==> !flags[j]
    ensures !AnyLoading(MergeFlags(flags, map[k := false]))
    ensures AnyLoading(flags) ==> k in flags && flags[k]
  {
    MergedLoading(flags, map[k := false]);
  }

  /** `useLoading`: the flag map and the overall loading state. */
  class Loading {
    var loadingOptions: Flags
    var isLoading: bool

    /** `initialLoadingOptions` defaults to `{}` and `initialState` to `true`; the state is
        `initialState` until the effect first runs. */
    constructor(initialLoadingOptions: Option<Flags>, initialState: Option<bool>)
      ensures loadingOptions == initialLoadingOptions.GetOr(map[])
      ensures isLoading == initialState.GetOr(true)
    {
      loadingOptions := initialLoadingOptions.GetOr(map[]);
      isLoading := initialState.GetOr(true);
    }

    /** `setLoadOption`: merge the given flags; the overall state waits for the effect. */
    method SetLoadOption(properties: Flags)
      modifies this
      ensures loadingOptions == MergeFlags(old(loadingOptions), properties)
      ensures isLoading == old(isLoading)
    {
      loadingOptions := MergeFlags(loadingOptions, properties);
    }

    /** The effect that runs whenever `loadingOptions` changes. */
    method Recompute()
      modifies this
      ensures loadingOptions == old(loadingOptions)
      ensures isLoading == AnyLoading(loadingOptions)
    {
      isLoading := ComputeLoading(loadingOptions);
    }
  }

  /** `Options`: the tag list of each source, in the order the sources were first added
      (JavaScript iterates string keys in insertion order). A source may hold something
      other than an array; only arrays contribute options. */
  type Groups = seq<(string, Tags)>

  function Names(groups: Groups): (names: seq<string>)
    ensures |names| == |groups|
    ensures forall i :: 0 <= i < |groups| ==> names[i] == groups[i].0
  {
    if groups == [] then [] else [groups[0].0] + Names(groups[1..])
  }

  /** Object keys are unique. */
  predicate DistinctNames(groups: Groups) {
    forall i, j :: 0 <= i < j < |groups| ==> groups[i].0 != groups[j].0
  }

  /** `groupOptions[name]`: the list the source holds, if it holds one. */
  function Find(groups: Groups, name: string): (r: Option<Tags>)
    ensures r.Some? <==> name in Names(groups)
  {
    if groups == [] then None
    else if groups[0].0 == name then Some(groups[0].1)
    else Find(groups[1..], name)
  }

  /** Writing one key of an object: an existing key keeps its position and gets the new
      value, a new key goes last. */
  function Upsert(groups: Groups, name: string, tags: Tags): (r: Groups)
    ensures Find(r, name) == Some(tags)
    ensures forall n :: n != name ==> Find(r, n) == Find(groups, n)
    ensures Names(r) == if name in Names(groups) then Names(groups) else Names(groups) + [name]
  {
    if groups == [] then [(name, tags)]
    else if groups[0].0 == name then
      var r := [(name, tags)] + groups[1..];
      assert r[1..] == groups[1..];
      r
    else
      var rest := Upsert(groups[1..], name, tags);
      var r := [groups[0]] + rest;
      assert r[1..] == rest;
      assert Names(r) == [groups[0].0] + Names(rest);
      assert Names(groups) == [groups[0].0] + Names(groups[1..]);
      r
  }

  /** `{...oldValue, ...properties}` on group maps: each named group's list is replaced
      (not appended to), every other group is unchanged, and new names go last. */
  function Merge(groups: Groups, properties: Groups): (r: Groups)
    requires DistinctNames(properties)
    ensures forall n :: Find(r, n) == if Find(properties, n).Some? then Find(properties, n) else Find(groups, n)
    ensures Names(groups) <= Names(r)
    ensures forall n :: n in Names(r) <==> n in Names(groups) || n in Names(properties)
    decreases |properties|
  {
    if properties == [] then groups
    else
      var r := Merge(Upsert(groups, properties[0].0, properties[0].1), properties[1..]);
      assert properties[0].0 !in Names(properties[1..]);
      r
  }

  /** A group's value when it is an array, and nothing otherwise. */
  function GroupItems(tags: Tags): seq<Record> {
    if tags.TagList? then tags.tags else []
  }

  /** Every array-valued group's tags, group after group. */
  function Concat(groups: Groups): seq<Record> {
    if groups == [] then [] else GroupItems(groups[0].1) + Concat(groups[1..])
  }

  /** Appending a group appends its tags. */
  lemma {:induction false} ConcatSnoc(groups: Groups, group: (string, Tags))
    ensures Concat(groups + [group]) == Concat(groups) + GroupItems(group.1)
  {
    if groups != [] {
      assert (groups + [group])[1..] == groups[1..] + [group];
      ConcatSnoc(groups[1..], group);
    }
  }

  /** Every tag of every array-valued group is in the concatenation. */
  lemma {:induction false} ConcatCovers(groups: Groups, name: string, t: Record)
    requires Find(groups, name).Some? && t in GroupItems(Find(groups, name).value)
    ensures t in Concat(groups)
  {
    if groups[0].0 != name {
      ConcatCovers(groups[1..], name, t);
    }
  }

  /** The loop of the `useOptions` effect: push every array-valued group onto `opts`, in
      key order. */
  method CollectGroups(groups: Groups) returns (opts: seq<Record>)
    ensures opts == Concat(groups)
  {
    opts := [];
    var i := 0;
    while i < |groups|
      invariant 0 <= i <= |groups|
      invariant opts == Concat(groups[..i])
    {
      if groups[i].1.TagList? {
        opts := opts + groups[i].1.tags;
      }
      ConcatSnoc(groups[..i], groups[i]);
      assert groups[..i + 1] == groups[..i] + [groups[i]];
      i := i + 1;
    }
    assert groups[..i] == groups;
  }

  /** `useOptions` offers no two tags with the same `(label, value)`, and every tag of
      every group has a `(label, value)`-equal tag among the options. */
  lemma OptionsCoverGroups(groups: Groups, name: string, t: Record)
    requires Find(groups, name).Some? && t in GroupItems(Find(groups, name).value)
    ensures DistinctKeys(FilterUniqueTags(Some(Concat(groups))), LabelValue)
    ensures exists u :: u in FilterUniqueTags(Some(Concat(groups))) && LabelValue(u) == LabelValue(t)
  {
    ConcatCovers(groups, name, t);
    var options := FilterUniqueTags(Some(Concat(groups)));
    var j :| 0 <= j < |Concat(groups)| && Concat(groups)[j] == t;
    assert LabelValue(t) in KeysOf(Concat(groups), LabelValue);
    assert LabelValue(t) in KeysOf(options, LabelValue);
    var i :| 0 <= i < |options| && LabelValue(options[i]) == LabelValue(t);
    assert options[i] in options;
  }

  /** `useOptions`: the merged option list and the groups it is computed from. */
  class OptionGroups {
    var options: seq<Record>
    var groupOptions: Groups

    ghost predicate Valid()
      reads this
    {
      DistinctNames(groupOptions)
    }

    /** `initialState` defaults to `[]`; there are no groups yet. */
    constructor(initialState: Option<seq<Record>>)
      ensures Valid()
      ensures options == initialState.GetOr([])
      ensures groupOptions == []
    {
      options := initialState.GetOr([]);
      groupOptions := [];
    }

    /** `setTagOption`: replace the named groups; the options wait for the effect. */
    method SetTagOption(properties: Groups)
      requires Valid() && DistinctNames(properties)
      modifies this
      ensures Valid()
      ensures groupOptions == Merge(old(groupOptions), properties)
      ensures options == old(options)
    {
      groupOptions := Merge(groupOptions, properties);
      forall i, j | 0 <= i < j < |groupOptions|
        ensures groupOptions[i].0 != groupOptions[j].0
      {
        MergeKeepsNamesDistinct(old(groupOptions), properties, i, j);
      }
    }

    /** The effect that runs whenever `groupOptions` changes. */
    method Recompute()
      requires Valid()
      modifies this
      ensures Valid()
      ensures groupOptions == old(groupOptions)
      ensures options == FilterUniqueTags(Some(Concat(groupOptions)))
    {
      var opts := CollectGroups(groupOptions);
      options := FilterUniqueTags(Some(opts));
    }
  }

  /** Merging keeps the names unique. */
  lemma MergeKeepsNamesDistinct(groups: Groups, properties: Groups, i: nat, j: nat)
    requires DistinctNames(groups) && DistinctNames(properties)
    requires i < j < |Merge(groups, properties)|
    ensures Merge(groups, properties)[i].0 != Merge(groups, properties)[j].0
  {
    MergeDistinct(groups, properties);
  }

  lemma {:induction false} MergeDistinct(groups: Groups, properties: Groups)
    requires DistinctNames(groups) && DistinctNames(properties)
    ensures DistinctNames(Merge(groups, properties))
    decreases |properties|
  {
    if properties != [] {
      var next := Upsert(groups, properties[0].0, properties[0].1);
      UpsertDistinct(groups, properties[0].0, properties[0].1);
      assert DistinctNames(properties[1..]);
      MergeDistinct(next, properties[1..]);
    }
  }

  lemma UpsertDistinct(groups: Groups, name: string, tags: Tags)
    requires DistinctNames(groups)
    ensures DistinctNames(Upsert(groups, name, tags))
  {
    var r := Upsert(groups, name, tags);
    forall i, j | 0 <= i < j < |r| ensures r[i].0 != r[j].0 {
      assert Names(r)[i] == r[i].0 && Names(r)[j] == r[j].0;
      if name in Names(groups) {
        assert Names(groups)[i] == groups[i].0 && Names(groups)[j] == groups[j].0;
      } else {
        if j < |groups| {
          assert Names(groups)[i] == groups[i].0 && Names(groups)[j] == groups[j].0;
        } else {
          assert Names(groups)[i] == groups[i].0;
        }
      }
    }
  }
}
