/** The path accessor behind `get` and `setAtPath`, which src/utils/mutators.ts and
    src/components/TagsInput.tsx import from src/utils/helpers.ts together with
    `isPlainObject`. The bodies of those three functions are not part of this model.
    `Paths` assumes that a path is a dotted string split into segments, that `get` walks
    nested plain objects only and reads `undefined` wherever the walk stops, and that
    `setAtPath` creates (or replaces) intermediate objects and refuses the segments
    `__proto__`, `constructor` and `prototype`. */
module Paths {
  import opened Wrappers
  import opened Types

  /** A path has at least one segment (`"".split('.')` is `[""]`). */
  type Path = p: seq<string> | |p| > 0 witness [""]

  /** Index of the first occurrence of `c` in `s`. */
  function IndexOf(s: string, c: char): (i: nat)
    requires c in s
    ensures i < |s| && s[i] == c && c !in s[..i]
  {
    if s[0] == c then 0
    else
      var j := IndexOf(s[1..], c);
      assert s[..j + 1] == [s[0]] + s[1..][..j];
      j + 1
  }

  /** `s.split('.')`. */
  function Split(s: string): (segments: Path)
    ensures forall k :: 0 <= k < |segments| ==> '.' !in segments[k]
    decreases |s|
  {
    if '.' !in s then [s]
    else
      var i := IndexOf(s, '.');
      [s[..i]] + Split(s[i + 1..])
  }

  /** `segments.join('.')`. */
  function Join(segments: Path): string
    decreases |segments|
  {
    if |segments| == 1 then segments[0] else segments[0] + "." + Join(segments[1..])
  }

  /** Splitting loses nothing: joining the segments gives the dotted string back. */
  lemma {:induction false} JoinSplit(s: string)
    ensures Join(Split(s)) == s
    decreases |s|
  {
    if '.' in s {
      var i := IndexOf(s, '.');
      JoinSplit(s[i + 1..]);
      assert Split(s)[1..] == Split(s[i + 1..]);
      assert s == s[..i] + "." + s[i + 1..];
    }
  }

  /** `s.split('.')[0]`: the part of `s` before its first dot, which is all of `s`
      exactly when `s` has no dot. */
  function FirstSegment(s: string): (head: string)
    ensures '.' !in head
    ensures head <= s
    ensures head == s <==> '.' !in s
  {
    var segments := Split(s);
    if '.' in s then
      var i := IndexOf(s, '.');
      assert s[i] !in s[..i];
      segments[0]
    else segments[0]
  }

  /** `get(record, path)`: the value at `path`, or `undefined` when a segment is missing
      or an intermediate value is not a plain object (arrays included). */
  function Get(r: Record, p: Path): (v: Value)
    ensures v != Undefined ==> p[0] in r
    ensures |p| == 1 ==> v == Lookup(r, p[0])
    decreases |p|
  {
    if p[0] !in r then Undefined
    else if |p| == 1 then r[p[0]]
    else match r[p[0]]
      case Obj(fields) => Get(fields, p[1..])
      case _ => Undefined
  }

  /** Reading a long path is reading its first part and then, inside the plain object
      found there, the rest; anything else found there reads as `undefined`. */
  lemma {:induction false} GetAppend(r: Record, p: Path, q: Path)
    ensures Get(r, p + q) == match Get(r, p) { case Obj(fields) => Get(fields, q) case _ => Undefined }
    decreases |p|
  {
    assert (p + q)[0] == p[0];
    if |p| > 1 {
      assert (p + q)[1..] == p[1..] + q;
      if p[0] in r && r[p[0]].Obj? {
        GetAppend(r[p[0]].fields, p[1..], q);
      }
    } else {
      assert (p + q)[1..] == q;
    }
  }

  /** The write `setAtPath` performs once the path is accepted: only the key `p[0]`
      changes, and an intermediate that is not a plain object is replaced by one. */
  function Put(r: Record, p: Path, v: Value): (r': Record)
    ensures r'.Keys == r.Keys + {p[0]}
    ensures forall k :: k in r && k != p[0] ==> r'[k] == r[k]
    decreases |p|
  {
    if |p| == 1 then r[p[0] := v]
    else
      var child := if p[0] in r && r[p[0]].Obj? then r[p[0]].fields else map[];
      r[p[0] := Obj(Put(child, p[1..], v))]
  }

  predicate Forbidden(segment: string) {
    segment == "__proto__" || segment == "constructor" || segment == "prototype"
  }

  predicate SafePath(p: Path) {
    forall k :: 0 <= k < |p| ==> !Forbidden(p[k])
  }

  /** `setAtPath(record, path, value)`, applied to a copy: fails with `UnsafePath` on a
      forbidden segment, otherwise `get` of the same path reads the written value back. */
  function SetAtPath(r: Record, p: Path, v: Value): (res: Result<Record, Error>)
    ensures res.Success? <==> SafePath(p)
    ensures res.Success? ==> res.value.Keys == r.Keys + {p[0]}
    ensures res.Success? ==> Get(res.value, p) == v
  {
    if SafePath(p) then
      GetPut(r, p, v);
      Success(Put(r, p, v))
    else Failure(UnsafePath)
  }

  /** Two paths neither of which is a prefix of the other: they part ways at some segment. */
  predicate Disjoint(p: Path, q: Path)
    decreases |p|
  {
    p[0] != q[0] || (|p| > 1 && |q| > 1 && Disjoint(p[1..], q[1..]))
  }

  /** Parting ways does not depend on which path comes first. */
  lemma {:induction false} DisjointSymmetric(p: Path, q: Path)
    requires Disjoint(p, q)
    ensures Disjoint(q, p)
    decreases |p|
  {
    if p[0] == q[0] {
      DisjointSymmetric(p[1..], q[1..]);
    }
  }

  /** Get after set on the same path. */
  lemma {:induction false} GetPut(r: Record, p: Path, v: Value)
    ensures Get(Put(r, p, v), p) == v
    decreases |p|
  {
    if |p| > 1 {
      var child := if p[0] in r && r[p[0]].Obj? then r[p[0]].fields else map[];
      GetPut(child, p[1..], v);
    }
  }

  /** Get after set on a path that parts ways with the written one sees the old value. */
  lemma {:induction false} GetPutDisjoint(r: Record, p: Path, q: Path, v: Value)
    requires Disjoint(p, q)
    ensures Get(Put(r, p, v), q) == Get(r, q)
    decreases |p|
  {
    if p[0] == q[0] {
      var child := if p[0] in r && r[p[0]].Obj? then r[p[0]].fields else map[];
      GetPutDisjoint(child, p[1..], q[1..], v);
      if !(p[0] in r && r[p[0]].Obj?) {
        assert Get(child, q[1..]) == Undefined;
      }
    }
  }

  /** Deleting a key the path does not start with, or a key that holds `undefined`,
      does not change what the path reads. */
  lemma GetRemove(r: Record, k: string, p: Path)
    requires p[0] != k || Lookup(r, k) == Undefined
    ensures Get(r - {k}, p) == Get(r, p)
  {
  }
}
