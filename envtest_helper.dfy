/** Helpers of the test environment: merging path lists and CRD lists, and
    back-filling the type information (group, version, kind) of objects.
    The runtime scheme is abstract: conversion to the unstructured form is
    passed in as a partial function, and each object carries the type the
    scheme detects for it. */
module EnvtestHelper {
  import opened Results

  /** The set of elements of a sequence. */
  ghost function Elements<T>(s: seq<T>): set<T>
  {
    set x | x in s
  }

  /** No element occurs twice. */
  ghost predicate Distinct<T>(s: seq<T>)
  {
    forall i, j :: 0 <= i < j < |s| ==> s[i] != s[j]
  }

  /** Appending an element not yet present keeps a sequence duplicate-free. */
  lemma DistinctAppend<T>(s: seq<T>, x: T)
    requires Distinct(s) && x !in s
    ensures Distinct(s + [x])
    ensures Elements(s + [x]) == Elements(s) + {x}
  {
  }

  // ---------------------------------------------------------------------------
  // mergePaths

  /** Set union of two path lists: every path of either list occurs exactly
      once; the order of the result is unspecified. */
  method MergePaths(s1: seq<string>, s2: seq<string>) returns (merged: seq<string>)
    ensures forall p :: p in merged <==> p in s1 || p in s2
    ensures Distinct(merged)
    ensures |merged| == |Elements(s1) + Elements(s2)|
  {
    var m: set<string> := {};
    for i := 0 to |s1|
      invariant m == Elements(s1[..i])
    {
      assert s1[..i + 1] == s1[..i] + [s1[i]];
      m := m + {s1[i]};
    }
    assert s1[..|s1|] == s1;
    for i := 0 to |s2|
      invariant m == Elements(s1) + Elements(s2[..i])
    {
      assert s2[..i + 1] == s2[..i] + [s2[i]];
      m := m + {s2[i]};
    }
    assert s2[..|s2|] == s2;
    merged := KeysToSlice(m);
    forall p
      ensures p in merged <==> p in s1 || p in s2
    {
      assert p in merged <==> p in Elements(merged);
      assert p in s1 <==> p in Elements(s1);
      assert p in s2 <==> p in Elements(s2);
    }
  }

  /** Copies the keys of a string set into a slice of exactly its size, in
      the set's (unspecified) iteration order. */
  method KeysToSlice(m: set<string>) returns (s: seq<string>)
    ensures Elements(s) == m && Distinct(s) && |s| == |m|
  {
    var buffer := new string[|m|];
    var i := 0;
    var rest := m;
    ghost var done: seq<string> := [];
    while rest != {}
      invariant rest <= m
      invariant i + |rest| == |m|
      invariant buffer[..i] == done
      invariant Elements(done) == m - rest
      invariant Distinct(done)
      decreases |rest|
    {
      var key :| key in rest;
      assert |rest - {key}| == |rest| - 1;
      assert key !in Elements(done);
      DistinctAppend(done, key);
      buffer[i] := key;
      done := done + [key];
      i := i + 1;
      rest := rest - {key};
    }
    assert buffer[..] == done;
    s := buffer[..];
  }

  // ---------------------------------------------------------------------------
  // runtimeCRDListToUnstructured

  /** The objects of `l` that convert successfully, converted, in input order. */
  function Converted<O, U>(l: seq<O>, convert: O -> Option<U>): (r: seq<U>)
    ensures |r| <= |l|
    decreases |l|
  {
    if l == [] then []
    else
      var init, last := l[..|l| - 1], l[|l| - 1];
      match convert(last)
      case Some(u) => Converted(init, convert) + [u]
      case None => Converted(init, convert)
  }

  /** Every converted object comes from an input object, and every input
      object that converts is represented. */
  lemma {:induction false} ConvertedMembers<O, U>(l: seq<O>, convert: O -> Option<U>)
    ensures forall u :: u in Converted(l, convert) ==> exists o :: o in l && convert(o) == Some(u)
    ensures forall o :: o in l && convert(o).Some? ==> convert(o).value in Converted(l, convert)
    decreases |l|
  {
    if l != [] {
      var init, last := l[..|l| - 1], l[|l| - 1];
      assert l == init + [last];
      ConvertedMembers(init, convert);
    }
  }

  /** Conversion distributes over concatenation: the kept objects stay in
      input order. */
  lemma {:induction false} ConvertedAppend<O, U>(a: seq<O>, b: seq<O>, convert: O -> Option<U>)
    ensures Converted(a + b, convert) == Converted(a, convert) + Converted(b, convert)
    decreases |b|
  {
    if b == [] {
      assert a + b == a;
    } else {
      var init, last := b[..|b| - 1], b[|b| - 1];
      assert (a + b)[..|a + b| - 1] == a + init;
      assert (a + b)[|a + b| - 1] == last;
      ConvertedAppend(a, init, convert);
    }
  }

  /** When every object converts, nothing is skipped and the order is kept. */
  lemma {:induction false} ConvertedAll<O, U>(l: seq<O>, convert: O -> Option<U>)
    requires forall o :: o in l ==> convert(o).Some?
    ensures |Converted(l, convert)| == |l|
    ensures forall i :: 0 <= i < |l| ==> Converted(l, convert)[i] == convert(l[i]).value
    decreases |l|
  {
    if l != [] {
      var init, last := l[..|l| - 1], l[|l| - 1];
      assert forall o :: o in init ==> o in l;
      ConvertedAll(init, convert);
      assert Converted(l, convert) == Converted(init, convert) + [convert(last).value];
      forall i | 0 <= i < |l|
        ensures Converted(l, convert)[i] == convert(l[i]).value
      {
        if i < |init| {
          assert l[i] == init[i];
        }
      }
    }
  }

  /** Converts each object, skipping (after logging) those the scheme cannot
      convert. */
  method RuntimeCRDListToUnstructured<O, U>(l: seq<O>, convert: O -> Option<U>) returns (res: seq<U>)
    ensures res == Converted(l, convert)
  {
    res := [];
    for i := 0 to |l|
      invariant res == Converted(l[..i], convert)
    {
      assert l[..i + 1][..i] == l[..i];
      var u := convert(l[i]);
      if u.None? {
        continue;
      }
      res := res + [u.value];
    }
    assert l[..|l|] == l;
  }

  // ---------------------------------------------------------------------------
  // mergeCRDs

  /** The objects of `l` keyed by name, a later object replacing an earlier one
      of the same name. */
  function ByName<U>(l: seq<U>, name: U -> string): (m: map<string, U>)
    ensures forall k :: k in m ==> name(m[k]) == k && m[k] in l
    decreases |l|
  {
    if l == [] then map[]
    else
      var init, last := l[..|l| - 1], l[|l| - 1];
      assert l == init + [last];
      ByName(init, name)[name(last) := last]
  }

  /** The names kept are exactly the names of the objects. */
  lemma {:induction false} ByNameKeys<U>(l: seq<U>, name: U -> string)
    ensures ByName(l, name).Keys == set u | u in l :: name(u)
    decreases |l|
  {
    if l != [] {
      var init, last := l[..|l| - 1], l[|l| - 1];
      assert l == init + [last];
      ByNameKeys(init, name);
    }
  }

  /** The last object of a given name is the one kept. */
  lemma {:induction false} ByNameLastWins<U>(l: seq<U>, name: U -> string, i: int)
    requires 0 <= i < |l|
    requires forall j :: i < j < |l| ==> name(l[j]) != name(l[i])
    ensures name(l[i]) in ByName(l, name) && ByName(l, name)[name(l[i])] == l[i]
    decreases |l|
  {
    if i < |l| - 1 {
      ByNameLastWins(l[..|l| - 1], name, i);
    }
  }

  /** Keying a concatenation by name is the union of the two keyed maps, the
      second winning on shared names. */
  lemma {:induction false} ByNameAppend<U>(a: seq<U>, b: seq<U>, name: U -> string)
    ensures ByName(a + b, name) == ByName(a, name) + ByName(b, name)
    decreases |b|
  {
    if b == [] {
      assert a + b == a;
    } else {
      var init, last := b[..|b| - 1], b[|b| - 1];
      assert (a + b)[..|a + b| - 1] == a + init;
      assert (a + b)[|a + b| - 1] == last;
      ByNameAppend(a, init, name);
    }
  }

  /** Updating the right operand of a map union updates the union. */
  lemma UnionUpdate<K, V>(a: map<K, V>, b: map<K, V>, k: K, v: V)
    ensures (a + b)[k := v] == a + b[k := v]
  {
  }

  /** The CRDs that survive a merge: the converted objects of `s1` then `s2`,
      keyed by name, the last of each name winning. */
  function MergedByName<O, U>(s1: seq<O>, s2: seq<O>, convert: O -> Option<U>, name: U -> string): map<string, U>
  {
    ByName(Converted(s1 + s2, convert), name)
  }

  /** Merging scans `s1` then `s2`: an object of `s2` overrides any object of
      `s1` with the same name. */
  lemma MergedByNameUnion<O, U>(s1: seq<O>, s2: seq<O>, convert: O -> Option<U>, name: U -> string)
    ensures MergedByName(s1, s2, convert, name)
         == ByName(Converted(s1, convert), name) + ByName(Converted(s2, convert), name)
  {
    ConvertedAppend(s1, s2, convert);
    ByNameAppend(Converted(s1, convert), Converted(s2, convert), name);
  }

  /** Merges two CRD lists by name: exactly one object per distinct name among
      the objects that convert, the last occurrence (scanning `s1` then `s2`)
      winning; the order of the result is unspecified. */
  method MergeCRDs<O, U(0)>(s1: seq<O>, s2: seq<O>, convert: O -> Option<U>, name: U -> string)
    returns (merged: seq<U>)
    ensures ListsValues(merged, MergedByName(s1, s2, convert, name), name)
  {
    var m: map<string, U> := map[];
    var c1 := RuntimeCRDListToUnstructured(s1, convert);
    m := PutByName(m, c1, name);
    assert m == ByName(c1, name);
    var c2 := RuntimeCRDListToUnstructured(s2, convert);
    m := PutByName(m, c2, name);
    MergedByNameUnion(s1, s2, convert, name);
    merged := ValuesToSlice(m, name);
  }

  /** `s` lists each value of the name-keyed map `m` exactly once, in some
      order. */
  ghost predicate ListsValues<U>(s: seq<U>, m: map<string, U>, name: U -> string)
  {
    && |s| == |m|
    && (forall i :: 0 <= i < |s| ==> name(s[i]) in m && m[name(s[i])] == s[i])
    && (forall k :: k in m ==> exists i :: 0 <= i < |s| && name(s[i]) == k)
    && (forall i, j :: 0 <= i < j < |s| ==> name(s[i]) != name(s[j]))
  }

  /** Stores each object of `l` in `m` under its name, in order. */
  method PutByName<U>(m: map<string, U>, l: seq<U>, name: U -> string) returns (r: map<string, U>)
    ensures r == m + ByName(l, name)
  {
    r := m;
    for i := 0 to |l|
      invariant r == m + ByName(l[..i], name)
    {
      assert l[..i + 1][..i] == l[..i];
      UnionUpdate(m, ByName(l[..i], name), name(l[i]), l[i]);
      r := r[name(l[i]) := l[i]];
    }
    assert l[..|l|] == l;
  }

  /** Copies the values of a name-keyed map into a slice of exactly its size,
      in the map's (unspecified) iteration order. */
  method ValuesToSlice<U(0)>(m: map<string, U>, name: U -> string) returns (s: seq<U>)
    requires forall k :: k in m ==> name(m[k]) == k
    ensures ListsValues(s, m, name)
  {
    var buffer := new U[|m|];
    var i := 0;
    var rest := m.Keys;
    ghost var position: map<string, nat> := map[];
    while rest != {}
      invariant rest <= m.Keys
      invariant i + |rest| == |m|
      invariant forall j :: 0 <= j < i ==>
        name(buffer[j]) in m && m[name(buffer[j])] == buffer[j] && name(buffer[j]) !in rest
      invariant forall k :: k in m.Keys - rest ==>
        k in position && position[k] < i && name(buffer[position[k]]) == k
      invariant forall j, j' :: 0 <= j < j' < i ==> name(buffer[j]) != name(buffer[j'])
      decreases |rest|
    {
      var key :| key in rest;
      assert |rest - {key}| == |rest| - 1;
      buffer[i] := m[key];
      position := position[key := i];
      i := i + 1;
      rest := rest - {key};
    }
    s := buffer[..];
    forall k | k in m
      ensures exists i :: 0 <= i < |s| && name(s[i]) == k
    {
      assert name(s[position[k]]) == k;
    }
  }

  // ---------------------------------------------------------------------------
  // fillAllTypeMeta

  datatype GroupVersionKind = GroupVersionKind(group: string, version: string, kind: string)

  /** An object whose type information is updated in place. `detected` is
      the scheme's answer for the object's Go type: a kind, or an error when
      the type is not registered. */
  class Object {
    const detected: Result<GroupVersionKind>
    var gvk: GroupVersionKind

    constructor (detected: Result<GroupVersionKind>, gvk: GroupVersionKind)
      ensures this.detected == detected && this.gvk == gvk
    {
      this.detected := detected;
      this.gvk := gvk;
    }
  }

  /** Fills the empty parts of `current` from `detected`; parts already set are
      never overwritten. */
  function FillTypeMeta(current: GroupVersionKind, detected: GroupVersionKind): (r: GroupVersionKind)
    ensures r.kind == if current.kind == "" then detected.kind else current.kind
    ensures r.group == if current.group == "" then detected.group else current.group
    ensures r.version == if current.version == "" then detected.version else current.version
  {
    GroupVersionKind(
      if current.group == "" then detected.group else current.group,
      if current.version == "" then detected.version else current.version,
      if current.kind == "" then detected.kind else current.kind)
  }

  /** Filling twice from the same detection changes nothing more. */
  lemma FillTypeMetaIdempotent(current: GroupVersionKind, detected: GroupVersionKind)
    ensures FillTypeMeta(FillTypeMeta(current, detected), detected) == FillTypeMeta(current, detected)
  {
  }

  /** Type information that is fully set is left alone, and empty type
      information becomes the detected one; a part stays empty only when it is
      empty on both sides. */
  lemma FillTypeMetaBounds(current: GroupVersionKind, detected: GroupVersionKind)
    ensures current.group != "" && current.version != "" && current.kind != "" ==>
      FillTypeMeta(current, detected) == current
    ensures current == GroupVersionKind("", "", "") ==> FillTypeMeta(current, detected) == detected
    ensures FillTypeMeta(current, detected).kind == "" <==> current.kind == "" && detected.kind == ""
  {
  }

  /** The index of the first object whose type cannot be detected, or `|l|`. */
  function FirstUndetected(l: seq<Object>): (k: nat)
    ensures k <= |l|
    ensures forall i :: 0 <= i < k ==> l[i].detected.Ok?
    ensures k < |l| ==> l[k].detected.Err?
    decreases |l|
  {
    if l == [] || l[0].detected.Err? then 0
    else 1 + FirstUndetected(l[1..])
  }

  /** The objects in `done` are filled from what they held in `orig`; the
      other objects of `l` still hold it. */
  ghost predicate FilledFrom(l: seq<Object>, done: set<Object>, orig: map<Object, GroupVersionKind>)
    reads set o | o in l
  {
    (forall o :: o in l ==> o in orig) &&
    (forall o :: o in done ==> o in l && o.detected.Ok? && o.gvk == FillTypeMeta(orig[o], o.detected.value)) &&
    (forall o :: o in l && o !in done ==> o.gvk == orig[o])
  }

  /** Fills the object at `i`, whose type is detected. */
  method FillObjectAt(l: seq<Object>, i: nat, ghost done: set<Object>, ghost orig: map<Object, GroupVersionKind>)
    requires i < |l| && l[i].detected.Ok?
    requires FilledFrom(l, done, orig)
    modifies l[i]
    ensures FilledFrom(l, done + {l[i]}, orig)
  {
    var o := l[i];
    var objectGVK := o.gvk;
    var detected := o.detected;
    if objectGVK.kind == "" {
      objectGVK := objectGVK.(kind := detected.value.kind);
    }
    if objectGVK.group == "" {
      objectGVK := objectGVK.(group := detected.value.group);
    }
    if objectGVK.version == "" {
      objectGVK := objectGVK.(version := detected.value.version);
    }
    assert objectGVK == FillTypeMeta(orig[o], detected.value) by {
      FillTypeMetaIdempotent(orig[o], detected.value);
    }
    o.gvk := objectGVK;
  }

  /** Fills the type information of each object in turn and stops at the first
      object whose type cannot be detected, returning that error: the objects
      before it are already updated, the later ones are untouched. */
  method FillAllTypeMeta(l: seq<Object>) returns (err: Option<Error>)
    modifies set o | o in l
    ensures FirstUndetected(l) < |l| ==>
      err == Some(l[FirstUndetected(l)].detected.error)
    ensures FirstUndetected(l) == |l| ==> err == None
    ensures forall o :: o in l[..FirstUndetected(l)] ==>
      o.gvk == FillTypeMeta(old(o.gvk), o.detected.value)
    ensures forall o :: o in l && o !in l[..FirstUndetected(l)] ==> o.gvk == old(o.gvk)
  {
    ghost var k := FirstUndetected(l);
    ghost var orig := map o | o in l :: o.gvk;
    ghost var done: set<Object> := {};
    for i := 0 to |l|
      invariant i <= k
      invariant forall o :: o in done <==> o in l[..i]
      invariant FilledFrom(l, done, orig)
    {
      var o := l[i];
      if o.detected.Err? {
        assert i == k;
        return Some(o.detected.error);
      }
      FillObjectAt(l, i, done, orig);
      assert l[..i + 1] == l[..i] + [o];
      done := done + {o};
    }
    assert l[..|l|] == l;
    return None;
  }
}
