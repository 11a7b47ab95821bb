/** `Config.mergeDeep` (config.js:129-141): the recursive merge that layers the
    environment overrides and a loaded file over the defaults.  `Merged` is the
    merge as a function; `MergeDeep` is the source's loop over the source keys,
    proved to compute it. */
module DeepMerge {
  import opened Wrappers
  import opened Json
  import opened Tree

  /** `result[key] || {}`: the target side of a recursive merge. */
  function BaseFor(t: map<string, Value>, key: string): (b: Value)
    ensures Truthy(b)
  {
    if key in t && Truthy(t[key]) then t[key] else EmptyObj
  }

  /** The merged object. Every key of the target survives; a key of the source
      whose value is a (truthy, non-array) object is merged recursively into
      `target[key] || {}`; every other source value (array, scalar, null, false,
      0, "") replaces the target's value wholesale. The target is spread with
      `{...target}` and the source enumerated with `for...in`, both of which
      `Spread` models. */
  function Merged(target: Value, source: Value): (r: map<string, Value>)
    ensures r.Keys == Spread(target).Keys + Spread(source).Keys
    decreases source
  {
    var t := Spread(target);
    var s := Spread(source);
    map k | k in t.Keys + s.Keys ::
      if k in s then (if s[k].Obj? then Obj(Merged(BaseFor(t, k), s[k])) else s[k]) else t[k]
  }

  /** Every key of the target that the source lacks keeps its value; every
      non-object value of the source replaces the target's wholesale. */
  lemma MergedEntries(target: Value, source: Value)
    ensures forall k :: k in Spread(target) && k !in Spread(source) ==> Merged(target, source)[k] == Spread(target)[k]
    ensures forall k :: k in Spread(source) && !Spread(source)[k].Obj? ==> Merged(target, source)[k] == Spread(source)[k]
  {
  }

  /** The value the merge stores under a key of the source. */
  function MergedEntry(t: map<string, Value>, s: map<string, Value>, key: string): Value
    requires key in s
  {
    if s[key].Obj? then Obj(Merged(BaseFor(t, key), s[key])) else s[key]
  }

  /** `mergeDeep(target, source)`: start from a copy of the target and assign
      each source key in turn, recursing into object values. */
  method MergeDeep(target: Value, source: Value) returns (result: map<string, Value>)
    ensures result == Merged(target, source)
    decreases source, 1
  {
    MergedIsMergeOf(target, source);
    result := MergeKeys(source, Spread(target), Spread(source), Merged(target, source));
  }

  /** The loop of `mergeDeep` over the keys `s` of `source`, starting from the
      spread target `t`; `m` is the merge it builds. */
  method MergeKeys(ghost source: Value, t: map<string, Value>, s: map<string, Value>, ghost m: map<string, Value>)
    returns (result: map<string, Value>)
    requires s == Spread(source) && MergeOf(t, s, m)
    ensures result == m
    decreases source, 0
  {
    result := t;
    var pending := s.Keys;
    while pending != {}
      invariant pending <= s.Keys
      invariant MergedExcept(t, s, m, pending, result)
      decreases pending
    {
      var key :| key in pending;
      var value := s[key];
      var entry := value;
      if value.Obj? {
        PendingKeepsTarget(t, s, m, pending, result, key);
        var merged := MergeDeep(BaseFor(result, key), value);
        entry := Obj(merged);
      }
      MergedStep(t, s, m, pending, result, key, entry);
      result := result[key := entry];
      pending := pending - {key};
    }
    MergedDone(t, s, m, result);
  }

  /** `m` holds the merge's entry under every source key and the target's
      value under every other key. */
  predicate MergeOf(t: map<string, Value>, s: map<string, Value>, m: map<string, Value>) {
    && m.Keys == t.Keys + s.Keys
    && forall k :: k in m ==> m[k] == if k in s then MergedEntry(t, s, k) else t[k]
  }

  lemma MergedIsMergeOf(target: Value, source: Value)
    ensures MergeOf(Spread(target), Spread(source), Merged(target, source))
  {
  }

  /** The loop's state: the target's keys, with the merge's entries for the
      source keys already visited (those not `pending`). */
  predicate MergedExcept(t: map<string, Value>, s: map<string, Value>, m: map<string, Value>,
                         pending: set<string>, result: map<string, Value>) {
    && MergeOf(t, s, m)
    && result.Keys == t.Keys + (s.Keys - pending)
    && forall k :: k in result ==> result[k] == if k in s && k !in pending then m[k] else t[k]
  }

  /** A pending key still holds the target's value, so the recursion starts
      from `target[key] || {}`. */
  lemma PendingKeepsTarget(t: map<string, Value>, s: map<string, Value>, m: map<string, Value>,
                           pending: set<string>, result: map<string, Value>, key: string)
    requires key in pending && MergedExcept(t, s, m, pending, result)
    ensures BaseFor(result, key) == BaseFor(t, key)
  {
  }

  /** With no key pending, the loop's state is the merge. */
  lemma MergedDone(t: map<string, Value>, s: map<string, Value>, m: map<string, Value>, result: map<string, Value>)
    requires MergedExcept(t, s, m, {}, result)
    ensures result == m
  {
    forall k | k in result
      ensures result[k] == m[k]
    {
    }
  }

  /** Storing the merge's entry for one pending key keeps the loop's state. */
  lemma MergedStep(t: map<string, Value>, s: map<string, Value>, m: map<string, Value>, pending: set<string>,
                   result: map<string, Value>, key: string, entry: Value)
    requires pending <= s.Keys && key in pending && MergedExcept(t, s, m, pending, result)
    requires entry == MergedEntry(t, s, key)
    ensures MergedExcept(t, s, m, pending - {key}, result[key := entry])
  {
    var next := result[key := entry];
    assert entry == m[key];
    forall k | k in next
      ensures next[k] == if k in s && k !in pending - {key} then m[k] else t[k]
    {
      if k != key {
        assert next[k] == result[k];
      }
    }
  }

  /** `p` leads through objects only, from `v` to an existing node. */
  predicate ThroughObjects(v: Value, p: seq<string>)
    decreases |p|
  {
    |p| == 0 || (v.Obj? && p[0] in v.fields && ThroughObjects(v.fields[p[0]], p[1..]))
  }

  /** The source object says nothing about the node at `p`: at some point along
      `p` the source lacks the next key, and up to there it has objects only. */
  predicate Untouched(s: Value, p: seq<string>)
    decreases |p|
  {
    |p| > 0 && s.Obj? && (p[0] !in s.fields || (|p| > 1 && Untouched(s.fields[p[0]], p[1..])))
  }

  /** Wherever the target has an object, the source has an object too (or nothing). */
  predicate Compatible(t: Value, s: Value)
    decreases t
  {
    t.Obj? && s.Obj? ==>
      forall k | k in t.fields && k in s.fields ::
        t.fields[k].Obj? ==> s.fields[k].Obj? && Compatible(t.fields[k], s.fields[k])
  }

  /** A non-object value that the source holds at a path made of objects is
      what the merged tree holds there: the source wins. */
  lemma {:induction false} SourceLeafWins(t: Value, s: Value, p: seq<string>)
    requires |p| > 0 && ThroughObjects(s, p) && Lookup(s, p).Some? && !Lookup(s, p).value.Obj?
    ensures Lookup(Obj(Merged(t, s)), p) == Lookup(s, p)
    decreases |p|
  {
    var k := p[0];
    var sv := s.fields[k];
    if |p| > 1 {
      SourceLeafWins(BaseFor(Spread(t), k), sv, p[1..]);
    }
  }

  /** A target node the source leaves untouched keeps its value in the merge. */
  lemma {:induction false} TargetKeptWhereUntouched(t: Value, s: Value, p: seq<string>)
    requires ThroughObjects(t, p) && Untouched(s, p)
    ensures Lookup(Obj(Merged(t, s)), p) == Lookup(t, p)
    decreases |p|
  {
    var k := p[0];
    if k in s.fields {
      TargetKeptWhereUntouched(t.fields[k], s.fields[k], p[1..]);
    }
  }

  /** When the source never replaces a target object by a non-object, every
      path of the target is still present in the merge: no key is dropped. */
  lemma {:induction false} TargetPathsSurvive(t: Value, s: Value, p: seq<string>)
    requires s.Obj? && Compatible(t, s) && ThroughObjects(t, p)
    ensures Lookup(Obj(Merged(t, s)), p).Some?
    decreases |p|
  {
    if |p| > 0 {
      var k := p[0];
      var r := Merged(t, s);
      if k in s.fields && s.fields[k].Obj? && |p| > 1 {
        TargetPathsSurvive(t.fields[k], s.fields[k], p[1..]);
      } else if k !in s.fields {
        assert r[k] == t.fields[k];
        LookupThroughObjects(t.fields[k], p[1..]);
      }
    }
  }

  lemma {:induction false} LookupThroughObjects(v: Value, p: seq<string>)
    requires ThroughObjects(v, p)
    ensures Lookup(v, p).Some?
    decreases |p|
  {
    if |p| > 0 {
      LookupThroughObjects(v.fields[p[0]], p[1..]);
    }
  }

  /** Merging an object with an empty source copies it. */
  lemma MergeEmptySource(t: map<string, Value>)
    ensures Merged(Obj(t), EmptyObj) == t
  {
  }

  /** Merging the same source a second time changes nothing, whatever the
      source is: an object, an array, a string or a scalar. */
  lemma {:induction false} MergeIdempotent(t: Value, s: Value)
    ensures Merged(Obj(Merged(t, s)), s) == Merged(t, s)
    decreases s, 1
  {
    var r := Merged(t, s);
    var r2 := Merged(Obj(r), s);
    forall k | k in r2
      ensures r2[k] == r[k]
    {
      MergeIdempotentAt(t, s, k);
    }
    assert r2.Keys == r.Keys;
  }

  /** One key of `MergeIdempotent`. */
  lemma {:induction false} MergeIdempotentAt(t: Value, s: Value, k: string)
    requires k in Merged(t, s)
    ensures Merged(Obj(Merged(t, s)), s)[k] == Merged(t, s)[k]
    decreases s, 0
  {
    var r := Merged(t, s);
    var src := Spread(s);
    assert Spread(Obj(r)) == r;
    if k in src && src[k].Obj? {
      var b := BaseFor(Spread(t), k);
      assert r[k] == Obj(Merged(b, src[k]));
      assert BaseFor(r, k) == r[k];
      MergeIdempotent(b, src[k]);
    }
  }

}
