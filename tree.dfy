/** Path reads and path writes on a settings tree, as `Config.get` and
    `Config.set` perform them (config.js:149-182): the reading walk, the
    writing walk with its replacement of missing or non-object intermediates
    by `{}`, and the TypeErrors JavaScript raises when the writing walk
    reaches `null`. */
module Tree {
  import opened Wrappers
  import opened Text
  import opened Json

  /** The value one reading step moves to: `current && typeof current === 'object'
      && key in current` then `current[key]`. On an array that is an index below
      its length, or `length` itself. */
  function Child(node: Value, key: string): (r: Option<Value>)
    ensures r.Some? ==> node.Obj? || node.Arr?
  {
    match node
    case Obj(f) => if key in f then Some(f[key]) else None
    case Arr(items) =>
      if IsIndexBelow(key, |items|) then Some(items[ArrayIndex(key).value])
      else if key == "length" then Some(Num(|items|))
      else None
    case _ => None
  }

  /** The node at the end of the reading walk along `keys`, or None (undefined)
      as soon as a node is not an object or lacks the next key. */
  function Lookup(node: Value, keys: seq<string>): (r: Option<Value>)
    ensures |keys| == 0 ==> r == Some(node)
    ensures |keys| > 0 && r.Some? ==> node.Obj? || node.Arr?
    decreases |keys|
  {
    if |keys| == 0 then Some(node)
    else
      match Child(node, keys[0])
      case None => None
      case Some(c) => Lookup(c, keys[1..])
  }

  /** Why a write by path fails. The first three are the JavaScript exceptions
      the walk raises; the last covers writes the value model cannot represent. */
  datatype SetError =
    | InOperatorOnNonObject        // `key in null`: TypeError
    | AssignOnNonObject            // `null[key] = value`: TypeError
    | InvalidArrayLength           // `array.length = {}`: RangeError
    | ArrayPropertyNotModelled     // a named property on an array, or an index past its end

  /** For a segment before the last: the node the writing walk continues with.
      An existing child of object type (object, array or null) is kept; a missing
      or primitive child is replaced by a fresh `{}`. */
  function StepInto(node: Value, key: string): (r: Result<Value, SetError>)
    ensures r.Success? ==> IsObjectType(r.value)
    ensures r.Success? <==> node.Obj? || (node.Arr? && IsIndexBelow(key, |node.items|))
  {
    match node
    case Obj(f) => Success(if key in f && IsObjectType(f[key]) then f[key] else EmptyObj)
    case Arr(items) =>
      if IsIndexBelow(key, |items|) then
        var c := items[ArrayIndex(key).value];
        Success(if IsObjectType(c) then c else EmptyObj)
      else if key == "length" then Failure(InvalidArrayLength)
      else Failure(ArrayPropertyNotModelled)
    case _ => Failure(InOperatorOnNonObject)
  }

  /** `current[key] = child` on an object, or on an array at an existing index. */
  function PutChild(node: Value, key: string, child: Value): (r: Value)
    requires node.Obj? || (node.Arr? && IsIndexBelow(key, |node.items|))
    ensures node.Obj? ==> r.Obj? && r.fields.Keys == node.fields.Keys + {key}
    ensures node.Arr? ==> r.Arr? && |r.items| == |node.items|
    ensures Child(r, key) == Some(child)
  {
    match node
    case Obj(f) => Obj(f[key := child])
    case Arr(items) => Arr(items[ArrayIndex(key).value := child])
  }

  /** The final assignment `current[lastKey] = value`. */
  function Assign(node: Value, key: string, value: Value): (r: Result<Value, SetError>)
    ensures r.Success? <==> node.Obj? || (node.Arr? && IsIndexBelow(key, |node.items|))
    ensures r.Success? ==> r.value == PutChild(node, key, value)
  {
    match node
    case Obj(_) => Success(PutChild(node, key, value))
    case Arr(items) =>
      if IsIndexBelow(key, |items|) then Success(PutChild(node, key, value))
      else Failure(ArrayPropertyNotModelled)
    case _ => Failure(AssignOnNonObject)
  }

  /** The tree after the writing walk from `node` along `keys` assigns `value`. */
  function SetIn(node: Value, keys: seq<string>, value: Value): (r: Result<Value, SetError>)
    requires |keys| >= 1
    ensures r.Success? && node.Obj? ==> r.value.Obj?
    ensures r.Success? && node.Arr? ==> r.value.Arr? && |r.value.items| == |node.items|
    ensures r.Success? ==> node.Obj? || node.Arr?
    decreases |keys|
  {
    if |keys| == 1 then Assign(node, keys[0], value)
    else
      match StepInto(node, keys[0])
      case Failure(e) => Failure(e)
      case Success(c) =>
        match SetIn(c, keys[1..], value)
        case Failure(e) => Failure(e)
        case Success(c') => Success(PutChild(node, keys[0], c'))
  }

  /** `keys` and `q` agree on their first `j` segments and differ at segment `j`. */
  predicate DivergeAt(keys: seq<string>, q: seq<string>, j: nat) {
    j < |keys| && j < |q| && keys[..j] == q[..j] && keys[j] != q[j]
  }

  /** Once the reading walk finds nothing, a longer path finds nothing either. */
  lemma {:induction false} LookupPrefixNone(node: Value, keys: seq<string>, j: nat)
    requires j <= |keys| && Lookup(node, keys[..j]).None?
    ensures Lookup(node, keys).None?
    decreases j
  {
    assert j > 0;
    assert keys[..j][0] == keys[0];
    match Child(node, keys[0])
    case None =>
    case Some(c) =>
      assert keys[..j][1..] == keys[1..][..j - 1];
      LookupPrefixNone(c, keys[1..], j - 1);
  }

  lemma LookupEmpty(v: Value, keys: seq<string>)
    requires |keys| > 0 && (v == EmptyObj || !IsObjectType(v))
    ensures Lookup(v, keys) == None
  {
  }

  /** After a successful write of `value` at `keys`, reading `keys` followed by
      any further segments reads inside `value`; with no further segments the
      read returns `value` itself. */
  lemma {:induction false} LookupAfterSet(node: Value, keys: seq<string>, value: Value, rest: seq<string>)
    requires |keys| >= 1 && SetIn(node, keys, value).Success?
    ensures Lookup(SetIn(node, keys, value).value, keys + rest) == Lookup(value, rest)
    decreases |keys|
  {
    var r := SetIn(node, keys, value).value;
    assert (keys + rest)[0] == keys[0];
    assert (keys + rest)[1..] == keys[1..] + rest;
    if |keys| == 1 {
      assert Child(r, keys[0]) == Some(value);
    } else {
      var c := StepInto(node, keys[0]).value;
      LookupAfterSet(c, keys[1..], value, rest);
      assert Child(r, keys[0]) == Some(SetIn(c, keys[1..], value).value);
    }
  }

  /** No node the writing walk reads before the last segment is `null` or an
      array: each such node is missing, an object or a primitive. */
  predicate WalkClear(node: Value, keys: seq<string>) {
    forall j | 0 < j < |keys| ::
      Lookup(node, keys[..j]).None? || !(Lookup(node, keys[..j]).value.Null? || Lookup(node, keys[..j]).value.Arr?)
  }

  /** A write into an object succeeds when its walk meets no `null` and no array
      before the last segment. */
  lemma {:induction false} SetSucceeds(node: Value, keys: seq<string>, value: Value)
    requires |keys| >= 1 && node.Obj? && WalkClear(node, keys)
    ensures SetIn(node, keys, value).Success?
    decreases |keys|
  {
    if |keys| > 1 {
      var c := StepInto(node, keys[0]).value;
      assert keys[..1][0] == keys[0] && keys[..1][1..] == [];
      assert c.Obj? by {
        if c != EmptyObj {
          assert Lookup(node, keys[..1]) == Some(c);
        }
      }
      forall j | 0 < j < |keys| - 1
        ensures Lookup(c, keys[1..][..j]).None? || !(Lookup(c, keys[1..][..j]).value.Null? || Lookup(c, keys[1..][..j]).value.Arr?)
      {
        assert keys[..j + 1][0] == keys[0] && keys[..j + 1][1..] == keys[1..][..j];
        if c == EmptyObj {
          LookupEmpty(c, keys[1..][..j]);
        } else {
          assert Lookup(node, keys[..j + 1]) == Lookup(c, keys[1..][..j]);
        }
      }
      SetSucceeds(c, keys[1..], value);
    }
  }

  /** A write under a key the object does not have yet always succeeds. */
  lemma SetFreshSucceeds(node: Value, keys: seq<string>, value: Value)
    requires |keys| >= 1 && node.Obj? && keys[0] !in node.fields
    ensures SetIn(node, keys, value).Success?
  {
    forall j | 0 < j < |keys|
      ensures Lookup(node, keys[..j]).None?
    {
      assert keys[..j][0] == keys[0];
    }
    SetSucceeds(node, keys, value);
  }

  /** `set(p, v)` then `get(p)` returns `v`. */
  lemma GetAfterSet(node: Value, keys: seq<string>, value: Value)
    requires |keys| >= 1 && SetIn(node, keys, value).Success?
    ensures Lookup(SetIn(node, keys, value).value, keys) == Some(value)
  {
    LookupAfterSet(node, keys, value, []);
    assert keys + [] == keys;
  }

  /** Writing under a key leaves every other child of the same node as it was. */
  lemma ChildFrame(node: Value, key: string, child: Value, other: string)
    requires node.Obj? || (node.Arr? && IsIndexBelow(key, |node.items|))
    requires other != key
    ensures Child(PutChild(node, key, child), other) == Child(node, other)
  {
    if node.Arr? && IsIndexBelow(other, |node.items|) {
      assert ArrayIndex(other).value != ArrayIndex(key).value;
    }
  }

  /** A write at `keys` changes nothing that is reached by a path branching off
      `keys` before its end: all other keys along the path are untouched. */
  lemma {:induction false} SetFrame(node: Value, keys: seq<string>, value: Value, q: seq<string>, j: nat)
    requires |keys| >= 1 && SetIn(node, keys, value).Success?
    requires DivergeAt(keys, q, j)
    ensures Lookup(SetIn(node, keys, value).value, q) == Lookup(node, q)
    decreases |keys|
  {
    var r := SetIn(node, keys, value).value;
    if j == 0 {
      if |keys| == 1 {
        ChildFrame(node, keys[0], value, q[0]);
      } else {
        ChildFrame(node, keys[0], SetIn(StepInto(node, keys[0]).value, keys[1..], value).value, q[0]);
      }
    } else {
      assert q[0] == keys[0] by { assert keys[..j][0] == q[..j][0]; }
      var c := StepInto(node, keys[0]).value;
      var c' := SetIn(c, keys[1..], value).value;
      assert DivergeAt(keys[1..], q[1..], j - 1) by {
        assert keys[1..][..j - 1] == keys[..j][1..];
        assert q[1..][..j - 1] == q[..j][1..];
      }
      SetFrame(c, keys[1..], value, q[1..], j - 1);
      assert Child(r, q[0]) == Some(c');
      assert Lookup(r, q) == Lookup(c', q[1..]) == Lookup(c, q[1..]);
      match Child(node, q[0])
      case None =>
        LookupEmpty(c, q[1..]);
      case Some(orig) =>
        if orig != c {
          LookupEmpty(c, q[1..]);
          LookupEmpty(orig, q[1..]);
        }
    }
  }

  /** `set` throws when its walk reaches an existing `null` before the last segment. */
  lemma {:induction false} SetThroughNull(node: Value, keys: seq<string>, value: Value, j: nat)
    requires 0 < j < |keys|
    requires Lookup(node, keys[..j]) == Some(Null)
    ensures SetIn(node, keys, value).Failure?
    decreases j
  {
    var c := Child(node, keys[0]).value;
    assert keys[..j][1..] == keys[1..][..j - 1];
    if j == 1 {
      assert c == Null;
      assert StepInto(node, keys[0]) == Success(Null);
    } else {
      assert Lookup(c, keys[1..][..j - 1]) == Some(Null);
      assert Child(c, keys[1]).Some?;
      assert StepInto(node, keys[0]) == Success(c);
      SetThroughNull(c, keys[1..], value, j - 1);
    }
  }

  /** Where the walk found no child of object type, `set` leaves an object whose
      only key is the next segment of the path, as a fresh `{}` followed by the
      rest of the walk produces. */
  lemma {:induction false} SetCreatesIntermediates(node: Value, keys: seq<string>, value: Value, j: nat)
    requires |keys| >= 1 && SetIn(node, keys, value).Success?
    requires 0 < j < |keys|
    requires Lookup(node, keys[..j]).None? || !IsObjectType(Lookup(node, keys[..j]).value)
    ensures Lookup(SetIn(node, keys, value).value, keys[..j]).Some?
    ensures Lookup(SetIn(node, keys, value).value, keys[..j]).value.Obj?
    ensures Lookup(SetIn(node, keys, value).value, keys[..j]).value.fields.Keys == {keys[j]}
    decreases j
  {
    var r := SetIn(node, keys, value).value;
    var c := StepInto(node, keys[0]).value;
    var c' := SetIn(c, keys[1..], value).value;
    assert Child(r, keys[0]) == Some(c');
    assert keys[..j][1..] == keys[1..][..j - 1];
    assert Lookup(r, keys[..j]) == Lookup(c', keys[1..][..j - 1]);
    if j == 1 {
      assert c == EmptyObj by {
        match Child(node, keys[0])
        case None =>
        case Some(orig) => assert Lookup(node, keys[..j]) == Some(orig);
      }
      if |keys| == 2 {
        assert c' == Obj(map[keys[1] := value]);
      } else {
        assert c' == PutChild(EmptyObj, keys[1], SetIn(StepInto(EmptyObj, keys[1]).value, keys[2..], value).value);
      }
    } else {
      match Child(node, keys[0])
      case None =>
        assert c == EmptyObj;
        SetCreatesIntermediates(c, keys[1..], value, j - 1);
      case Some(orig) =>
        assert Lookup(node, keys[..j]) == Lookup(orig, keys[1..][..j - 1]);
        if c == orig {
          SetCreatesIntermediates(c, keys[1..], value, j - 1);
        } else {
          assert c == EmptyObj;
          LookupEmpty(orig, keys[1..][..j - 1]);
          SetCreatesIntermediates(c, keys[1..], value, j - 1);
        }
    }
  }
}
