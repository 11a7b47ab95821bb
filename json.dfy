/** The JSON-like values the configuration tree and the Lambda replies are made of,
    with the few JavaScript operations the client applies to them: truthiness,
    `typeof`, object spread / `for...in` enumeration, property reads and
    conversion to a string inside a template literal.  Numbers are integers.
    `undefined` is not a Value: an absent property is `None`. */
module Json {
  import opened Wrappers
  import opened Text

  datatype Value =
    | Obj(fields: map<string, Value>)
    | Arr(items: seq<Value>)
    | Str(chars: string)
    | Num(n: int)
    | Bool(b: bool)
    | Null

  const EmptyObj: Value := Obj(map[])

  /** JavaScript truthiness (ToBoolean). */
  predicate Truthy(v: Value) {
    match v
    case Obj(_) => true
    case Arr(_) => true
    case Str(s) => s != ""
    case Num(n) => n != 0
    case Bool(b) => b
    case Null => false
  }

  /** The falsy values are exactly `null`, `false`, `0` and `""`. */
  lemma FalsyValues(v: Value)
    ensures !Truthy(v) <==> v in {Null, Bool(false), Num(0), Str("")}
  {
  }

  /** Truthiness of a possibly-undefined value (`undefined` is falsy). */
  predicate TruthyOpt(o: Option<Value>) {
    o.Some? && Truthy(o.value)
  }

  /** `typeof v === 'object'`: objects, arrays, and null. */
  predicate IsObjectType(v: Value) {
    v.Obj? || v.Arr? || v.Null?
  }

  /** A canonical array index: a non-empty digit string with no leading zero
      (except "0" itself). JavaScript's `key in array` holds for exactly these
      keys below the length. */
  function ArrayIndex(key: string): (r: Option<nat>)
    ensures r.Some? ==> Show(r.value) == key
  {
    if |key| > 0 && AllDigits(key) && Show(ParseDigits(key)) == key then Some(ParseDigits(key)) else None
  }

  lemma ArrayIndexOfShow(i: nat)
    ensures ArrayIndex(Show(i)) == Some(i)
  {
    ParseShow(i);
  }

  /** `key` names one of the first `len` elements of an array. */
  predicate IsIndexBelow(key: string, len: nat) {
    ArrayIndex(key).Some? && ArrayIndex(key).value < len
  }

  lemma ShowInjectiveAll()
    ensures forall m: nat, n: nat {:trigger Show(m), Show(n)} :: Show(m) == Show(n) ==> m == n
  {
    forall m: nat, n: nat | Show(m) == Show(n) ensures m == n {
      ShowInjective(m, n);
    }
  }

  /** The own enumerable properties of an array or a string: index keys. */
  function IndexMap<T>(xs: seq<T>): (r: map<string, T>)
    ensures forall k :: k in r <==> IsIndexBelow(k, |xs|)
    ensures forall k :: k in r ==> IsIndexBelow(k, |xs|) && r[k] == xs[ArrayIndex(k).value]
  {
    ShowInjectiveAll();
    var r := map i | 0 <= i < |xs| :: Show(i) := xs[i];
    assert forall k :: k in r ==> IsIndexBelow(k, |xs|) && r[k] == xs[ArrayIndex(k).value] by {
      forall k | k in r ensures IsIndexBelow(k, |xs|) && r[k] == xs[ArrayIndex(k).value] {
        var i :| 0 <= i < |xs| && Show(i) == k;
        ArrayIndexOfShow(i);
      }
    }
    assert forall k :: IsIndexBelow(k, |xs|) ==> k in r by {
      forall k | IsIndexBelow(k, |xs|) ensures k in r {
        var i := ArrayIndex(k).value;
        assert Show(i) == k;
      }
    }
    r
  }

  /** The properties that `{...v}` copies and that `for (key in v)` visits:
      an object's fields, the elements of an array or the characters of a
      string under their index keys, and nothing for null, numbers and booleans. */
  function Spread(v: Value): (r: map<string, Value>)
    ensures v.Obj? ==> r == v.fields
    ensures !v.Obj? && !v.Arr? ==> forall k :: k in r ==> r[k].Str?
    ensures v.Num? || v.Bool? || v.Null? ==> r == map[]
  {
    match v
    case Obj(f) => f
    case Arr(items) => IndexMap(items)
    case Str(s) => IndexMap(seq(|s|, i requires 0 <= i < |s| => Str([s[i]])))
    case _ => map[]
  }

  /** An array spreads to its elements under their canonical index keys. */
  lemma SpreadArray(items: seq<Value>)
    ensures forall k :: k in Spread(Arr(items)) ==>
      IsIndexBelow(k, |items|) && Spread(Arr(items))[k] == items[ArrayIndex(k).value]
    ensures forall k :: IsIndexBelow(k, |items|) ==> k in Spread(Arr(items))
  {
  }

  /** A string spreads to its characters, each a one-character string, under
      their index keys. */
  lemma SpreadString(s: string)
    ensures forall k :: k in Spread(Str(s)) <==> IsIndexBelow(k, |s|)
    ensures forall k :: k in Spread(Str(s)) ==> Spread(Str(s))[k] == Str([s[ArrayIndex(k).value]])
    ensures forall k :: k in Spread(Str(s)) ==> |Spread(Str(s))[k].chars| == 1
  {
  }

  /** Reading `v[name]` for an own data property: null throws a TypeError,
      an object yields its field or `undefined`, other values yield `undefined`. */
  datatype Read = Threw(message: string) | Got(value: Option<Value>)

  /** The TypeError message of reading `name` off `null`. */
  function NullRead(name: string): string {
    "Cannot read properties of null (reading '" + name + "')"
  }

  function ReadProp(v: Value, name: string): (r: Read)
    ensures r.Threw? <==> v.Null?
    ensures r.Threw? ==> r.message == NullRead(name)
    ensures r.Got? && r.value.Some? ==> v.Obj? && name in v.fields && r.value.value == v.fields[name]
    ensures v.Obj? && name in v.fields ==> r == Got(Some(v.fields[name]))
  {
    match v
    case Null => Threw(NullRead(name))
    case Obj(f) => Got(if name in f then Some(f[name]) else None)
    case _ => Got(None)
  }

  /** `String(v)`, which is what a template literal `${v}` produces; an array
      renders as its elements joined by commas, with null elements empty. */
  function Display(v: Value): (r: string)
    ensures v.Str? ==> r == v.chars
    ensures v.Num? ==> r == ShowInt(v.n)
    ensures !v.Str? && !v.Arr? ==> |r| > 0
  {
    match v
    case Obj(_) => "[object Object]"
    case Arr(items) =>
      Join(seq(|items|, i requires 0 <= i < |items| => if items[i].Null? then "" else Display(items[i])), ",")
    case Str(s) => s
    case Num(n) => ShowInt(n)
    case Bool(b) => if b then "true" else "false"
    case Null => "null"
  }

  /** `${o}` for a possibly-undefined value. */
  function DisplayOpt(o: Option<Value>): (r: string)
    ensures o.None? ==> r == "undefined"
    ensures o.Some? && o.value.Str? ==> r == o.value.chars
  {
    match o
    case None => "undefined"
    case Some(v) => Display(v)
  }
}
