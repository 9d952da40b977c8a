/**
 * The data the validators inspect: the Python values a JSON document decodes
 * to, Python's dict with its insertion order, and the built-in type tags that
 * schemas and adapters are declared with.
 */
module Values {

  datatype Option<+T> = None | Some(value: T)

  /** The Python built-in types a declaration or a type-keyed table can name. */
  datatype TypeTag = NoneType | BoolType | IntType | StrType | ListType | DictType | ObjectType

  datatype Value =
    | VNone
    | VBool(b: bool)
    | VInt(i: int)
    | VStr(s: string)
    | VList(items: seq<Value>)
    | VDict(d: Dict)

  /**
   * A Python dict with string keys. `fields` is the key-to-value table and
   * `order` the insertion order that `items()` walks.
   */
  datatype Dict = Dict(order: seq<string>, fields: map<string, Value>) {

    /** Every Python dict: each key once in `order`, and `order` holds exactly the keys. */
    ghost predicate Valid() {
      && (forall i, j | 0 <= i < j < |order| :: order[i] != order[j])
      && fields.Keys == (set k | k in order)
    }

    /** `d.get(name, None)`: a missing key and a key mapped to None read alike. */
    function Get(name: Option<string>): (v: Value)
      ensures name.Some? && name.value in fields ==> v == fields[name.value]
      ensures (name.None? || name.value !in fields) ==> v == VNone
    {
      if name.Some? && name.value in fields then fields[name.value] else VNone
    }

    /** `d[key] = value`: an existing key keeps its place, a new key goes last. */
    function Set(key: string, value: Value): (r: Dict)
      ensures r.fields == fields[key := value]
      ensures Valid() ==> r.Valid()
      ensures key in fields ==> r.order == order
      ensures key !in fields ==> r.order == order + [key]
    {
      if key in fields then Dict(order, fields[key := value])
      else Dict(order + [key], fields[key := value])
    }

    /** `del d[key]`. */
    function Without(key: string): (r: Dict)
      ensures r.fields.Keys == fields.Keys - {key}
      ensures forall k | k in r.fields :: r.fields[k] == fields[k]
      ensures Valid() ==> r.Valid()
    {
      Dict(Remove(order, key), fields - {key})
    }
  }

  /** `s` without `x`, the other elements in their order. */
  function Remove(s: seq<string>, x: string): (r: seq<string>)
    ensures forall y :: y in r <==> y in s && y != x
    ensures (forall i, j | 0 <= i < j < |s| :: s[i] != s[j]) ==> forall i, j | 0 <= i < j < |r| :: r[i] != r[j]
  {
    if s == [] then []
    else
      var rest := Remove(s[1..], x);
      assert (forall i, j | 0 <= i < j < |s| :: s[i] != s[j]) ==>
        (forall i, j | 0 <= i < j < |s[1..]| :: s[1..][i] != s[1..][j]) && s[0] !in s[1..] by {
        assert forall i | 0 <= i < |s[1..]| :: s[1..][i] == s[i + 1];
      }
      if s[0] == x then rest
      else
        var r := [s[0]] + rest;
        assert forall i | 1 <= i < |r| :: r[i] == rest[i - 1];
        r
  }

  const EmptyDict := Dict([], map[])

  /** `type(v)`. */
  function ExactType(v: Value): TypeTag {
    match v
    case VNone => NoneType
    case VBool(_) => BoolType
    case VInt(_) => IntType
    case VStr(_) => StrType
    case VList(_) => ListType
    case VDict(_) => DictType
  }

  /** Python's subclass relation on the built-in tags: bool derives from int, everything from object. */
  predicate IsSubclass(sub: TypeTag, sup: TypeTag) {
    sub == sup || sup == ObjectType || (sub == BoolType && sup == IntType)
  }

  /** `isinstance(v, t)`. */
  predicate IsInstance(v: Value, t: TypeTag) {
    IsSubclass(ExactType(v), t)
  }

  /** `not v`: None, False, zero and the empty string, list and dict are falsy. */
  predicate Falsy(v: Value) {
    match v
    case VNone => true
    case VBool(b) => !b
    case VInt(i) => i == 0
    case VStr(s) => s == ""
    case VList(items) => items == []
    case VDict(d) => d.fields == map[]
  }

  /** Only a dict is an instance of dict, and everything is an instance of object. */
  lemma InstanceOfDictOrObject(v: Value)
    ensures IsInstance(v, DictType) <==> v.VDict?
    ensures IsInstance(v, ObjectType)
  {
  }

  /**
   * `isinstance` and the exact-type test disagree exactly on subclasses: a bool
   * is an int to `isinstance` but not to `type(v) == int`, and no value has the
   * exact type object.
   */
  lemma InstanceVersusExactType(v: Value, t: TypeTag)
    ensures ExactType(v) == t ==> IsInstance(v, t)
    ensures IsInstance(v, t) && ExactType(v) != t <==> t == ObjectType || (t == IntType && v.VBool?)
    ensures ExactType(v) != ObjectType
  {
  }

  /** Writing a key changes that key only. */
  lemma SetChangesOneKey(d: Dict, key: string, value: Value)
    ensures d.Set(key, value).Get(Some(key)) == value
    ensures forall k | k != key :: d.Set(key, value).Get(Some(k)) == d.Get(Some(k))
    ensures d.Set(key, value).fields.Keys == d.fields.Keys + {key}
  {
  }
}
