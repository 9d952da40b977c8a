/**
 * The checks one attribute makes against its parent dict, shared by
 * `AttributeValidator.validate` (validators.py) and the adapters' attribute
 * checks (base.py, creator.py): presence, type, and the companion keys that
 * must be present together with it.
 */
module Rules {
  import opened Values

  /** A raised error: which message template, and the key it names. */
  datatype Error =
    | MissingKey(key: Option<string>)
    | IncorrectDataType(key: Option<string>)
    | EmptyValue(key: Option<string>)
    | RequiredTogether(key: Option<string>, companions: seq<string>)
    | IncorrectRootType
    | NotInTypesMapping(key: Option<string>)
    | UnmappedType
    | NotAnAdapterAttribute
    | NotEditable(key: Option<string>)
    | RequiresDataType(dataType: TypeTag)
    | AdapterNotEditable
    | InsertedValueNotMatched
    /** The `AttributeError` of reading `self._name` on an attribute never bound to a name. */
    | NameNotBound

  /** Returning normally, or raising one error. */
  datatype Outcome = Pass | Fail(error: Error)

  /** `required_with if required_with else []` (schema.py:11, base.py:48, creator.py:12). */
  function RequiredWithOrEmpty(requiredWith: Option<seq<string>>): (r: seq<string>)
    ensures requiredWith.None? ==> r == []
    ensures requiredWith.Some? ==> r == requiredWith.value
  {
    if requiredWith.Some? then requiredWith.value else []
  }

  /**
   * The missing-key test, then the type test (validators.py:17-21, base.py:65-69,
   * creator.py:23-26).
   */
  function PresenceAndType(name: Option<string>, dataType: TypeTag, required: bool, raw: Value): (r: Outcome)
    ensures r == Pass <==> (required ==> raw != VNone) && (raw != VNone ==> IsInstance(raw, dataType))
    ensures required && raw == VNone ==> r == Fail(MissingKey(name))
    ensures raw != VNone && !IsInstance(raw, dataType) ==> r == Fail(IncorrectDataType(name))
  {
    if required && raw == VNone then Fail(MissingKey(name))
    else if raw != VNone && !IsInstance(raw, dataType) then Fail(IncorrectDataType(name))
    else Pass
  }

  /** The `required_with` names that are not keys of the parent dict. */
  function MissingCompanions(requiredWith: seq<string>, parent: Dict): (missing: set<string>)
    ensures forall n :: n in missing <==> n in requiredWith && n !in parent.fields
  {
    (set n | n in requiredWith) - parent.fields.Keys
  }

  /** The companion test: the error names the attribute and its whole `required_with` list. */
  function CompanionCheck(name: Option<string>, requiredWith: seq<string>, parent: Dict): (r: Outcome)
    ensures r == Pass <==> forall n | n in requiredWith :: n in parent.fields
    ensures r.Fail? ==> r.error == RequiredTogether(name, requiredWith)
  {
    if MissingCompanions(requiredWith, parent) == {} then Pass
    else Fail(RequiredTogether(name, requiredWith))
  }

  /**
   * `AttributeValidator.validate` (validators.py:14-32) and base.py's
   * `AdapterAttribute.validate` (base.py:81-93): presence, type, done when
   * absent, otherwise every companion must be a key of the same parent.
   */
  function AttributeCheck(name: Option<string>, dataType: TypeTag, required: bool,
                          requiredWith: seq<string>, parent: Dict): Outcome
  {
    var raw := parent.Get(name);
    var basic := PresenceAndType(name, dataType, required, raw);
    if basic.Fail? then basic
    else if raw == VNone then Pass
    else CompanionCheck(name, requiredWith, parent)
  }

  /**
   * The companion loop (validators.py:26-29, base.py:87-90, creator.py:48-51):
   * start from `set(required_with)` and remove each key met in `items()`.
   */
  method RemainingCompanions(requiredWith: seq<string>, parent: Dict) returns (remaining: set<string>)
    requires parent.Valid()
    ensures remaining == MissingCompanions(requiredWith, parent)
  {
    remaining := set n | n in requiredWith;
    var i := 0;
    while i < |parent.order|
      invariant 0 <= i <= |parent.order|
      invariant remaining == (set n | n in requiredWith) - (set j | 0 <= j < i :: parent.order[j])
    {
      var k := parent.order[i];
      if k in remaining {
        remaining := remaining - {k};
      }
      i := i + 1;
    }
    assert (set j | 0 <= j < |parent.order| :: parent.order[j]) == parent.fields.Keys by {
      forall k | k in parent.fields ensures k in (set j | 0 <= j < |parent.order| :: parent.order[j]) {
        var j :| 0 <= j < |parent.order| && parent.order[j] == k;
      }
    }
  }

  /** `_validate_set_data` (base.py:75-79, creator.py:38-42): editable first, then the exact type. */
  function SetDataCheck(name: Option<string>, dataType: TypeTag, editable: bool, value: Value): (r: Outcome)
    ensures r == Pass <==> editable && ExactType(value) == dataType
    ensures !editable ==> r == Fail(if name.None? then NameNotBound else NotEditable(name))
    ensures editable && ExactType(value) != dataType ==> r == Fail(RequiresDataType(dataType))
  {
    if !editable then Fail(if name.None? then NameNotBound else NotEditable(name))
    else if ExactType(value) != dataType then Fail(RequiresDataType(dataType))
    else Pass
  }

  // Properties of the attribute check (validators.py:14-32).

  /** A required key that is absent or None fails with "Missing key", whatever else holds. */
  lemma MissingKeyFirst(name: Option<string>, dataType: TypeTag, requiredWith: seq<string>, parent: Dict)
    requires parent.Get(name) == VNone
    ensures AttributeCheck(name, dataType, true, requiredWith, parent) == Fail(MissingKey(name))
  {
  }

  /** A present value that is not an instance of the declared type fails with "Incorrect data type". */
  lemma WrongTypeFails(name: Option<string>, dataType: TypeTag, required: bool, requiredWith: seq<string>, parent: Dict)
    requires parent.Get(name) != VNone && !IsInstance(parent.Get(name), dataType)
    ensures AttributeCheck(name, dataType, required, requiredWith, parent) == Fail(IncorrectDataType(name))
  {
  }

  /** An absent optional key passes, and its companions are never looked at. */
  lemma AbsentOptionalPasses(name: Option<string>, dataType: TypeTag, requiredWith: seq<string>, parent: Dict)
    requires parent.Get(name) == VNone
    ensures AttributeCheck(name, dataType, false, requiredWith, parent) == Pass
  {
  }

  /**
   * A present, well-typed key passes iff every companion is a key of the same
   * parent; presence counts even when the companion's value is None.
   */
  lemma CompanionsDecide(name: Option<string>, dataType: TypeTag, required: bool, requiredWith: seq<string>, parent: Dict)
    requires parent.Get(name) != VNone && IsInstance(parent.Get(name), dataType)
    ensures AttributeCheck(name, dataType, required, requiredWith, parent) == Pass
            <==> forall n | n in requiredWith :: n in parent.fields
    ensures AttributeCheck(name, dataType, required, requiredWith, parent).Fail? ==>
            AttributeCheck(name, dataType, required, requiredWith, parent) == Fail(RequiredTogether(name, requiredWith))
  {
  }

  /** The verdict is one of the three, in the order the checks run. */
  lemma AttributeCheckOutcomes(name: Option<string>, dataType: TypeTag, required: bool, requiredWith: seq<string>, parent: Dict)
    ensures var r := AttributeCheck(name, dataType, required, requiredWith, parent);
            r.Fail? ==> r.error in {MissingKey(name), IncorrectDataType(name), RequiredTogether(name, requiredWith)}
  {
  }

  /** `dict.get(name, None)`: a key mapped to None is checked exactly like a missing key. */
  lemma {:induction false} ExplicitNoneIsAbsent(key: string, dataType: TypeTag, required: bool,
                                                requiredWith: seq<string>, parent: Dict)
    ensures AttributeCheck(Some(key), dataType, required, requiredWith, parent.Set(key, VNone))
         == AttributeCheck(Some(key), dataType, required, requiredWith, parent.Without(key))
  {
    assert parent.Set(key, VNone).Get(Some(key)) == VNone;
    assert parent.Without(key).Get(Some(key)) == VNone;
  }
}
