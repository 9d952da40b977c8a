/**
 * The validator engine of validators.py: a tree of attribute and compound
 * validators, run fail-fast in declaration order under a root that demands a
 * dict.
 */
module Validators {
  import opened Values
  import opened Rules

  /**
   * `AttributeValidator` (validators.py:4-35) and `CompoundAttributeValidator`
   * (validators.py:38-49). A compound validator has no type of its own to
   * choose: its constructor fixes it to dict.
   */
  datatype Validator =
    | AttributeValidator(name: Option<string>, dataType: TypeTag, required: bool, requiredWith: seq<string>)
    | CompoundAttributeValidator(name: Option<string>, required: bool, requiredWith: seq<string>,
                                 children: seq<Validator>)
  {
    /** The type a validator demands: its declared one, and dict for a compound (validators.py:40). */
    function DataType(): (t: TypeTag)
      ensures AttributeValidator? ==> t == dataType
      ensures CompoundAttributeValidator? ==> t == DictType
    {
      if AttributeValidator? then dataType else DictType
    }
  }

  /** `SchemaValidator` (validators.py:52-60). */
  datatype SchemaValidator = SchemaValidator(children: seq<Validator>)

  /** `validator.validate(parent_data)`. */
  function Validate(v: Validator, parent: Dict): Outcome
    decreases v
  {
    match v
    case AttributeValidator(name, dataType, required, requiredWith) =>
      AttributeCheck(name, dataType, required, requiredWith, parent)
    case CompoundAttributeValidator(name, required, requiredWith, children) =>
      var own := AttributeCheck(name, DictType, required, requiredWith, parent);
      if own.Fail? then own
      else match parent.Get(name)
        case VDict(d) => ValidateAll(children, d)
        case _ => Pass
  }

  /** The loop `for child_validator in ...: child_validator.validate(d)`, stopping at the first raise. */
  function ValidateAll(vs: seq<Validator>, d: Dict): Outcome
    decreases vs
  {
    if vs == [] then Pass
    else
      var first := Validate(vs[0], d);
      if first.Fail? then first else ValidateAll(vs[1..], d)
  }

  /** `SchemaValidator.validate(data)`: the root must be exactly a dict. */
  function ValidateSchema(s: SchemaValidator, data: Value): Outcome {
    if ExactType(data) != DictType then Fail(IncorrectRootType)
    else ValidateAll(s.children, data.d)
  }

  /** `MappingMixin._validate_against_mapping` (validators.py:85-87): the exact type must be a key. */
  function ValidateAgainstMapping<V>(mapping: map<TypeTag, V>, name: Option<string>, raw: Value): (r: Outcome)
    ensures r == Pass <==> ExactType(raw) in mapping
    ensures r.Fail? ==> r.error == NotInTypesMapping(name)
  {
    if ExactType(raw) !in mapping then Fail(NotInTypesMapping(name)) else Pass
  }

  // Fail-fast, declaration-ordered child runs.

  /** The children pass together iff each passes on its own. */
  lemma {:induction false} ValidateAllPassIff(vs: seq<Validator>, d: Dict)
    ensures ValidateAll(vs, d) == Pass <==> forall i | 0 <= i < |vs| :: Validate(vs[i], d) == Pass
  {
    if vs != [] {
      ValidateAllPassIff(vs[1..], d);
      assert forall i | 1 <= i < |vs| :: vs[i] == vs[1..][i - 1];
    }
  }

  /** When children before `i` pass and child `i` fails, child `i`'s error is the one returned. */
  lemma {:induction false} ValidateAllFirstFailure(vs: seq<Validator>, d: Dict, i: nat)
    requires i < |vs|
    requires forall j | 0 <= j < i :: Validate(vs[j], d) == Pass
    requires Validate(vs[i], d).Fail?
    ensures ValidateAll(vs, d) == Validate(vs[i], d)
  {
    if i > 0 {
      assert forall j | 0 <= j < i - 1 :: vs[1..][j] == vs[j + 1];
      ValidateAllFirstFailure(vs[1..], d, i - 1);
    }
  }

  /** Every failure of the children is the failure of one child, all before it passing. */
  lemma {:induction false} ValidateAllFailureIsFirst(vs: seq<Validator>, d: Dict)
    requires ValidateAll(vs, d).Fail?
    ensures exists i | 0 <= i < |vs| ::
      (forall j | 0 <= j < i :: Validate(vs[j], d) == Pass) && ValidateAll(vs, d) == Validate(vs[i], d)
  {
    if Validate(vs[0], d).Fail? {
      assert ValidateAll(vs, d) == Validate(vs[0], d);
    } else {
      ValidateAllFailureIsFirst(vs[1..], d);
      var i :| 0 <= i < |vs[1..]| &&
        (forall j | 0 <= j < i :: Validate(vs[1..][j], d) == Pass) && ValidateAll(vs[1..], d) == Validate(vs[1..][i], d);
      assert vs[1..][i] == vs[i + 1];
      forall j | 0 <= j < i + 1 ensures Validate(vs[j], d) == Pass {
        if j > 0 { assert vs[j] == vs[1..][j - 1]; }
      }
    }
  }

  // Compound validators (validators.py:38-49).

  /** A compound validator checks its own value as a dict: any other present value is the wrong type. */
  lemma CompoundTypeIsDict(v: Validator, parent: Dict)
    requires v.CompoundAttributeValidator?
    requires parent.Get(v.name) != VNone && !parent.Get(v.name).VDict?
    ensures v.DataType() == DictType
    ensures Validate(v, parent) == Fail(IncorrectDataType(v.name))
  {
  }

  /** An absent compound value runs no child: the children cannot change the verdict. */
  lemma CompoundAbsentRunsNoChild(v: Validator, parent: Dict, others: seq<Validator>)
    requires v.CompoundAttributeValidator? && parent.Get(v.name) == VNone
    ensures Validate(v, parent) == Validate(v.(children := others), parent)
    ensures Validate(v, parent) == if v.required then Fail(MissingKey(v.name)) else Pass
  {
  }

  /** A present, valid compound value hands the nested dict to its children, in order. */
  lemma CompoundPresentRunsChildren(v: Validator, parent: Dict, d: Dict)
    requires v.CompoundAttributeValidator? && parent.Get(v.name) == VDict(d)
    requires MissingCompanions(v.requiredWith, parent) == {}
    ensures Validate(v, parent) == ValidateAll(v.children, d)
  {
  }

  /** A present compound value with a missing companion fails before any child runs. */
  lemma CompoundCompanionsBeforeChildren(v: Validator, parent: Dict, others: seq<Validator>)
    requires v.CompoundAttributeValidator? && parent.Get(v.name).VDict?
    requires MissingCompanions(v.requiredWith, parent) != {}
    ensures Validate(v, parent) == Fail(RequiredTogether(v.name, v.requiredWith))
    ensures Validate(v.(children := others), parent) == Validate(v, parent)
  {
  }

  // The root (validators.py:52-60).

  /** A root that is not exactly a dict fails, whatever the schema. */
  lemma RootMustBeDict(s: SchemaValidator, data: Value)
    requires !data.VDict?
    ensures ValidateSchema(s, data) == Fail(IncorrectRootType)
  {
  }

  /** A dict root passes iff every top-level child passes; otherwise the first failing child's error is raised. */
  lemma {:induction false} RootRunsChildrenInOrder(s: SchemaValidator, d: Dict)
    ensures ValidateSchema(s, VDict(d)) == Pass <==> forall i | 0 <= i < |s.children| :: Validate(s.children[i], d) == Pass
    ensures ValidateSchema(s, VDict(d)).Fail? ==>
      exists i | 0 <= i < |s.children| :: (forall j | 0 <= j < i :: Validate(s.children[j], d) == Pass)
                                          && ValidateSchema(s, VDict(d)) == Validate(s.children[i], d)
  {
    ValidateAllPassIff(s.children, d);
    if ValidateAll(s.children, d).Fail? {
      ValidateAllFailureIsFirst(s.children, d);
    }
  }

  /** The mapping check uses the exact type: a bool is refused by a table that lists only int. */
  lemma MappingIgnoresSubclasses<V>(mapping: map<TypeTag, V>, name: Option<string>, b: bool)
    requires IntType in mapping && BoolType !in mapping
    ensures IsInstance(VBool(b), IntType)
    ensures ValidateAgainstMapping(mapping, name, VBool(b)) == Fail(NotInTypesMapping(name))
  {
  }
}
