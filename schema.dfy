/**
 * The schema layer of schema.py: declared attributes, the metaclass that
 * names them in declaration order, the compile step that turns each
 * attribute into the validator constructor call it makes, and the
 * type-keyed mapping lookup.
 */
module Schema {
  import opened Values
  import opened Rules
  import opened Declarations
  import V = Validators

  /**
   * A `SchemaAttribute` (schema.py:7-28) or one of its subclasses. `name` is
   * None until a metaclass or a mapping lookup binds it.
   */
  datatype SchemaAttribute = SchemaAttribute(name: Option<string>, dataType: TypeTag, required: bool,
                                             requiredWith: seq<string>, kind: Kind)

  datatype Kind =
    | Plain
      /** `SchemaCompoundedAttribute` (schema.py:61-73): the body of its class declares the children. */
    | Compounded(body: seq<Member<SchemaAttribute>>)
      /** `FreeContentCompoundedSchemaAttribute` (schema.py:90-103). */
    | FreeContent(body: seq<Member<SchemaAttribute>>, mapping: map<TypeTag, Entry>)
      /** `FreeTypeSchemaAttribute` (schema.py:106-120). */
    | FreeType(mapping: map<TypeTag, Entry>)

  /** A value of a type-keyed mapping: a schema attribute, or any other object. */
  datatype Entry = AttributeEntry(attr: SchemaAttribute) | OtherEntry

  /** A `Schema` subclass (schema.py:123-125), as its class body. */
  datatype SchemaClass = SchemaClass(body: seq<Member<SchemaAttribute>>)

  /** The constructor call a `get_validator` makes (schema.py:23, 67, 96, 115), with its arguments. */
  datatype Node =
    | AttributeNode(name: Option<string>, dataType: TypeTag, required: bool, requiredWith: seq<string>)
    | CompoundNode(name: Option<string>, required: bool, requiredWith: seq<string>, children: seq<Node>)
    | FreeContentNode(name: Option<string>, required: bool, requiredWith: seq<string>,
                      children: seq<Node>, mapping: map<TypeTag, Node>)
    | FreeTypeNode(name: Option<string>, required: bool, requiredWith: seq<string>, mapping: map<TypeTag, Node>)

  datatype SchemaError =
      /** A mapping value has no `get_validator`: it is not a schema attribute. */
    | EntryWithoutValidator
      /** validators.py defines no class for a free-content or free-type validator. */
    | ValidatorClassMissing
      /** `self._mapping[type(raw_value)]` with no such key: Python's KeyError. */
    | NoEntryForType
      /** `UnexpectedMappingElement` (schema.py:84). */
    | UnexpectedMappingElement

  datatype Result<T> = Ok(value: T) | Err(error: SchemaError)

  // Declaring attributes.

  /** `SchemaAttribute(data_type, required, required_with)`: unnamed, companions defaulting to none. */
  function NewAttribute(dataType: TypeTag, required: bool, requiredWith: Option<seq<string>>): (a: SchemaAttribute)
    ensures a.name == None && a.kind == Plain
    ensures a.dataType == dataType && a.required == required
    ensures a.requiredWith == RequiredWithOrEmpty(requiredWith)
  {
    SchemaAttribute(None, dataType, required, RequiredWithOrEmpty(requiredWith), Plain)
  }

  /** `SchemaCompoundedAttribute(**kwargs)`: any `data_type` the caller passes is dropped for dict. */
  function NewCompounded(body: seq<Member<SchemaAttribute>>, dataType: Option<TypeTag>, required: bool,
                         requiredWith: Option<seq<string>>): (a: SchemaAttribute)
    ensures a.dataType == DictType && a.name == None && a.kind == Compounded(body)
    ensures a.required == required && a.requiredWith == RequiredWithOrEmpty(requiredWith)
  {
    SchemaAttribute(None, DictType, required, RequiredWithOrEmpty(requiredWith), Compounded(body))
  }

  /** `FreeContentCompoundedSchemaAttribute(mapping, **kwargs)`: also forced to dict. */
  function NewFreeContent(mapping: map<TypeTag, Entry>, body: seq<Member<SchemaAttribute>>, dataType: Option<TypeTag>,
                          required: bool, requiredWith: Option<seq<string>>): (a: SchemaAttribute)
    ensures a.dataType == DictType && a.name == None && a.kind == FreeContent(body, mapping)
    ensures a.required == required && a.requiredWith == RequiredWithOrEmpty(requiredWith)
  {
    SchemaAttribute(None, DictType, required, RequiredWithOrEmpty(requiredWith), FreeContent(body, mapping))
  }

  /** `FreeTypeSchemaAttribute(mapping, **kwargs)`: any `data_type` the caller passes is dropped for object. */
  function NewFreeType(mapping: map<TypeTag, Entry>, dataType: Option<TypeTag>, required: bool,
                       requiredWith: Option<seq<string>>): (a: SchemaAttribute)
    ensures a.dataType == ObjectType && a.name == None && a.kind == FreeType(mapping)
    ensures a.required == required && a.requiredWith == RequiredWithOrEmpty(requiredWith)
  {
    SchemaAttribute(None, ObjectType, required, RequiredWithOrEmpty(requiredWith), FreeType(mapping))
  }

  /**
   * `SchemasMetaClass.__new__` (schema.py:36-47): the schema attributes of a
   * class body, in declaration order, each bound to its attribute name.
   */
  function OrderedAttributes(body: seq<Member<SchemaAttribute>>): (r: seq<(string, SchemaAttribute)>)
    ensures |r| == |Collect(body)|
    ensures forall i | 0 <= i < |r| :: r[i].0 == Collect(body)[i].0 && r[i].1.name == Some(r[i].0)
    ensures forall i | 0 <= i < |r| :: r[i].1 == Collect(body)[i].1.(name := Some(r[i].0))
  {
    var c := Collect(body);
    seq(|c|, i requires 0 <= i < |c| => (c[i].0, c[i].1.(name := Some(c[i].0))))
  }

  /** Every schema attribute of the body, and nothing else, is collected under its own name. */
  lemma MetaclassCollectsAttributes(body: seq<Member<SchemaAttribute>>, n: string, a: SchemaAttribute)
    ensures Attr(n, a) in body ==> (n, a.(name := Some(n))) in OrderedAttributes(body)
    ensures forall p | p in OrderedAttributes(body) :: exists b :: Attr(p.0, b) in body && p.1 == b.(name := Some(p.0))
  {
    var c := Collect(body);
    var r := OrderedAttributes(body);
    if Attr(n, a) in body {
      CollectMembership(body, n, a);
      var i :| 0 <= i < |c| && c[i] == (n, a);
      assert r[i] == (n, a.(name := Some(n)));
    }
    forall p | p in r ensures exists b :: Attr(p.0, b) in body && p.1 == b.(name := Some(p.0)) {
      var i :| 0 <= i < |r| && r[i] == p;
      CollectMembership(body, c[i].0, c[i].1);
      assert c[i] in c;
    }
  }

  /** Declaration order is kept: a longer class body adds its attributes after those already declared. */
  lemma OrderedAttributesAppend(a: seq<Member<SchemaAttribute>>, b: seq<Member<SchemaAttribute>>)
    ensures OrderedAttributes(a + b) == OrderedAttributes(a) + OrderedAttributes(b)
  {
    CollectAppend(a, b);
  }

  // Compiling (get_validator).

  /** `get_validator()` of an attribute whose `_name` is `name`. */
  function CompileAs(a: SchemaAttribute, name: Option<string>): (r: Result<Node>)
    decreases a
  {
    match a.kind
    case Plain => Ok(AttributeNode(name, a.dataType, a.required, a.requiredWith))
    case Compounded(body) =>
      var children := CompileBody(body);
      if children.Err? then Err(children.error)
      else Ok(CompoundNode(name, a.required, a.requiredWith, children.value))
    case FreeContent(body, m) =>
      if !(forall t | t in m :: m[t].AttributeEntry? && CompileAs(m[t].attr, m[t].attr.name).Ok?) then
        Err(EntryWithoutValidator)
      else
        var table := map t | t in m :: CompileAs(m[t].attr, m[t].attr.name).value;
        var children := CompileBody(body);
        if children.Err? then Err(children.error)
        else Ok(FreeContentNode(name, a.required, a.requiredWith, children.value, table))
    case FreeType(m) =>
      if !(forall t | t in m :: m[t].AttributeEntry? && CompileAs(m[t].attr, m[t].attr.name).Ok?) then
        Err(EntryWithoutValidator)
      else
        var table := map t | t in m :: CompileAs(m[t].attr, m[t].attr.name).value;
        Ok(FreeTypeNode(name, a.required, a.requiredWith, table))
  }

  /** `SchemaCompoundedMixin.get_attributes_validators` (schema.py:54-58) over a class body. */
  function CompileBody(body: seq<Member<SchemaAttribute>>): (r: Result<seq<Node>>)
    decreases body
  {
    if body == [] then Ok([])
    else
      var rest := CompileBody(body[1..]);
      match body[0]
      case Attr(n, a) =>
        var head := CompileAs(a, Some(n));
        if head.Err? then Err(head.error)
        else if rest.Err? then rest
        else Ok([head.value] + rest.value)
      case _ => rest
  }

  /** `attribute.get_validator()`. */
  function Compile(a: SchemaAttribute): Result<Node> {
    CompileAs(a, a.name)
  }

  /**
   * The attribute holds, in one of its mappings or anywhere below it, a
   * mapping value that is not a schema attribute.
   */
  predicate HasBadEntry(a: SchemaAttribute)
    decreases a, 0
  {
    match a.kind
    case Plain => false
    case Compounded(body) => BodyHasBadEntry(body)
    case FreeContent(body, m) =>
      (exists t | t in m :: m[t].OtherEntry? || HasBadEntry(m[t].attr)) || BodyHasBadEntry(body)
    case FreeType(m) => exists t | t in m :: m[t].OtherEntry? || HasBadEntry(m[t].attr)
  }

  /** Some declared attribute of the body has a bad mapping entry. */
  predicate BodyHasBadEntry(body: seq<Member<SchemaAttribute>>)
    decreases body
  {
    if body == [] then false
    else (body[0].Attr? && HasBadEntry(body[0].attr)) || BodyHasBadEntry(body[1..])
  }

  /**
   * The compile step fails exactly when a mapping value that is not a schema
   * attribute is reachable, and then with that error.
   */
  lemma {:induction false} CompileErrorIsBadEntry(a: SchemaAttribute, name: Option<string>)
    ensures CompileAs(a, name).Err? <==> HasBadEntry(a)
    ensures CompileAs(a, name).Err? ==> CompileAs(a, name).error == EntryWithoutValidator
    decreases a, 1
  {
    match a.kind
    case Plain =>
    case Compounded(body) => CompileBodyErrorIsBadEntry(body);
    case FreeContent(body, m) =>
      CompileBodyErrorIsBadEntry(body);
      forall t | t in m && m[t].AttributeEntry? ensures CompileAs(m[t].attr, m[t].attr.name).Err? <==> HasBadEntry(m[t].attr) {
        CompileErrorIsBadEntry(m[t].attr, m[t].attr.name);
      }
    case FreeType(m) =>
      forall t | t in m && m[t].AttributeEntry? ensures CompileAs(m[t].attr, m[t].attr.name).Err? <==> HasBadEntry(m[t].attr) {
        CompileErrorIsBadEntry(m[t].attr, m[t].attr.name);
      }
  }

  lemma {:induction false} CompileBodyErrorIsBadEntry(body: seq<Member<SchemaAttribute>>)
    ensures CompileBody(body).Err? <==> BodyHasBadEntry(body)
    ensures CompileBody(body).Err? ==> CompileBody(body).error == EntryWithoutValidator
    decreases body
  {
    if body != [] {
      CompileBodyErrorIsBadEntry(body[1..]);
      if body[0].Attr? {
        CompileErrorIsBadEntry(body[0].attr, Some(body[0].name));
      }
    }
  }

  /** A leaf compiles to an `AttributeValidator` call with the same name, type, required and companions. */
  lemma CompileLeafKeepsFields(a: SchemaAttribute)
    requires a.kind.Plain?
    ensures Compile(a) == Ok(AttributeNode(a.name, a.dataType, a.required, a.requiredWith))
  {
  }

  /** Binding a name and then compiling is compiling under that name. */
  lemma CompileBound(a: SchemaAttribute, n: string)
    ensures Compile(a.(name := Some(n))) == CompileAs(a, Some(n))
  {
    var b := a.(name := Some(n));
    assert b.kind == a.kind && b.dataType == a.dataType && b.required == a.required && b.requiredWith == a.requiredWith;
  }

  /** Every attribute of `oa` compiles. */
  predicate AllCompile(oa: seq<(string, SchemaAttribute)>) {
    forall i | 0 <= i < |oa| :: Compile(oa[i].1).Ok?
  }

  /** `ns` holds the validators of `oa`, one each, in order. */
  predicate CompiledInOrder(oa: seq<(string, SchemaAttribute)>, ns: seq<Node>) {
    |ns| == |oa| && forall i | 0 <= i < |oa| :: Compile(oa[i].1) == Ok(ns[i])
  }

  /** One step of `CompileBodyOnePerAttribute`: an attribute put in front of an already compiled rest. */
  lemma CompileConsStep(x: (string, SchemaAttribute), rest: seq<(string, SchemaAttribute)>,
                        r: Result<seq<Node>>, restR: Result<seq<Node>>)
    requires restR.Ok? <==> AllCompile(rest)
    requires restR.Ok? ==> CompiledInOrder(rest, restR.value)
    requires r == (var head := Compile(x.1);
                   if head.Err? then Err(head.error) else if restR.Err? then restR else Ok([head.value] + restR.value))
    ensures r.Ok? <==> AllCompile([x] + rest)
    ensures r.Ok? ==> CompiledInOrder([x] + rest, r.value)
  {
    var oa := [x] + rest;
    assert forall i | 1 <= i < |oa| :: oa[i] == rest[i - 1];
    if AllCompile(oa) {
      forall i | 0 <= i < |rest| ensures Compile(rest[i].1).Ok? {
        assert rest[i] == oa[i + 1];
      }
      assert oa[0] == x && AllCompile(rest);
    }
    if r.Ok? {
      var ns := r.value;
      forall i | 0 <= i < |oa| ensures Compile(oa[i].1) == Ok(ns[i]) {
        if i > 0 {
          assert oa[i] == rest[i - 1] && ns[i] == restR.value[i - 1];
        }
      }
      assert AllCompile(oa);
    }
  }

  /**
   * `get_attributes_validators` makes exactly one validator per declared
   * attribute, in declaration order, each compiled under its bound name.
   */
  lemma {:induction false} CompileBodyOnePerAttribute(body: seq<Member<SchemaAttribute>>)
    ensures CompileBody(body).Ok? <==> AllCompile(OrderedAttributes(body))
    ensures CompileBody(body).Ok? ==> CompiledInOrder(OrderedAttributes(body), CompileBody(body).value)
    decreases body
  {
    if body != [] {
      CompileBodyOnePerAttribute(body[1..]);
      var oa, rest := OrderedAttributes(body), OrderedAttributes(body[1..]);
      assert body == [body[0]] + body[1..];
      OrderedAttributesAppend([body[0]], body[1..]);
      match body[0]
      case Attr(n, a) =>
        CompileBound(a, n);
        assert OrderedAttributes([body[0]]) == [(n, a.(name := Some(n)))];
        CompileConsStep((n, a.(name := Some(n))), rest, CompileBody(body), CompileBody(body[1..]));
      case Routine(_) =>
        assert oa == rest;
      case OtherValue(_) =>
        assert oa == rest;
    }
  }

  /**
   * `get_attributes_validators` (schema.py:54-58) as its loop: each ordered
   * attribute's validator appended in turn; the first raise propagates.
   */
  method GetAttributesValidators(body: seq<Member<SchemaAttribute>>) returns (r: Result<seq<Node>>)
    ensures r == CompileBody(body)
  {
    var attrs := OrderedAttributes(body);
    CompileBodyOnePerAttribute(body);
    var validators: seq<Node> := [];
    var i := 0;
    while i < |attrs|
      invariant 0 <= i <= |attrs|
      invariant |validators| == i && forall j | 0 <= j < i :: Compile(attrs[j].1) == Ok(validators[j])
    {
      var c := Compile(attrs[i].1);
      if c.Err? {
        CompileErrorIsBadEntry(attrs[i].1, attrs[i].1.name);
        CompileBodyErrorIsBadEntry(body);
        return Err(c.error);
      }
      validators := validators + [c.value];
      i := i + 1;
    }
    r := Ok(validators);
    assert r.value == CompileBody(body).value;
  }

  /** A mapping is compiled entry by entry: same keys, each entry's own validator. */
  lemma MappingCompiledEntryByEntry(a: SchemaAttribute)
    requires a.kind.FreeType? || a.kind.FreeContent?
    ensures Compile(a).Ok? ==>
      && (forall t | t in a.kind.mapping :: a.kind.mapping[t].AttributeEntry?)
      && Compile(a).value.mapping.Keys == a.kind.mapping.Keys
      && forall t | t in a.kind.mapping :: Compile(a.kind.mapping[t].attr) == Ok(Compile(a).value.mapping[t])
    ensures (exists t | t in a.kind.mapping :: a.kind.mapping[t].OtherEntry?) ==> Compile(a) == Err(EntryWithoutValidator)
  {
  }

  // The validator classes validators.py provides.

  /**
   * The validator a node's constructor call builds. Attribute and compound
   * nodes have their classes (the compound one at validators.py:38); a
   * free-content or free-type node has none.
   */
  function ToValidator(n: Node): (r: Option<V.Validator>)
    decreases n
    ensures n.FreeContentNode? || n.FreeTypeNode? ==> r.None?
    ensures r.Some? ==> r.value.name == n.name && (r.value.AttributeValidator? <==> n.AttributeNode?)
    ensures r.Some? && n.AttributeNode? ==>
      r.value == V.AttributeValidator(n.name, n.dataType, n.required, n.requiredWith)
    ensures n.AttributeNode? ==> r.Some?
    ensures n.CompoundNode? ==> (r.Some? <==> ToValidators(n.children).Some?)
    ensures r.Some? && n.CompoundNode? ==>
      && r.value.required == n.required && r.value.requiredWith == n.requiredWith
      && r.value.DataType() == DictType && r.value.children == ToValidators(n.children).value
  {
    match n
    case AttributeNode(name, dataType, required, requiredWith) =>
      Some(V.AttributeValidator(name, dataType, required, requiredWith))
    case CompoundNode(name, required, requiredWith, children) =>
      var vs := ToValidators(children);
      if vs.None? then None else Some(V.CompoundAttributeValidator(name, required, requiredWith, vs.value))
    case _ => None
  }

  function ToValidators(ns: seq<Node>): (r: Option<seq<V.Validator>>)
    decreases ns
    ensures r.Some? <==> forall i | 0 <= i < |ns| :: ToValidator(ns[i]).Some?
    ensures r.Some? ==> |r.value| == |ns| && forall i | 0 <= i < |ns| :: ToValidator(ns[i]) == Some(r.value[i])
  {
    if ns == [] then Some([])
    else
      var head := ToValidator(ns[0]);
      var rest := ToValidators(ns[1..]);
      assert forall i | 1 <= i < |ns| :: ns[i] == ns[1..][i - 1];
      if head.None? || rest.None? then None else Some([head.value] + rest.value)
  }

  /** `Schema.get_validator` (schema.py:123-125): the compiled top-level attributes under a `SchemaValidator`. */
  function GetValidator(s: SchemaClass): (r: Result<V.SchemaValidator>)
    ensures r.Ok? <==>
      && AllCompile(OrderedAttributes(s.body))
      && forall i | 0 <= i < |OrderedAttributes(s.body)| :: ToValidator(Compile(OrderedAttributes(s.body)[i].1).value).Some?
    ensures r.Err? ==> r.error in {EntryWithoutValidator, ValidatorClassMissing}
    ensures r.Ok? ==> |r.value.children| == |OrderedAttributes(s.body)|
    ensures r.Ok? ==> forall i | 0 <= i < |r.value.children| ::
      Compile(OrderedAttributes(s.body)[i].1).Ok? &&
      ToValidator(Compile(OrderedAttributes(s.body)[i].1).value) == Some(r.value.children[i])
  {
    CompileBodyOnePerAttribute(s.body);
    CompileBodyErrorIsBadEntry(s.body);
    var children := CompileBody(s.body);
    if children.Err? then Err(children.error)
    else
      var vs := ToValidators(children.value);
      if vs.None? then Err(ValidatorClassMissing) else Ok(V.SchemaValidator(vs.value))
  }

  /** A schema of plain attributes always yields a `SchemaValidator`, one `AttributeValidator` per attribute. */
  lemma PlainSchemaCompiles(s: SchemaClass)
    requires forall m | m in s.body && m.Attr? :: m.attr.kind.Plain?
    ensures GetValidator(s).Ok?
    ensures forall i | 0 <= i < |GetValidator(s).value.children| :: GetValidator(s).value.children[i].AttributeValidator?
  {
    var oa := OrderedAttributes(s.body);
    forall i | 0 <= i < |oa| ensures oa[i].1.kind.Plain? {
      var c := Collect(s.body)[i];
      assert c in Collect(s.body);
      CollectMembership(s.body, c.0, c.1);
    }
    forall i | 0 <= i < |oa| ensures Compile(oa[i].1).Ok? && ToValidator(Compile(oa[i].1).value).Some? {
      CompileLeafKeepsFields(oa[i].1);
    }
  }

  /**
   * A compound attribute compiles to the intended `CompoundAttributeValidator`:
   * same name, required and companions, type dict, and one child per declared
   * attribute of its body.
   */
  lemma CompoundCompilesToCompoundValidator(a: SchemaAttribute)
    requires a.kind.Compounded?
    requires Compile(a).Ok? && ToValidator(Compile(a).value).Some?
    ensures var v := ToValidator(Compile(a).value).value;
      && v.CompoundAttributeValidator? && v.name == a.name && v.required == a.required
      && v.requiredWith == a.requiredWith && v.DataType() == DictType
      && |v.children| == |OrderedAttributes(a.kind.body)|
      && forall i | 0 <= i < |v.children| ::
           Compile(OrderedAttributes(a.kind.body)[i].1).Ok? &&
           ToValidator(Compile(OrderedAttributes(a.kind.body)[i].1).value) == Some(v.children[i])
  {
    CompileBodyOnePerAttribute(a.kind.body);
  }

  // schema.py as written.

  /**
   * `get_validator` as written: schema.py:67 looks up
   * `validators.CompoundedAttributeValidator` and schema.py:96 and 115 look up
   * two more classes; validators.py defines none of the three, so the lookup
   * raises for every attribute that is not a plain one.
   */
  function GetValidatorAsWritten(a: SchemaAttribute): Option<V.Validator> {
    if a.kind.Plain? then Some(V.AttributeValidator(a.name, a.dataType, a.required, a.requiredWith))
    else None
  }

  /** As written, a compound attribute cannot be compiled, although its intended validator exists. */
  lemma CompoundFailsAsWritten(n: string, child: string)
    ensures var a := NewCompounded([Attr(child, NewAttribute(StrType, true, None))], None, true, None).(name := Some(n));
      && GetValidatorAsWritten(a) == None
      && Compile(a) == Ok(CompoundNode(Some(n), true, [], [AttributeNode(Some(child), StrType, true, [])]))
      && ToValidator(Compile(a).value) ==
         Some(V.CompoundAttributeValidator(Some(n), true, [], [V.AttributeValidator(Some(child), StrType, true, [])]))
  {
    var c := NewAttribute(StrType, true, None);
    var body := [Attr(child, c)];
    var a := NewCompounded(body, None, true, None).(name := Some(n));
    assert body[1..] == [];
    assert CompileBody(body[1..]) == Ok([]);
    assert CompileAs(c, Some(child)) == Ok(AttributeNode(Some(child), StrType, true, []));
    var nodes := [AttributeNode(Some(child), StrType, true, [])];
    assert nodes + [] == nodes;
    assert CompileBody(body) == Ok(nodes);
    assert nodes[1..] == [];
    assert ToValidators(nodes[1..]) == Some([]);
    assert [V.AttributeValidator(Some(child), StrType, true, [])] + [] == [V.AttributeValidator(Some(child), StrType, true, [])];
    assert ToValidators(nodes) == Some([V.AttributeValidator(Some(child), StrType, true, [])]);
  }

  // The mapping lookup (schema.py:81-87).

  /**
   * `MappingMixin.get_schema_attribute_instance`: the entry for the value's
   * exact type must be a schema attribute; that shared entry is renamed and
   * returned, so the table afterwards holds the renamed entry.
   */
  function GetSchemaAttributeInstance(mapping: map<TypeTag, Entry>, name: Option<string>, raw: Value)
    : (r: Result<(map<TypeTag, Entry>, SchemaAttribute)>)
    ensures r.Ok? <==> ExactType(raw) in mapping && mapping[ExactType(raw)].AttributeEntry?
    ensures ExactType(raw) !in mapping ==> r == Err(NoEntryForType)
    ensures ExactType(raw) in mapping && mapping[ExactType(raw)].OtherEntry? ==> r == Err(UnexpectedMappingElement)
    ensures r.Ok? ==>
      var t := ExactType(raw);
      && r.value.0.Keys == mapping.Keys
      && r.value.1 == mapping[t].attr.(name := name)
      && r.value.0[t] == AttributeEntry(r.value.1)
      && forall u | u in mapping && u != t :: r.value.0[u] == mapping[u]
  {
    var t := ExactType(raw);
    if t !in mapping then Err(NoEntryForType)
    else match mapping[t]
      case OtherEntry => Err(UnexpectedMappingElement)
      case AttributeEntry(a) =>
        var renamed := a.(name := name);
        Ok((mapping[t := AttributeEntry(renamed)], renamed))
  }
}
