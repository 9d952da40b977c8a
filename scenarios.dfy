/**
 * The schema and adapters of the repository's tests, run through the model:
 * `UserSchema` with its example document (tests/utils.py), and the adapter
 * with four attributes of tests.py.
 */
module Scenarios {
  import opened Values
  import opened Rules
  import opened Declarations
  import opened Schema
  import V = Validators
  import Base

  /** `UserSchema` (tests/utils.py:13-18). */
  const UserSchema := SchemaClass([
    Attr("username", NewAttribute(StrType, true, None)),
    Attr("first_name", NewAttribute(StrType, false, Some(["birth_date"]))),
    Attr("email", NewAttribute(StrType, true, None)),
    Attr("is_active", NewAttribute(BoolType, true, None)),
    Attr("birth_date", NewAttribute(StrType, false, None))
  ])

  const UsernameRule := V.AttributeValidator(Some("username"), StrType, true, [])
  const FirstNameRule := V.AttributeValidator(Some("first_name"), StrType, false, ["birth_date"])
  const EmailRule := V.AttributeValidator(Some("email"), StrType, true, [])
  const IsActiveRule := V.AttributeValidator(Some("is_active"), BoolType, true, [])
  const BirthDateRule := V.AttributeValidator(Some("birth_date"), StrType, false, [])

  const UserValidator := V.SchemaValidator([UsernameRule, FirstNameRule, EmailRule, IsActiveRule, BirthDateRule])

  /** `example_user_data` (tests/utils.py:4-10). */
  const UserData := Dict(
    ["username", "first_name", "email", "is_active", "birth_date"],
    map["username" := VStr("faderskd"), "first_name" := VStr("Daniel"), "email" := VStr("daniel@op.pl"),
        "is_active" := VBool(true), "birth_date" := VStr("01.01.2000")])

  /** The constructor calls the five attributes of `UserSchema` make. */
  const UserNodes := [
    AttributeNode(Some("username"), StrType, true, []),
    AttributeNode(Some("first_name"), StrType, false, ["birth_date"]),
    AttributeNode(Some("email"), StrType, true, []),
    AttributeNode(Some("is_active"), BoolType, true, []),
    AttributeNode(Some("birth_date"), StrType, false, [])
  ]

  /** `get_attributes_validators` of `UserSchema`: one `AttributeValidator` call per attribute, in order. */
  lemma UserSchemaBodyCompiles()
    ensures CompileBody(UserSchema.body) == Ok(UserNodes)
  {
    var body, ns := UserSchema.body, UserNodes;
    assert CompileBody(body[5..]) == Ok([]);
    assert CompileBody(body[4..]) == Ok(ns[4..]) by {
      assert body[4..][1..] == body[5..] && body[4..][0] == body[4];
      assert CompileAs(body[4].attr, Some(body[4].name)) == Ok(ns[4]);
      assert [ns[4]] + ns[5..] == ns[4..];
    }
    assert CompileBody(body[3..]) == Ok(ns[3..]) by {
      assert body[3..][1..] == body[4..] && body[3..][0] == body[3];
      assert CompileAs(body[3].attr, Some(body[3].name)) == Ok(ns[3]);
      assert [ns[3]] + ns[4..] == ns[3..];
    }
    assert CompileBody(body[2..]) == Ok(ns[2..]) by {
      assert body[2..][1..] == body[3..] && body[2..][0] == body[2];
      assert CompileAs(body[2].attr, Some(body[2].name)) == Ok(ns[2]);
      assert [ns[2]] + ns[3..] == ns[2..];
    }
    assert CompileBody(body[1..]) == Ok(ns[1..]) by {
      assert body[1..][1..] == body[2..] && body[1..][0] == body[1];
      assert CompileAs(body[1].attr, Some(body[1].name)) == Ok(ns[1]);
      assert [ns[1]] + ns[2..] == ns[1..];
    }
    assert CompileAs(body[0].attr, Some(body[0].name)) == Ok(ns[0]);
    assert [ns[0]] + ns[1..] == ns;
  }

  /** The calls build the five validators of `UserValidator`. */
  lemma UserNodesBuild()
    ensures ToValidators(UserNodes) == Some(UserValidator.children)
  {
    var ns, vs := UserNodes, UserValidator.children;
    assert ToValidators(ns[5..]) == Some([]);
    assert ToValidators(ns[4..]) == Some(vs[4..]) by {
      assert ns[4..][1..] == ns[5..] && ns[4..][0] == ns[4];
      assert ToValidator(ns[4]) == Some(vs[4]);
      assert [vs[4]] + vs[5..] == vs[4..];
    }
    assert ToValidators(ns[3..]) == Some(vs[3..]) by {
      assert ns[3..][1..] == ns[4..] && ns[3..][0] == ns[3];
      assert ToValidator(ns[3]) == Some(vs[3]);
      assert [vs[3]] + vs[4..] == vs[3..];
    }
    assert ToValidators(ns[2..]) == Some(vs[2..]) by {
      assert ns[2..][1..] == ns[3..] && ns[2..][0] == ns[2];
      assert ToValidator(ns[2]) == Some(vs[2]);
      assert [vs[2]] + vs[3..] == vs[2..];
    }
    assert ToValidators(ns[1..]) == Some(vs[1..]) by {
      assert ns[1..][1..] == ns[2..] && ns[1..][0] == ns[1];
      assert ToValidator(ns[1]) == Some(vs[1]);
      assert [vs[1]] + vs[2..] == vs[1..];
    }
    assert ToValidator(ns[0]) == Some(vs[0]);
    assert [vs[0]] + vs[1..] == vs;
  }

  /** The schema compiles to a `SchemaValidator` of five `AttributeValidator`s, in declaration order. */
  lemma UserSchemaCompiles()
    ensures GetValidator(UserSchema) == Ok(UserValidator)
  {
    UserSchemaBodyCompiles();
    UserNodesBuild();
    assert GetValidator(UserSchema) == Ok(V.SchemaValidator(UserValidator.children));
  }

  // The five validators of `UserSchema`, one at a time, on any document.

  lemma UsernamePasses(d: Dict)
    requires d.Get(Some("username")).VStr?
    ensures V.Validate(UsernameRule, d) == Pass
  {
  }

  lemma FirstNamePasses(d: Dict)
    requires d.Get(Some("first_name")) == VNone || (d.Get(Some("first_name")).VStr? && "birth_date" in d.fields)
    ensures V.Validate(FirstNameRule, d) == Pass
  {
  }

  lemma EmailPasses(d: Dict)
    requires d.Get(Some("email")).VStr?
    ensures V.Validate(EmailRule, d) == Pass
  {
  }

  lemma IsActivePasses(d: Dict)
    requires d.Get(Some("is_active")).VBool?
    ensures V.Validate(IsActiveRule, d) == Pass
  {
  }

  lemma BirthDatePasses(d: Dict)
    requires d.Get(Some("birth_date")) == VNone || d.Get(Some("birth_date")).VStr?
    ensures V.Validate(BirthDateRule, d) == Pass
  {
  }

  /** A document whose five keys each meet their rule passes all of `UserSchema`. */
  lemma UserRulesPass(d: Dict)
    requires d.Get(Some("username")).VStr?
    requires d.Get(Some("first_name")) == VNone || (d.Get(Some("first_name")).VStr? && "birth_date" in d.fields)
    requires d.Get(Some("email")).VStr?
    requires d.Get(Some("is_active")).VBool?
    requires d.Get(Some("birth_date")) == VNone || d.Get(Some("birth_date")).VStr?
    ensures V.ValidateSchema(UserValidator, VDict(d)) == Pass
  {
    UsernamePasses(d);
    FirstNamePasses(d);
    EmailPasses(d);
    IsActivePasses(d);
    BirthDatePasses(d);
    V.ValidateAllPassIff(UserValidator.children, d);
  }

  /** The example document passes (tests/validators_tests.py:14-15). */
  lemma UserDataPasses()
    ensures V.ValidateSchema(UserValidator, VDict(UserData)) == Pass
  {
    UserRulesPass(UserData);
  }

  /** A dict for `username` is the wrong type (tests/validators_tests.py:17-20). */
  lemma UsernameOfWrongType()
    ensures V.ValidateSchema(UserValidator, VDict(UserData.Set("username", VDict(EmptyDict))))
         == Fail(IncorrectDataType(Some("username")))
  {
    var d := UserData.Set("username", VDict(EmptyDict));
    assert d.Get(Some("username")) == VDict(EmptyDict);
    V.ValidateAllFirstFailure(UserValidator.children, d, 0);
  }

  /**
   * Without `is_active` the document misses a required key
   * (tests/validators_tests.py:22-25); `d` is the example document after `del`.
   */
  lemma IsActiveMissing(d: Dict)
    requires d.fields == UserData.fields - {"is_active"}
    ensures V.ValidateSchema(UserValidator, VDict(d)) == Fail(MissingKey(Some("is_active")))
  {
    IsActiveFirstFailure(d);
  }

  /** With the first three rules met and no `is_active`, the fourth rule is the first to fail. */
  lemma IsActiveFirstFailure(d: Dict)
    requires d.Get(Some("username")).VStr?
    requires d.Get(Some("first_name")) == VNone || (d.Get(Some("first_name")).VStr? && "birth_date" in d.fields)
    requires d.Get(Some("email")).VStr?
    requires d.Get(Some("is_active")) == VNone
    ensures V.ValidateSchema(UserValidator, VDict(d)) == Fail(MissingKey(Some("is_active")))
  {
    UsernamePasses(d);
    FirstNamePasses(d);
    EmailPasses(d);
    V.ValidateAllFirstFailure(UserValidator.children, d, 3);
  }

  /** Without `birth_date`, `first_name` lacks its companion (tests/validators_tests.py:27-30). */
  lemma BirthDateMissing(d: Dict)
    requires d.fields == UserData.fields - {"birth_date"}
    ensures V.ValidateSchema(UserValidator, VDict(d)) == Fail(RequiredTogether(Some("first_name"), ["birth_date"]))
  {
    FirstNameFirstFailure(d);
  }

  /** With a `username` and a `first_name` but no `birth_date`, the second rule is the first to fail. */
  lemma FirstNameFirstFailure(d: Dict)
    requires d.Get(Some("username")).VStr?
    requires d.Get(Some("first_name")).VStr? && "birth_date" !in d.fields
    ensures V.ValidateSchema(UserValidator, VDict(d)) == Fail(RequiredTogether(Some("first_name"), ["birth_date"]))
  {
    UsernamePasses(d);
    V.ValidateAllFirstFailure(UserValidator.children, d, 1);
  }

  /** Without the optional `first_name` the document still passes (tests/validators_tests.py:32-34). */
  lemma FirstNameMissingPasses(d: Dict)
    requires d.fields == UserData.fields - {"first_name"}
    ensures V.ValidateSchema(UserValidator, VDict(d)) == Pass
  {
    UserRulesPass(d);
  }

  /** `del` on the example document gives the documents of the three lemmas above. */
  lemma DeletionsOfUserData()
    ensures UserData.Without("is_active").fields == UserData.fields - {"is_active"}
    ensures UserData.Without("birth_date").fields == UserData.fields - {"birth_date"}
    ensures UserData.Without("first_name").fields == UserData.fields - {"first_name"}
  {
  }

  /** The four attributes of the example adapter, bound to their names, with their declared flags. */
  ghost predicate ExampleShape(fields: seq<(string, Base.AdapterAttribute)>)
    reads set i | 0 <= i < |fields| :: fields[i].1
  {
    && |fields| == 4
    && fields[0].0 == "required_attr" && fields[1].0 == "not_required_attr"
    && fields[2].0 == "required_with_not_required_attr" && fields[3].0 == "not_editable_attr"
    && (forall i | 0 <= i < 4 :: fields[i].1.name == Some(fields[i].0))
    && fields[0].1.dataType == StrType && fields[0].1.required && fields[0].1.requiredWith == []
    && fields[1].1.dataType == StrType && !fields[1].1.required && fields[1].1.requiredWith == []
    && fields[2].1.dataType == StrType && !fields[2].1.required && fields[2].1.requiredWith == ["not_required_attr"]
    && fields[3].1.dataType == DictType && fields[3].1.required && fields[3].1.requiredWith == []
    && !fields[3].1.editable
  }

  /** The adapter's class body holds its four attributes and nothing else. */
  lemma ExampleBodyCollects<T>(a: T, b: T, c: T, d: T)
    ensures Collect([Attr("required_attr", a), Attr("not_required_attr", b),
                     Attr("required_with_not_required_attr", c), Attr("not_editable_attr", d)])
         == [("required_attr", a), ("not_required_attr", b),
             ("required_with_not_required_attr", c), ("not_editable_attr", d)]
  {
    var body := [Attr("required_attr", a), Attr("not_required_attr", b),
                 Attr("required_with_not_required_attr", c), Attr("not_editable_attr", d)];
    assert Collect(body[3..]) == [("not_editable_attr", d)] by {
      assert body[3..][1..] == [];
    }
    assert Collect(body[2..]) == [("required_with_not_required_attr", c)] + Collect(body[3..]) by {
      assert body[2..][1..] == body[3..];
    }
    assert Collect(body[1..]) == [("not_required_attr", b)] + Collect(body[2..]) by {
      assert body[1..][1..] == body[2..];
    }
  }

  /** The attributes of `ExampleAdapterForAdapterAttributeTests` (tests.py:9-13), bound by the metaclass. */
  method ExampleFields() returns (fields: seq<(string, Base.AdapterAttribute)>)
    ensures ExampleShape(fields)
  {
    var requiredAttr := new Base.AdapterAttribute(StrType, true, None, true, None);
    var notRequiredAttr := new Base.AdapterAttribute(StrType, false, None, true, None);
    var requiredWithAttr := new Base.AdapterAttribute(StrType, false, Some(["not_required_attr"]), true, None);
    var notEditableAttr := new Base.AdapterAttribute(DictType, true, None, false, None);
    var body := [Attr("required_attr", requiredAttr), Attr("not_required_attr", notRequiredAttr),
                 Attr("required_with_not_required_attr", requiredWithAttr), Attr("not_editable_attr", notEditableAttr)];
    ExampleBodyCollects(requiredAttr, notRequiredAttr, requiredWithAttr, notEditableAttr);
    fields := Base.CollectFields(body);
    assert Base.LastBinding(fields, 0) && Base.LastBinding(fields, 1) && Base.LastBinding(fields, 2);
  }

  /** `example_adapter_for_adapter_attribute_tests_data` (tests.py:16-21). */
  const AdapterData := Dict(
    ["required_attr", "not_required_attr", "required_with_not_required_attr", "not_editable_attr"],
    map["required_attr" := VStr("required attr value"), "not_required_attr" := VStr("not required attr value"),
        "required_with_not_required_attr" := VStr("required with not required attr"),
        "not_editable_attr" := VDict(EmptyDict)])

  lemma AdapterDataIsDict()
    ensures AdapterData.Valid()
  {
    assert (set k | k in AdapterData.order) == AdapterData.fields.Keys;
  }

  /** The example fields pass on the example data. */
  lemma ExampleFieldsPass(fields: seq<(string, Base.AdapterAttribute)>, data: Dict)
    requires ExampleShape(fields) && data.fields == AdapterData.fields
    ensures Base.FieldsCheck(fields, data) == Pass
  {
    assert fields[0].1.Check(data) == Pass by {
      assert data.Get(Some("required_attr")) == VStr("required attr value");
    }
    assert fields[1].1.Check(data) == Pass by {
      assert data.Get(Some("not_required_attr")) == VStr("not required attr value");
    }
    assert fields[2].1.Check(data) == Pass by {
      assert data.Get(Some("required_with_not_required_attr")) == VStr("required with not required attr");
      assert "not_required_attr" in data.fields;
    }
    assert fields[3].1.Check(data) == Pass by {
      assert data.Get(Some("not_editable_attr")) == VDict(EmptyDict);
    }
    Base.FieldsCheckPassIff(fields, data);
  }

  /** `del` on the adapter example gives the dicts the two failing scenarios below take. */
  lemma AdapterDeletionsAreDicts()
    ensures AdapterData.Without("required_attr").Valid()
    ensures AdapterData.Without("required_attr").fields == AdapterData.fields - {"required_attr"}
    ensures AdapterData.Without("not_required_attr").Valid()
    ensures AdapterData.Without("not_required_attr").fields == AdapterData.fields - {"not_required_attr"}
  {
    AdapterDataIsDict();
  }

  /** The adapter's data passes (tests.py:29-30); `{}` is accepted for the required dict field. */
  method AdapterDataPasses(data: Dict) returns (r: Outcome)
    requires data.Valid() && data.fields == AdapterData.fields
    ensures r == Pass
  {
    var fields := ExampleFields();
    var adapter := new Base.BaseAdapter(data, true, fields);
    r := adapter.Validate();
    ExampleFieldsPass(fields, data);
  }

  /** Without `required_attr` the adapter misses a required key (tests.py:32-35). */
  method AdapterRequiredMissing(data: Dict) returns (r: Outcome)
    requires data.Valid() && data.fields == AdapterData.fields - {"required_attr"}
    ensures r == Fail(MissingKey(Some("required_attr")))
  {
    var fields := ExampleFields();
    var adapter := new Base.BaseAdapter(data, true, fields);
    r := adapter.Validate();
    Base.FieldsCheckFirstFailure(fields, data, 0);
  }

  /** Without `not_required_attr` the third example field lacks its companion, and the two before it pass. */
  lemma ExampleCompanionMissing(fields: seq<(string, Base.AdapterAttribute)>, data: Dict)
    requires ExampleShape(fields) && data.fields == AdapterData.fields - {"not_required_attr"}
    ensures Base.FieldsCheck(fields, data) == Fail(RequiredTogether(Some("required_with_not_required_attr"), ["not_required_attr"]))
  {
    assert fields[0].1.Check(data) == Pass by {
      assert data.Get(Some("required_attr")) == VStr("required attr value");
    }
    assert fields[1].1.Check(data) == Pass by {
      assert data.Get(Some("not_required_attr")) == VNone;
    }
    assert data.Get(Some("required_with_not_required_attr")) == VStr("required with not required attr");
    assert "not_required_attr" !in data.fields;
    Base.FieldsCheckFirstFailure(fields, data, 2);
  }

  /** Without `not_required_attr` its companion field fails (tests.py:37-40). */
  method AdapterCompanionMissing(data: Dict) returns (r: Outcome)
    requires data.Valid() && data.fields == AdapterData.fields - {"not_required_attr"}
    ensures r == Fail(RequiredTogether(Some("required_with_not_required_attr"), ["not_required_attr"]))
  {
    var fields := ExampleFields();
    var adapter := new Base.BaseAdapter(data, true, fields);
    r := adapter.Validate();
    ExampleCompanionMissing(fields, data);
  }

  /** An int for `required_attr` is the wrong type (tests.py:42-45). */
  method AdapterWrongType() returns (r: Outcome)
    ensures r == Fail(IncorrectDataType(Some("required_attr")))
  {
    var fields := ExampleFields();
    var data := AdapterData.Set("required_attr", VInt(2));
    AdapterDataIsDict();
    var adapter := new Base.BaseAdapter(data, true, fields);
    r := adapter.Validate();
    Base.FieldsCheckFirstFailure(fields, data, 0);
  }

  /** Reading `required_attr` when it was deleted raises "Missing key" (tests.py:47-50). */
  method AdapterReadMissing(data: Dict) returns (r: Base.Read)
    requires data.fields == AdapterData.fields - {"required_attr"}
    ensures r == Base.Raised(MissingKey(Some("required_attr")))
  {
    var fields := ExampleFields();
    r := fields[0].1.GetRawValue(data);
  }

  /** Reading `required_attr` returns its value (tests.py:56-57). */
  method AdapterReadValue() returns (r: Base.Read)
    ensures r == Base.Got(VStr("required attr value"))
  {
    var fields := ExampleFields();
    r := fields[0].1.GetRawValue(AdapterData);
  }

  /** Assigning the non-editable attribute raises and leaves the data as it was (tests.py:52-54). */
  method AdapterNotEditableWrite() returns (w: Base.InsertResult, data: Dict)
    ensures w == Base.Refused(NotEditable(Some("not_editable_attr")))
    ensures data == AdapterData
  {
    var fields := ExampleFields();
    var adapter := new Base.BaseAdapter(AdapterData, true, fields);
    assert adapter.Declares("not_editable_attr") by {
      assert adapter.fields[3].0 == "not_editable_attr";
    }
    assert Base.IndexOf(fields, "not_editable_attr") == 3 by {
      assert fields[0].0 != "not_editable_attr" && fields[1].0 != "not_editable_attr"
          && fields[2].0 != "not_editable_attr";
    }
    w := adapter.InsertValue("not_editable_attr", VDict(EmptyDict));
    data := adapter.rawData;
  }
}
