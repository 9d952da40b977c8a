/**
 * The adapter layer of base.py: attribute descriptors that check and write
 * one key of an adapter's raw dict, the metaclass that collects and names
 * them, the adapter that validates its fields in order and routes inserts,
 * and the type-keyed lookup that renames a shared table entry.
 */
module Base {
  import opened Values
  import opened Rules
  import opened Declarations

  /** What `_get_raw_value` yields: the value, or the error it raises. */
  datatype Read = Got(value: Value) | Raised(error: Error)

  /** `AdapterAttribute` (base.py:42-93). */
  class AdapterAttribute {
    /** `self._name`: None until `__set_name__` binds it; reading it then raises. */
    var name: Option<string>
    const dataType: TypeTag
    const required: bool
    const requiredWith: seq<string>
    const editable: bool
    /**
     * `insert_type`, for an attribute whose class also derives from
     * `AdapterInsertTarget` with `insertable` set; None for every other attribute.
     */
    const insertType: Option<TypeTag>

    /** `AdapterAttribute(data_type, required, required_with, editable)` (base.py:43-49). */
    constructor (dataType: TypeTag, required: bool, requiredWith: Option<seq<string>>, editable: bool,
                 insertType: Option<TypeTag>)
      ensures name == None && this.dataType == dataType && this.required == required
      ensures this.requiredWith == RequiredWithOrEmpty(requiredWith)
      ensures this.editable == editable && this.insertType == insertType
    {
      name := None;
      this.dataType := dataType;
      this.required := required;
      this.requiredWith := RequiredWithOrEmpty(requiredWith);
      this.editable := editable;
      this.insertType := insertType;
    }

    /** `__set_name__` (base.py:51-52). */
    method SetName(n: string)
      modifies this`name
      ensures name == Some(n)
    {
      name := Some(n);
    }

    /**
     * `_validate_raw_value` (base.py:65-69): "Missing key", then "Incorrect
     * data type"; the message reads `self._name`, which raises when unbound.
     * There is no empty-value rule.
     */
    function RawValueCheck(raw: Value): (r: Outcome)
      reads this
      ensures r == Pass <==> (required ==> raw != VNone) && (raw != VNone ==> IsInstance(raw, dataType))
      ensures r.Fail? && name.None? ==> r == Fail(NameNotBound)
      ensures name.Some? && required && raw == VNone ==> r == Fail(MissingKey(name))
      ensures name.Some? && raw != VNone && !IsInstance(raw, dataType) ==> r == Fail(IncorrectDataType(name))
    {
      var basic := PresenceAndType(name, dataType, required, raw);
      if basic.Fail? && name.None? then Fail(NameNotBound) else basic
    }

    /**
     * `__get__` through `_get_raw_value` (base.py:54-60): the key's value once
     * it passes `_validate_raw_value`; the lookup itself reads `self._name`.
     */
    function GetRawValue(parent: Dict): (r: Read)
      reads this
      ensures name.None? ==> r == Raised(NameNotBound)
      ensures r.Got? <==> name.Some? && RawValueCheck(parent.Get(name)) == Pass
      ensures r.Got? ==> r.value == parent.Get(name)
      ensures r.Raised? && name.Some? ==> Fail(r.error) == RawValueCheck(parent.Get(name))
    {
      if name.None? then Raised(NameNotBound)
      else
        var c := RawValueCheck(parent.Get(name));
        if c.Fail? then Raised(c.error) else Got(parent.Get(name))
    }

    /** What `validate` decides on the owner's raw dict. */
    function Check(parent: Dict): Outcome
      reads this
    {
      if name.None? then Fail(NameNotBound) else AttributeCheck(name, dataType, required, requiredWith, parent)
    }

    /**
     * `validate` (base.py:81-93): the raw-value check, done when absent,
     * otherwise every companion must be a key of the raw dict.
     */
    method Validate(owner: BaseAdapter) returns (r: Outcome)
      requires owner.rawData.Valid()
      ensures r == Check(owner.rawData)
    {
      if name.None? {
        return Fail(NameNotBound);
      }
      var raw := owner.rawData.Get(name);
      r := RawValueCheck(raw);
      if r.Fail? || raw == VNone {
        return;
      }
      var remaining := RemainingCompanions(requiredWith, owner.rawData);
      if remaining != {} {
        r := Fail(RequiredTogether(name, requiredWith));
      }
    }

    /**
     * `__set__`'s verdict (base.py:71-79): `_validate_set_data` first, then the
     * write needs the bound name.
     */
    function SetCheck(value: Value): (r: Outcome)
      reads this
      ensures r == Pass <==> editable && ExactType(value) == dataType && name.Some?
      ensures r.Fail? ==> r.error in {NotEditable(name), NameNotBound, RequiresDataType(dataType)}
      ensures !editable && name.Some? ==> r == Fail(NotEditable(name))
      ensures editable && ExactType(value) != dataType ==> r == Fail(RequiresDataType(dataType))
    {
      var c := SetDataCheck(name, dataType, editable, value);
      if c.Fail? then c else if name.None? then Fail(NameNotBound) else Pass
    }

    /** `__set__` (base.py:71-73): on success `raw_data[name] = value`, in place; otherwise nothing changes. */
    method Set(owner: BaseAdapter, value: Value) returns (r: Outcome)
      modifies owner`rawData
      ensures r == SetCheck(value)
      ensures r.Pass? ==> owner.rawData == old(owner.rawData).Set(name.value, value)
      ensures r.Fail? ==> owner.rawData == old(owner.rawData)
      ensures old(owner.rawData).Valid() ==> owner.rawData.Valid()
    {
      r := SetCheck(value);
      if r.Pass? {
        owner.rawData := owner.rawData.Set(name.value, value);
      }
    }
  }

  /** A field that validates can be read: the getter returns the raw value instead of raising. */
  lemma ValidatedFieldReads(a: AdapterAttribute, parent: Dict)
    requires a.Check(parent) == Pass
    ensures a.GetRawValue(parent) == Got(parent.Get(a.name))
  {
  }

  /** The fields of an adapter checked one after another, stopping at the first raise. */
  function FieldsCheck(fs: seq<(string, AdapterAttribute)>, parent: Dict): Outcome
    reads set i | 0 <= i < |fs| :: fs[i].1
    decreases |fs|
  {
    if fs == [] then Pass
    else
      var first := fs[0].1.Check(parent);
      if first.Fail? then first else FieldsCheck(fs[1..], parent)
  }

  /** The check of the fields from `i` on: field `i`, then the rest. */
  lemma FieldsCheckSuffix(fs: seq<(string, AdapterAttribute)>, i: nat, parent: Dict)
    requires i < |fs|
    ensures FieldsCheck(fs[i..], parent) ==
      var c := fs[i].1.Check(parent);
      if c.Fail? then c else FieldsCheck(fs[i + 1..], parent)
  {
    assert fs[i..][0] == fs[i];
    assert fs[i..][1..] == fs[i + 1..];
  }

  /** The fields pass together iff each passes on its own. */
  lemma {:induction false} FieldsCheckPassIff(fs: seq<(string, AdapterAttribute)>, parent: Dict)
    ensures FieldsCheck(fs, parent) == Pass <==> forall i | 0 <= i < |fs| :: fs[i].1.Check(parent) == Pass
    decreases |fs|
  {
    if fs != [] {
      FieldsCheckPassIff(fs[1..], parent);
      assert forall i | 1 <= i < |fs| :: fs[i] == fs[1..][i - 1];
    }
  }

  /** When the fields before `i` pass and field `i` fails, field `i`'s error is the one raised. */
  lemma {:induction false} FieldsCheckFirstFailure(fs: seq<(string, AdapterAttribute)>, parent: Dict, i: nat)
    requires i < |fs|
    requires forall j | 0 <= j < i :: fs[j].1.Check(parent) == Pass
    requires fs[i].1.Check(parent).Fail?
    ensures FieldsCheck(fs, parent) == fs[i].1.Check(parent)
    decreases i
  {
    if i > 0 {
      assert forall j | 0 <= j < i - 1 :: fs[1..][j] == fs[j + 1];
      FieldsCheckFirstFailure(fs[1..], parent, i - 1);
    }
  }

  /** Field `i` is the last entry holding its object, so the name it got last is its own. */
  predicate LastBinding(fields: seq<(string, AdapterAttribute)>, i: nat) {
    forall j | i < j < |fields| :: fields[j].1 != fields[i].1
  }

  /** Binding a newly appended field leaves every other last binding as it was. */
  lemma LastBindingAppend(fs: seq<(string, AdapterAttribute)>, n: string, a: AdapterAttribute)
    requires forall i | 0 <= i < |fs| && LastBinding(fs, i) && fs[i].1 != a :: fs[i].1.name == Some(fs[i].0)
    requires a.name == Some(n)
    ensures var r := fs + [(n, a)];
      forall i | 0 <= i < |r| && LastBinding(r, i) :: r[i].1.name == Some(r[i].0)
  {
    var r := fs + [(n, a)];
    forall i | 0 <= i < |r| && LastBinding(r, i) ensures r[i].1.name == Some(r[i].0) {
      if i < |fs| {
        assert r[i] == fs[i] && r[|fs|].1 == a;
        assert forall j | 0 <= j < |fs| :: r[j] == fs[j];
        assert LastBinding(fs, i);
      }
    }
  }

  /**
   * `AdapterBaseMetaClass.__new__` (base.py:105-117): the `AdapterAttribute`
   * members of a class body in declaration order, each bound to its name. An
   * object declared under two names keeps the later one.
   */
  method CollectFields(body: seq<Member<AdapterAttribute>>) returns (fields: seq<(string, AdapterAttribute)>)
    modifies set m | m in body && m.Attr? :: m.attr
    ensures fields == Collect(body)
    ensures forall i | 0 <= i < |fields| && LastBinding(fields, i) :: fields[i].1.name == Some(fields[i].0)
  {
    fields := [];
    var k := 0;
    while k < |body|
      invariant 0 <= k <= |body|
      invariant fields == Collect(body[..k])
      invariant forall i | 0 <= i < |fields| && LastBinding(fields, i) :: fields[i].1.name == Some(fields[i].0)
    {
      var old_fields := fields;
      if body[k].Attr? {
        var a := body[k].attr;
        assert body[k] in body;
        a.SetName(body[k].name);
        LastBindingAppend(old_fields, body[k].name, a);
        fields := fields + [(body[k].name, a)];
      }
      CollectAppend(body[..k], [body[k]]);
      assert body[..k + 1] == body[..k] + [body[k]];
      k := k + 1;
    }
    assert body[..|body|] == body;
  }

  /** `insertable` with an `insert_type` the value is an instance of. */
  predicate Accepts(a: AdapterAttribute, value: Value) {
    a.insertType.Some? && IsInstance(value, a.insertType.value)
  }

  /** The first field that accepts an insert of `value`, if any. */
  function FirstInsertTarget(fs: seq<(string, AdapterAttribute)>, value: Value): (r: Option<nat>)
    ensures r.Some? ==> r.value < |fs| && Accepts(fs[r.value].1, value)
                        && forall j | 0 <= j < r.value :: !Accepts(fs[j].1, value)
    ensures r.None? ==> forall j | 0 <= j < |fs| :: !Accepts(fs[j].1, value)
  {
    if fs == [] then None
    else if Accepts(fs[0].1, value) then Some(0)
    else
      var rest := FirstInsertTarget(fs[1..], value);
      assert forall j | 1 <= j < |fs| :: fs[j] == fs[1..][j - 1];
      if rest.None? then None else Some(rest.value + 1)
  }

  /** The first position of `key` among the field names. */
  function IndexOf(fs: seq<(string, AdapterAttribute)>, key: string): (i: nat)
    requires exists j | 0 <= j < |fs| :: fs[j].0 == key
    ensures i < |fs| && fs[i].0 == key && forall j | 0 <= j < i :: fs[j].0 != key
  {
    if fs[0].0 == key then 0
    else
      assert exists j | 0 <= j < |fs[1..]| :: fs[1..][j].0 == key by {
        var j :| 0 <= j < |fs| && fs[j].0 == key;
        assert fs[1..][j - 1] == fs[j];
      }
      1 + IndexOf(fs[1..], key)
  }

  /** What `insert_value` does: writes the declared field, hands the value to another field, or raises. */
  datatype InsertResult = Written | Delegated(field: string) | Refused(error: Error)

  /** `BaseAdapter` (base.py:148-206), without its search and alias routing. */
  class BaseAdapter {
    /** `_raw_data`, written in place by the field descriptors. */
    var rawData: Dict
    const editable: bool
    /** `__ordered_fields__` of the adapter's class. */
    const fields: seq<(string, AdapterAttribute)>

    constructor (rawData: Dict, editable: bool, fields: seq<(string, AdapterAttribute)>)
      ensures this.rawData == rawData && this.editable == editable && this.fields == fields
    {
      this.rawData := rawData;
      this.editable := editable;
      this.fields := fields;
    }

    predicate Declares(key: string) {
      exists j | 0 <= j < |fields| :: fields[j].0 == key
    }

    /**
     * `AdapterCompounded.validate` with the adapter as owner (base.py:124-127,
     * 205-206): the fields in declaration order, the first raise wins.
     */
    method Validate() returns (r: Outcome)
      requires rawData.Valid()
      ensures r == FieldsCheck(fields, rawData)
    {
      var i := 0;
      while i < |fields|
        invariant 0 <= i <= |fields|
        invariant FieldsCheck(fields, rawData) == FieldsCheck(fields[i..], rawData)
      {
        FieldsCheckSuffix(fields, i, rawData);
        assert forall j | 0 <= j < |fields| :: allocated(fields[j].1);
        r := fields[i].1.Validate(this);
        if r.Fail? {
          return;
        }
        i := i + 1;
      }
      r := Pass;
    }

    /**
     * `insert_value` (base.py:190-200). An undeclared key goes to the first
     * insertable field whose `insert_type` accepts the value, or raises; a
     * declared key raises on a non-editable adapter and is otherwise written
     * through that field's `__set__`.
     */
    method InsertValue(key: string, value: Value) returns (r: InsertResult)
      modifies this`rawData
      ensures !Declares(key) ==> rawData == old(rawData)
      ensures !Declares(key) ==>
        r == (var t := FirstInsertTarget(fields, value);
              if t.Some? then Delegated(fields[t.value].0) else Refused(InsertedValueNotMatched))
      ensures Declares(key) && !editable ==> r == Refused(AdapterNotEditable) && rawData == old(rawData)
      ensures Declares(key) && editable ==>
        var f := fields[IndexOf(fields, key)].1;
        && (r == Written <==> f.SetCheck(value) == Pass)
        && (r != Written ==> r == Refused(f.SetCheck(value).error) && rawData == old(rawData))
        && (r == Written ==> rawData == old(rawData).Set(f.name.value, value))
    {
      if !Declares(key) {
        var i := 0;
        while i < |fields|
          invariant 0 <= i <= |fields|
          invariant forall j | 0 <= j < i :: !Accepts(fields[j].1, value)
        {
          if Accepts(fields[i].1, value) {
            return Delegated(fields[i].0);
          }
          i := i + 1;
        }
        return Refused(InsertedValueNotMatched);
      }
      if !editable {
        return Refused(AdapterNotEditable);
      }
      var f := fields[IndexOf(fields, key)].1;
      var o := f.Set(this, value);
      r := if o.Pass? then Written else Refused(o.error);
    }
  }

  /** A value of an adapter mapping: an `AdapterAttribute`, or any other object. */
  datatype MappingEntry = AttributeEntry(attr: AdapterAttribute) | OtherEntry

  /** The entry a lookup hands back, or the error it raises. */
  datatype Lookup = Found(attribute: AdapterAttribute) | LookupFailed(error: Error)

  /** `AdapterMapped` (base.py:130-145). */
  class AdapterMapped {
    const mapping: map<TypeTag, MappingEntry>

    constructor (mapping: map<TypeTag, MappingEntry>)
      ensures this.mapping == mapping
    {
      this.mapping := mapping;
    }

    /** The shared entry a lookup of `raw` renames, if any. */
    function EntryFor(raw: Value): set<AdapterAttribute> {
      var t := ExactType(raw);
      if t in mapping && mapping[t].AttributeEntry? then {mapping[t].attr} else {}
    }

    /** `_validate_against_mapping` (base.py:143-145): the exact type must be a key. */
    function ValidateAgainstMapping(raw: Value): (r: Outcome)
      ensures r == Pass <==> ExactType(raw) in mapping
      ensures r.Fail? ==> r.error == UnmappedType
    {
      if ExactType(raw) !in mapping then Fail(UnmappedType) else Pass
    }

    /**
     * `_get_attribute_instance` (base.py:134-141): the entry for the exact
     * type must be an `AdapterAttribute`; that shared entry is renamed and
     * returned.
     */
    method GetAttributeInstance(attributeName: string, raw: Value) returns (r: Lookup)
      modifies EntryFor(raw)
      ensures ExactType(raw) !in mapping ==> r == LookupFailed(UnmappedType)
      ensures ExactType(raw) in mapping && mapping[ExactType(raw)].OtherEntry? ==>
        r == LookupFailed(NotAnAdapterAttribute)
      ensures ExactType(raw) in mapping && mapping[ExactType(raw)].AttributeEntry? ==>
        r == Found(mapping[ExactType(raw)].attr) && r.attribute.name == Some(attributeName)
    {
      var c := ValidateAgainstMapping(raw);
      if c.Fail? {
        return LookupFailed(c.error);
      }
      match mapping[ExactType(raw)]
      case OtherEntry =>
        r := LookupFailed(NotAnAdapterAttribute);
      case AttributeEntry(a) =>
        a.SetName(attributeName);
        r := Found(a);
    }
  }

  /**
   * Two lookups of values of one type hand back the same entry, which now
   * carries the second name: the first caller's attribute has been renamed.
   */
  method LookupTwice(m: AdapterMapped, first: string, second: string, a: Value, b: Value)
    returns (x: Lookup, y: Lookup)
    requires ExactType(a) == ExactType(b)
    modifies m.EntryFor(a)
    ensures x.Found? <==> y.Found?
    ensures x.Found? ==> x == y && x.attribute.name == Some(second)
  {
    x := m.GetAttributeInstance(first, a);
    y := m.GetAttributeInstance(second, b);
  }
}
