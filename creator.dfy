/**
 * The adapter variant of creator.py: the attribute read adds a
 * "required but empty" rule, the companion check is gated the opposite way,
 * fields are discovered by name order, the mapping lookup renames its entry
 * without checking its kind, and a free-content adapter checks every
 * undeclared key through the mapping.
 */
module Creator {
  import opened Values
  import opened Rules
  import opened Declarations

  /** The checks of `_get_raw_value` (creator.py:21-29): missing, then type, then required but empty. */
  function RawValueRules(name: Option<string>, dataType: TypeTag, required: bool, raw: Value): (r: Outcome)
    ensures r == Pass <==>
      && (required ==> raw != VNone)
      && (raw != VNone ==> IsInstance(raw, dataType))
      && !(required && raw != VNone && Falsy(raw))
    ensures required && raw == VNone ==> r == Fail(MissingKey(name))
    ensures raw != VNone && !IsInstance(raw, dataType) ==> r == Fail(IncorrectDataType(name))
    ensures required && raw != VNone && IsInstance(raw, dataType) && Falsy(raw) ==> r == Fail(EmptyValue(name))
  {
    var basic := PresenceAndType(name, dataType, required, raw);
    if basic.Fail? then basic
    else if raw != VNone && Falsy(raw) && required then Fail(EmptyValue(name))
    else Pass
  }

  /**
   * `AdapterAttribute.validate` (creator.py:44-54): a present value returns at
   * once; only an absent value reaches the companion check.
   */
  function CreatorCheck(name: Option<string>, dataType: TypeTag, required: bool,
                        requiredWith: seq<string>, parent: Dict): Outcome
  {
    var raw := parent.Get(name);
    var basic := RawValueRules(name, dataType, required, raw);
    if basic.Fail? then basic
    else if raw != VNone then Pass
    else CompanionCheck(name, requiredWith, parent)
  }

  /** A required field never reaches the companion check: an absent one has already failed. */
  lemma RequiredSkipsCompanions(name: Option<string>, dataType: TypeTag, requiredWith: seq<string>, parent: Dict)
    ensures CreatorCheck(name, dataType, true, requiredWith, parent)
         == RawValueRules(name, dataType, true, parent.Get(name))
  {
  }

  /**
   * An absent optional field passes iff every companion is a key; the error
   * names the field and its whole `required_with` list.
   */
  lemma AbsentOptionalChecksCompanions(name: Option<string>, dataType: TypeTag, requiredWith: seq<string>, parent: Dict)
    requires parent.Get(name) == VNone
    ensures CreatorCheck(name, dataType, false, requiredWith, parent) == Pass
            <==> forall n | n in requiredWith :: n in parent.fields
    ensures CreatorCheck(name, dataType, false, requiredWith, parent).Fail? ==>
            CreatorCheck(name, dataType, false, requiredWith, parent) == Fail(RequiredTogether(name, requiredWith))
  {
  }

  /**
   * The gate is the opposite of validators.py:23-24 and base.py:84-85: with a
   * companion missing, a present value fails there and passes here, and an
   * absent optional value passes there and fails here.
   */
  lemma InvertedCompanionGate(name: Option<string>, dataType: TypeTag, required: bool,
                              requiredWith: seq<string>, parent: Dict)
    requires MissingCompanions(requiredWith, parent) != {}
    ensures var raw := parent.Get(name);
      raw != VNone && IsInstance(raw, dataType) && !Falsy(raw) ==>
        && AttributeCheck(name, dataType, required, requiredWith, parent) == Fail(RequiredTogether(name, requiredWith))
        && CreatorCheck(name, dataType, required, requiredWith, parent) == Pass
    ensures parent.Get(name) == VNone ==>
        && AttributeCheck(name, dataType, false, requiredWith, parent) == Pass
        && CreatorCheck(name, dataType, false, requiredWith, parent) == Fail(RequiredTogether(name, requiredWith))
  {
  }

  /** Only this variant refuses an empty value: `{}` for a required dict field passes base.py's check. */
  lemma EmptyValueOnlyHere(key: string, parent: Dict)
    requires parent.Get(Some(key)) == VDict(EmptyDict)
    ensures AttributeCheck(Some(key), DictType, true, [], parent) == Pass
    ensures CreatorCheck(Some(key), DictType, true, [], parent) == Fail(EmptyValue(Some(key)))
  {
  }

  /** What `_get_raw_value` yields: the value, or the error it raises. */
  datatype Read = Got(value: Value) | Raised(error: Error)

  /** `AdapterAttribute` (creator.py:8-54). */
  class AdapterAttribute {
    /** `self._name`: None until `__set_name__` binds it; reading it then raises. */
    var name: Option<string>
    const dataType: TypeTag
    const required: bool
    const requiredWith: seq<string>
    const editable: bool

    /** `AdapterAttribute(data_type, required, required_with, editable)` (creator.py:9-13). */
    constructor (dataType: TypeTag, required: bool, requiredWith: Option<seq<string>>, editable: bool)
      ensures name == None && this.dataType == dataType && this.required == required
      ensures this.requiredWith == RequiredWithOrEmpty(requiredWith) && this.editable == editable
    {
      name := None;
      this.dataType := dataType;
      this.required := required;
      this.requiredWith := RequiredWithOrEmpty(requiredWith);
      this.editable := editable;
    }

    /** `__set_name__` (creator.py:15-16). */
    method SetName(n: string)
      modifies this`name
      ensures name == Some(n)
    {
      name := Some(n);
    }

    /** `_get_raw_value` (creator.py:21-29) on the owner's raw dict. */
    function GetRawValue(parent: Dict): (r: Read)
      reads this
      ensures name.None? ==> r == Raised(NameNotBound)
      ensures r.Got? <==> name.Some? && RawValueRules(name, dataType, required, parent.Get(name)) == Pass
      ensures r.Got? ==> r.value == parent.Get(name)
      ensures r.Raised? && name.Some? ==> Fail(r.error) == RawValueRules(name, dataType, required, parent.Get(name))
    {
      if name.None? then Raised(NameNotBound)
      else
        var c := RawValueRules(name, dataType, required, parent.Get(name));
        if c.Fail? then Raised(c.error) else Got(parent.Get(name))
    }

    /** What `validate` decides on the owner's raw dict. */
    function Check(parent: Dict): Outcome
      reads this
    {
      if name.None? then Fail(NameNotBound) else CreatorCheck(name, dataType, required, requiredWith, parent)
    }

    /** `validate` (creator.py:44-54). */
    method Validate(owner: BaseAdapter) returns (r: Outcome)
      requires owner.rawData.Valid()
      ensures r == Check(owner.rawData)
    {
      var read := GetRawValue(owner.rawData);
      if read.Raised? {
        return Fail(read.error);
      }
      if read.value != VNone {
        return Pass;
      }
      var remaining := RemainingCompanions(requiredWith, owner.rawData);
      r := if remaining == {} then Pass else Fail(RequiredTogether(name, requiredWith));
    }

    /** `__set__`'s verdict (creator.py:34-42): `_validate_set_data` first, then the write needs the bound name. */
    function SetCheck(value: Value): (r: Outcome)
      reads this
      ensures r == Pass <==> editable && ExactType(value) == dataType && name.Some?
      ensures !editable && name.Some? ==> r == Fail(NotEditable(name))
      ensures editable && ExactType(value) != dataType ==> r == Fail(RequiresDataType(dataType))
    {
      var c := SetDataCheck(name, dataType, editable, value);
      if c.Fail? then c else if name.None? then Fail(NameNotBound) else Pass
    }

    /** `__set__` (creator.py:34-36): on success `raw_data[name] = value`, in place; otherwise nothing changes. */
    method Set(owner: BaseAdapter, value: Value) returns (r: Outcome)
      modifies owner`rawData
      ensures r == SetCheck(value)
      ensures r.Pass? ==> owner.rawData == old(owner.rawData).Set(name.value, value)
      ensures r.Fail? ==> owner.rawData == old(owner.rawData)
      ensures old(owner.rawData).Valid() ==> owner.rawData.Valid()
    {
      r := SetCheck(value);
      if r.Pass? {
        owner.rawData := owner.rawData.Set(name.value, value);
      }
    }
  }

  /** The fields of an adapter checked one after another, stopping at the first raise. */
  function FieldsCheck(fs: seq<(string, AdapterAttribute)>, parent: Dict): Outcome
    reads set i | 0 <= i < |fs| :: fs[i].1
    decreases |fs|
  {
    if fs == [] then Pass
    else
      var first := fs[0].1.Check(parent);
      if first.Fail? then first else FieldsCheck(fs[1..], parent)
  }

  /** The check of the fields from `i` on: field `i`, then the rest. */
  lemma FieldsCheckSuffix(fs: seq<(string, AdapterAttribute)>, i: nat, parent: Dict)
    requires i < |fs|
    ensures FieldsCheck(fs[i..], parent) ==
      var c := fs[i].1.Check(parent);
      if c.Fail? then c else FieldsCheck(fs[i + 1..], parent)
  {
    assert fs[i..][0] == fs[i];
    assert fs[i..][1..] == fs[i + 1..];
  }

  /** The fields pass together iff each passes on its own. */
  lemma {:induction false} FieldsCheckPassIff(fs: seq<(string, AdapterAttribute)>, parent: Dict)
    ensures FieldsCheck(fs, parent) == Pass <==> forall i | 0 <= i < |fs| :: fs[i].1.Check(parent) == Pass
    decreases |fs|
  {
    if fs != [] {
      FieldsCheckPassIff(fs[1..], parent);
      assert forall i | 1 <= i < |fs| :: fs[i] == fs[1..][i - 1];
    }
  }

  /** Fail-fast: the first failing field's error is the adapter's (creator.py:75-76). */
  lemma {:induction false} FieldsCheckFirstFailure(fs: seq<(string, AdapterAttribute)>, parent: Dict, i: nat)
    requires i < |fs|
    requires forall j | 0 <= j < i :: fs[j].1.Check(parent) == Pass
    requires fs[i].1.Check(parent).Fail?
    ensures FieldsCheck(fs, parent) == fs[i].1.Check(parent)
    decreases i
  {
    if i > 0 {
      assert forall j | 0 <= j < i - 1 :: fs[1..][j] == fs[j + 1];
      FieldsCheckFirstFailure(fs[1..], parent, i - 1);
    }
  }

  /**
   * Field discovery keeps exactly the non-dunder `AdapterAttribute` members,
   * and a by-name member list gives by-name fields.
   */
  lemma AdapterFieldsAreUserAttributes<T>(members: seq<Member<T>>)
    ensures forall n, a :: (n, a) in Collect(UserDefined(members)) <==> Attr(n, a) in members && !IsDunder(n)
    ensures SortedMembers(members) ==> SortedPairs(Collect(UserDefined(members)))
  {
    forall n, a ensures (n, a) in Collect(UserDefined(members)) <==> Attr(n, a) in members && !IsDunder(n) {
      CollectMembership(UserDefined(members), n, a);
    }
    if SortedMembers(members) {
      UserDefinedSorted(members);
      CollectSorted(UserDefined(members));
    }
  }

  /** `AdapterCompounded` with `BaseAdapter` (creator.py:57-101), without the search routing. */
  class BaseAdapter {
    /** `_raw_data`, written in place by the field descriptors. */
    var rawData: Dict
    /**
     * The class's members as `inspect.getmembers` reports them (sorted by
     * name), after its non-routine filter
     */
    const members: seq<Member<AdapterAttribute>>

    constructor (rawData: Dict, members: seq<Member<AdapterAttribute>>)
      ensures this.rawData == rawData && this.members == members
    {
      this.rawData := rawData;
      this.members := members;
    }

    /** The `AdapterAttribute` members among the non-routine, non-dunder ones, in the order given. */
    function Fields(): seq<(string, AdapterAttribute)> {
      Collect(UserDefined(members))
    }

    /**
     * `get_adapter_fields` (creator.py:61-71): drop routines and dunder names,
     * then append every `AdapterAttribute`. The order is `getmembers`' name
     * order, not declaration order.
     */
    method GetAdapterFields() returns (fields: seq<(string, AdapterAttribute)>)
      ensures fields == Fields()
    {
      var userDefined := UserDefined(members);
      fields := AttributesOf(userDefined);
    }

    /** `AdapterCompounded.validate` with the adapter itself as owner (creator.py:73-76). */
    method Validate() returns (r: Outcome)
      requires rawData.Valid()
      ensures r == FieldsCheck(Fields(), rawData)
    {
      var fields := GetAdapterFields();
      var i := 0;
      while i < |fields|
        invariant 0 <= i <= |fields|
        invariant FieldsCheck(fields, rawData) == FieldsCheck(fields[i..], rawData)
      {
        FieldsCheckSuffix(fields, i, rawData);
        assert forall j | 0 <= j < |fields| :: allocated(fields[j].1);
        r := fields[i].1.Validate(this);
        if r.Fail? {
          return;
        }
        i := i + 1;
      }
      r := Pass;
    }
  }

  /** The loop of `get_adapter_fields`: every `AdapterAttribute` member, in the members' order. */
  method AttributesOf(ms: seq<Member<AdapterAttribute>>) returns (fields: seq<(string, AdapterAttribute)>)
    ensures fields == Collect(ms)
  {
    fields := [];
    var i := 0;
    while i < |ms|
      invariant 0 <= i <= |ms|
      invariant fields == Collect(ms[..i])
    {
      if ms[i].Attr? {
        fields := fields + [(ms[i].name, ms[i].attr)];
      }
      CollectAppend(ms[..i], [ms[i]]);
      assert ms[..i + 1] == ms[..i] + [ms[i]];
      i := i + 1;
    }
    assert ms[..|ms|] == ms;
  }

  /** The entry a lookup hands back, or the error it raises. */
  datatype Lookup = Found(attribute: AdapterAttribute) | LookupFailed(error: Error)

  /** `AdapterMapped` (creator.py:139-152). */
  class AdapterMapped {
    const mapping: map<TypeTag, AdapterAttribute>

    constructor (mapping: map<TypeTag, AdapterAttribute>)
      ensures this.mapping == mapping
    {
      this.mapping := mapping;
    }

    /** The shared entry a lookup of `raw` renames, if any. */
    function EntryFor(raw: Value): set<AdapterAttribute> {
      if ExactType(raw) in mapping then {mapping[ExactType(raw)]} else {}
    }

    /** `_validate_against_mapping` (creator.py:150-152): the error names the key. */
    function ValidateAgainstMapping(name: string, raw: Value): (r: Outcome)
      ensures r == Pass <==> ExactType(raw) in mapping
      ensures r.Fail? ==> r.error == IncorrectDataType(Some(name))
    {
      if ExactType(raw) !in mapping then Fail(IncorrectDataType(Some(name))) else Pass
    }

    /**
     * `_get_attribute_adapter_instance` (creator.py:143-148): the shared entry
     * for the exact type is renamed to the key and returned.
     */
    method GetAttributeAdapterInstance(name: string, raw: Value) returns (r: Lookup)
      modifies EntryFor(raw)
      ensures ExactType(raw) !in mapping ==> r == LookupFailed(IncorrectDataType(Some(name)))
      ensures ExactType(raw) in mapping ==> r == Found(mapping[ExactType(raw)]) && r.attribute.name == Some(name)
    {
      var c := ValidateAgainstMapping(name, raw);
      if c.Fail? {
        return LookupFailed(c.error);
      }
      var a := mapping[ExactType(raw)];
      a.SetName(name);
      r := Found(a);
    }
  }

  /**
   * One raw key as the free-content loop treats it: a declared key is
   * skipped; any other is checked by its value's mapping entry under its own
   * name, and an unmapped value type is the type error naming the key.
   */
  function KeyCheck(k: string, declared: set<string>, mapping: map<TypeTag, AdapterAttribute>, raw: Dict): Outcome
  {
    if k in declared then Pass
    else
      var t := ExactType(raw.Get(Some(k)));
      if t !in mapping then Fail(IncorrectDataType(Some(k)))
      else CreatorCheck(Some(k), mapping[t].dataType, mapping[t].required, mapping[t].requiredWith, raw)
  }

  /** The keys of the raw dict, in order, each through `KeyCheck`; the first raise wins. */
  function UndeclaredCheck(keys: seq<string>, declared: set<string>, mapping: map<TypeTag, AdapterAttribute>,
                           raw: Dict): Outcome
    decreases |keys|
  {
    if keys == [] then Pass
    else
      var c := KeyCheck(keys[0], declared, mapping, raw);
      if c.Fail? then c else UndeclaredCheck(keys[1..], declared, mapping, raw)
  }

  /** The check of the keys from `i` on: key `i`, then the rest. */
  lemma UndeclaredCheckSuffix(keys: seq<string>, i: nat, declared: set<string>,
                              mapping: map<TypeTag, AdapterAttribute>, raw: Dict)
    requires i < |keys|
    ensures UndeclaredCheck(keys[i..], declared, mapping, raw) ==
      var c := KeyCheck(keys[i], declared, mapping, raw);
      if c.Fail? then c else UndeclaredCheck(keys[i + 1..], declared, mapping, raw)
  {
    assert keys[i..][0] == keys[i];
    assert keys[i..][1..] == keys[i + 1..];
  }

  /**
   * The undeclared keys pass iff each has a mapped exact type and passes its
   * entry's check under its own name; declared keys are never dispatched.
   */
  lemma {:induction false} UndeclaredCheckPassIff(keys: seq<string>, declared: set<string>,
                                                  mapping: map<TypeTag, AdapterAttribute>, raw: Dict)
    ensures UndeclaredCheck(keys, declared, mapping, raw) == Pass <==>
      forall i | 0 <= i < |keys| && keys[i] !in declared ::
        var t := ExactType(raw.Get(Some(keys[i])));
        t in mapping && CreatorCheck(Some(keys[i]), mapping[t].dataType, mapping[t].required, mapping[t].requiredWith, raw) == Pass
    decreases |keys|
  {
    if keys != [] {
      UndeclaredCheckPassIff(keys[1..], declared, mapping, raw);
      assert forall i | 1 <= i < |keys| :: keys[i] == keys[1..][i - 1];
    }
  }

  /** The name a mapping entry carries after the lookups for `keys`: the last key that reached it. */
  function LastRename(keys: seq<string>, declared: set<string>, mapping: map<TypeTag, AdapterAttribute>,
                      raw: Dict, o: AdapterAttribute, initial: Option<string>): Option<string>
    decreases |keys|
  {
    if keys == [] then initial
    else
      var k := keys[|keys| - 1];
      var t := ExactType(raw.Get(Some(k)));
      if k !in declared && t in mapping && mapping[t] == o then Some(k)
      else LastRename(keys[..|keys| - 1], declared, mapping, raw, o, initial)
  }

  /** `AdapterFreeContent` (creator.py:155-176): a `BaseAdapter` together with an `AdapterMapped`. */
  class AdapterFreeContent {
    const adapter: BaseAdapter
    const mapped: AdapterMapped

    constructor (adapter: BaseAdapter, mapped: AdapterMapped)
      ensures this.adapter == adapter && this.mapped == mapped
    {
      this.adapter := adapter;
      this.mapped := mapped;
    }

    ghost function Entries(): set<AdapterAttribute> {
      set t | t in mapped.mapping :: mapped.mapping[t]
    }

    /**
     * `validate` (creator.py:169-176): the declared fields first, then every
     * undeclared raw key through the mapping. `processed` counts the keys
     * whose lookup renamed an entry; each entry ends with the last such key.
     */
    method Validate() returns (r: Outcome, ghost processed: nat)
      requires adapter.rawData.Valid()
      modifies Entries()
      ensures processed <= |adapter.rawData.order|
      ensures r == (var d := old(FieldsCheck(adapter.Fields(), adapter.rawData));
                    if d.Fail? then d
                    else UndeclaredCheck(adapter.rawData.order, set p | p in adapter.Fields() :: p.0,
                                         mapped.mapping, adapter.rawData))
      ensures r.Pass? ==> processed == |adapter.rawData.order|
      ensures old(FieldsCheck(adapter.Fields(), adapter.rawData)).Fail? ==> processed == 0
      ensures r.Fail? && old(FieldsCheck(adapter.Fields(), adapter.rawData)).Pass? ==>
        var declared := set p | p in adapter.Fields() :: p.0;
        && 0 < processed
        && r == KeyCheck(adapter.rawData.order[processed - 1], declared, mapped.mapping, adapter.rawData)
        && forall j | 0 <= j < processed - 1 ::
             KeyCheck(adapter.rawData.order[j], declared, mapped.mapping, adapter.rawData) == Pass
      ensures forall o | o in Entries() ::
        o.name == LastRename(adapter.rawData.order[..processed], set p | p in adapter.Fields() :: p.0,
                             mapped.mapping, adapter.rawData, o, old(o.name))
    {
      processed := 0;
      forall j | 0 <= j < |adapter.Fields()| ensures allocated(adapter.Fields()[j].1) {
        var p := adapter.Fields()[j];
        CollectMembership(UserDefined(adapter.members), p.0, p.1);
        var k :| 0 <= k < |adapter.members| && adapter.members[k] == Attr(p.0, p.1);
        assert allocated(adapter.members[k]);
      }
      r := adapter.Validate();
      if r.Fail? {
        return;
      }
      var fields := adapter.GetAdapterFields();
      var declared := set p | p in fields :: p.0;
      r, processed := DispatchUndeclared(declared);
    }

    /**
     * One pass of the loop of creator.py:173-176: a key that is not declared
     * is looked up by its value's exact type, which renames that entry, and the
     * renamed entry validates the adapter's raw dict.
     */
    method DispatchKey(declared: set<string>, k: string) returns (r: Outcome)
      requires adapter.rawData.Valid()
      modifies Entries()
      ensures r == KeyCheck(k, declared, mapped.mapping, adapter.rawData)
      ensures forall o | o in Entries() ::
        o.name == (var t := ExactType(adapter.rawData.Get(Some(k)));
                   if k !in declared && t in mapped.mapping && mapped.mapping[t] == o then Some(k) else old(o.name))
    {
      if k in declared {
        return Pass;
      }
      var v := adapter.rawData.Get(Some(k));
      var found := mapped.GetAttributeAdapterInstance(k, v);
      if found.LookupFailed? {
        return Fail(found.error);
      }
      r := found.attribute.Validate(adapter);
    }

    /**
     * The loop of creator.py:173-176 over the raw keys in order. `processed`
     * counts the keys it has dispatched.
     */
    method DispatchUndeclared(declared: set<string>) returns (r: Outcome, ghost processed: nat)
      requires adapter.rawData.Valid()
      modifies Entries()
      ensures processed <= |adapter.rawData.order|
      ensures r == UndeclaredCheck(adapter.rawData.order, declared, mapped.mapping, adapter.rawData)
      ensures r.Pass? ==> processed == |adapter.rawData.order|
      ensures r.Fail? ==>
        && 0 < processed
        && r == KeyCheck(adapter.rawData.order[processed - 1], declared, mapped.mapping, adapter.rawData)
        && forall j | 0 <= j < processed - 1 ::
             KeyCheck(adapter.rawData.order[j], declared, mapped.mapping, adapter.rawData) == Pass
      ensures forall o | o in Entries() ::
        o.name == LastRename(adapter.rawData.order[..processed], declared, mapped.mapping, adapter.rawData, o, old(o.name))
    {
      var raw := adapter.rawData;
      var order := raw.order;
      var mapping := mapped.mapping;
      processed := 0;
      var i := 0;
      while i < |order|
        invariant 0 <= i <= |order| && processed == i
        invariant adapter.rawData == raw
        invariant UndeclaredCheck(order, declared, mapping, raw) == UndeclaredCheck(order[i..], declared, mapping, raw)
        invariant forall o | o in Entries() :: o.name == LastRename(order[..i], declared, mapping, raw, o, old(o.name))
        invariant forall j | 0 <= j < i :: KeyCheck(order[j], declared, mapping, raw) == Pass
      {
        LastRenameStep(order, i, declared, mapping, raw);
        UndeclaredCheckSuffix(order, i, declared, mapping, raw);
        r := DispatchKey(declared, order[i]);
        i := i + 1;
        processed := i;
        if r.Fail? {
          return;
        }
      }
      r := Pass;
    }
  }

  /** One more key: it renames the entry its type selects, and no other. */
  lemma LastRenameStep(keys: seq<string>, i: nat, declared: set<string>, mapping: map<TypeTag, AdapterAttribute>, raw: Dict)
    requires i < |keys|
    ensures forall o: AdapterAttribute, initial: Option<string> ::
      LastRename(keys[..i + 1], declared, mapping, raw, o, initial) ==
        var t := ExactType(raw.Get(Some(keys[i])));
        if keys[i] !in declared && t in mapping && mapping[t] == o then Some(keys[i])
        else LastRename(keys[..i], declared, mapping, raw, o, initial)
  {
    var prefix := keys[..i + 1];
    assert prefix[..|prefix| - 1] == keys[..i] && prefix[|prefix| - 1] == keys[i];
    forall o: AdapterAttribute, initial: Option<string>
      ensures LastRename(prefix, declared, mapping, raw, o, initial) ==
        var t := ExactType(raw.Get(Some(keys[i])));
        if keys[i] !in declared && t in mapping && mapping[t] == o then Some(keys[i])
        else LastRename(keys[..i], declared, mapping, raw, o, initial)
    {
      assert prefix != [];
    }
  }
}
