# JSONAdapterCreator validation core, modelled in Dafny

JSONAdapterCreator checks JSON-like Python data (dicts, lists, strings,
numbers, booleans, None) against declared fields. It checks them fail-fast:
the first violation raises, and nothing after it runs. The repository holds
three versions of the same engine:

- **validators.py / schema.py.** A schema is a class body of
  `SchemaAttribute`s. A metaclass collects and names them in declaration
  order. `get_validator` compiles them into a tree of `AttributeValidator`,
  `CompoundAttributeValidator` and `SchemaValidator` objects. Each
  attribute validator checks, in this order:
  1. the key is present when required;
  2. the value is an instance of the declared type;
  3. when present, each of its `required_with` companions is a key of the
     same dict.

  A compound validator then hands the nested dict to its children in
  order. The root demands exactly a dict.
- **base.py.** Adapters are classes whose `AdapterAttribute` descriptors
  read and write one key of the adapter's raw dict. A metaclass collects
  and names the descriptors. `validate` runs the fields in declaration
  order. `insert_value` routes a write to a declared field or to an
  insertable field. A type-keyed table renames and returns its shared
  entry.
- **creator.py.** This variant makes three changes:
  - it adds an "empty value" rule for required fields;
  - its companion check runs only when the value is *absent*;
  - it finds fields with `inspect.getmembers`, so fields come in name order.

  Its free-content adapter checks every undeclared raw key against the
  table entry chosen by that key's value type.

The model files:

| file | module | contents |
|---|---|---|
| `values.dfy` | `Values` | Python values; dict with insertion order; `get`; `isinstance` (bool derives from int, everything from object); exact `type()`; falsiness |
| `declarations.dfy` | `Declarations` | a class body as a list of named members; collecting attributes; `getmembers`-style filtering and name order |
| `rules.dfy` | `Rules` | the error kinds; the presence, type, companion and set-data checks that all three variants share; the companion loop |
| `validators.dfy` | `Validators` | the validator tree and its fail-fast, ordered evaluation |
| `schema.dfy` | `Schema` | schema attributes as values; the metaclass; compiling into validator constructor calls; the mapping lookup; the schema.py:67 finding |
| `base.dfy` | `Base` | `AdapterAttribute`, `BaseAdapter` and `AdapterMapped` as classes that update their fields in place |
| `creator.dfy` | `Creator` | the creator.py classes, including `AdapterFreeContent` |
| `scenarios.dfy` | `Scenarios` | the `UserSchema` of tests/utils.py, and the adapter of tests.py, with the outcomes their tests expect |

How Python constructs map to the model:

- A raised error is a `Fail(error)` or `Err(error)` value, and returning
  normally is `Pass`. `raw_data` is a field that the descriptor methods
  reassign. The name a descriptor receives from `__set_name__` is a mutable
  field, `None` until bound. Reading an unbound `self._name` raises
  AttributeError, modelled as the error `NameNotBound`.
- The error message text is not modelled. Each error carries what its
  message interpolates: the key name, and the `required_with` list for the
  companion error.

Notes on what the code does:

- The type test is `isinstance`, so `True` is an acceptable `int`.
- The root test and the mapping tests use the exact `type()`.
- Errors carry no slash-delimited path.
- The empty-value rule exists only in creator.py.
- No list/collection validator exists.
- The free-content and free-type validator classes that schema.py names do
  not exist in validators.py. Their `MappedValidatedAttribute` and
  `MappingMixin` are stubs there.

## Model

| member | source | states |
|---|---|---|
| Values.Dict.Get | validators.py:34-35 | `dict.get(name, None)`: the stored value for a present key; None for a missing key and for a None name |
| Values.Dict.Set | base.py:73 | `d[key] = value`: only `key` changes; an existing key keeps its place, a new key goes last; a well-formed dict stays well-formed |
| Values.Dict.Without | tests.py:33 | `del d[key]`: the key is gone, every other key keeps its value, and a well-formed dict stays well-formed (each key once in the order, the order holding exactly the keys) |
| Values.SetChangesOneKey | base.py:73 | after `d[key] = value`, reading `key` gives `value`, every other key reads as before, and the keys gain at most `key` |
| Values.InstanceVersusExactType | validators.py:20 | `isinstance` and `type() ==` differ exactly for bool-as-int and for `object` |
| Values.InstanceOfDictOrObject | validators.py:40 | only a dict is an instance of dict; every value is an instance of object |
| Rules.RequiredWithOrEmpty | schema.py:11 | a missing `required_with` becomes the empty list, a given one is kept |
| Rules.PresenceAndType | validators.py:17-21 | passes iff a required value is present and a present value is an instance of the type; the missing-key error comes first, then the type error |
| Rules.CompanionCheck | validators.py:30-32 | passes iff every companion is a key of the parent dict; the error names the attribute and its whole `required_with` list |
| Rules.RemainingCompanions | validators.py:26-29 | the loop over `items()`, removing each key met, leaves exactly the companions that are not keys |
| Rules.SetDataCheck | base.py:75-79 | passes iff editable and the exact type matches; not-editable is reported before the type |
| Rules.MissingKeyFirst | validators.py:17-18 | a required absent key fails with "Missing key" whatever its companions |
| Rules.WrongTypeFails | validators.py:20-21 | a present value of the wrong type fails with "Incorrect data type", required or not |
| Rules.AbsentOptionalPasses | validators.py:23-24 | an absent optional key passes without its companions being checked |
| Rules.CompanionsDecide | validators.py:26-32 | a present, well-typed value passes iff all companions are keys (a companion mapped to None counts); otherwise "required together" |
| Rules.AttributeCheckOutcomes | validators.py:14-32 | the attribute check raises only one of its three errors |
| Rules.ExplicitNoneIsAbsent | validators.py:34-35 | a key mapped to None is checked exactly like a deleted key |
| Validators.Validator.DataType | validators.py:38-41 | an attribute validator demands its declared type; a compound validator always demands dict |
| Validators.ValidateAgainstMapping | validators.py:85-87 | passes iff the exact type of the value is a key of the mapping |
| Validators.ValidateAllPassIff | validators.py:48-49 | the children pass together iff each child passes on the same dict |
| Validators.ValidateAllFirstFailure | validators.py:48-49 | when the children before `i` pass and child `i` fails, child `i`'s error is the result |
| Validators.ValidateAllFailureIsFirst | validators.py:48-49 | every failure is the error of some child all of whose predecessors pass |
| Validators.CompoundTypeIsDict | validators.py:39-44 | a compound validator's type is dict; a present non-dict value fails with the type error |
| Validators.CompoundAbsentRunsNoChild | validators.py:43-47 | an absent compound value runs no child; it fails iff required |
| Validators.CompoundPresentRunsChildren | validators.py:43-49 | a present dict with its companions hands itself to the children in order |
| Validators.CompoundCompanionsBeforeChildren | validators.py:44 | a missing companion fails before any child runs; the children cannot change the result |
| Validators.RootMustBeDict | validators.py:57-58 | a root that is not a dict fails with the root-type error |
| Validators.RootRunsChildrenInOrder | validators.py:56-60 | a dict root passes iff every top-level child passes; otherwise the first failing child's error is raised |
| Validators.MappingIgnoresSubclasses | validators.py:86 | a table listing int refuses a bool, although a bool is an instance of int |
| Schema.NewAttribute | schema.py:8-12 | a new attribute is unnamed and plain, with the given type, required flag and defaulted companions |
| Schema.NewCompounded | schema.py:62-64 | any `data_type` passed is dropped; the type is dict |
| Schema.NewFreeContent | schema.py:90 | a free-content attribute is a compounded one: its type is dict |
| Schema.NewFreeType | schema.py:107-109 | any `data_type` passed is dropped; the type is object |
| Schema.OrderedAttributes | schema.py:36-47 | the attributes of a class body in declaration order, each bound to its attribute name |
| Schema.MetaclassCollectsAttributes | schema.py:38-40 | exactly the schema attributes of the body are collected, under their own names |
| Schema.OrderedAttributesAppend | schema.py:37-40 | attributes declared later come later |
| Schema.CompileErrorIsBadEntry | schema.py:92-94 | compiling an attribute fails exactly when a mapping value that is not a schema attribute is reachable from it, through mappings or compound bodies, and the failure is then that entry error |
| Schema.CompileBodyErrorIsBadEntry | schema.py:54-58 | compiling a class body fails exactly when one of its attributes reaches such a mapping value, with the same entry error |
| Schema.CompileLeafKeepsFields | schema.py:22-28 | a plain attribute compiles to an `AttributeValidator` call with its own name, type, required flag and companions |
| Schema.CompileBound | schema.py:45-46 | compiling an attribute after the metaclass names it is compiling under that name |
| Schema.CompileBodyOnePerAttribute | schema.py:54-58 | one validator per declared attribute, in declaration order; it succeeds iff every attribute compiles |
| Schema.GetAttributesValidators | schema.py:54-58 | the append loop builds exactly the compiled body, and the first raise propagates |
| Schema.MappingCompiledEntryByEntry | schema.py:92-94 | a compiled table has the same keys, and each entry is that entry's own compiled validator; a non-attribute entry raises |
| Schema.ToValidator | validators.py:38-41 | an attribute call always builds its `AttributeValidator`; a compound call builds a dict-typed compound validator iff its children build, and its children are exactly theirs; free-content and free-type calls build nothing |
| Schema.ToValidators | schema.py:54-58 | a list of calls builds a list of validators iff each call does, elementwise |
| Schema.GetValidator | schema.py:123-125 | succeeds iff every top-level attribute compiles and its call builds a validator; the root then holds one validator per attribute, in declaration order, each built from that attribute's call; a failure is a bad mapping entry or a missing class |
| Schema.PlainSchemaCompiles | schema.py:22-28 | a schema whose attributes are all plain always yields a `SchemaValidator` of `AttributeValidator`s |
| Schema.CompoundCompilesToCompoundValidator | schema.py:66-73 | the intended compound validator keeps name, required flag and companions, has type dict, and has the body's validators as children |
| Schema.CompoundFailsAsWritten | schema.py:67-70 | as written, a compound attribute yields no validator, although its intended validator exists |
| Schema.GetSchemaAttributeInstance | schema.py:81-87 | a missing type raises KeyError; a non-attribute entry raises `UnexpectedMappingElement`; otherwise the table's entry for that type is renamed and returned, and the other entries stay as they were |
| Declarations.Collect | schema.py:37-39 | collecting never yields more members than the class body holds |
| Declarations.CollectAppend | base.py:107-109 | collecting keeps body order |
| Declarations.CollectMembership | base.py:107-109 | exactly the attribute members are collected, under their own names |
| Declarations.UserDefined | creator.py:68-71 | keeps exactly the non-routine, non-dunder members |
| Declarations.UserDefinedSorted | creator.py:69-70 | filtering keeps `getmembers`' name order |
| Declarations.CollectSorted | creator.py:63-66 | collecting from a name-sorted list gives name-sorted fields |
| Base.AdapterAttribute.constructor | base.py:43-49 | a new descriptor has no name yet and keeps its declared type, required and editable flags and insert target; a missing or empty companion list becomes the empty list |
| Base.AdapterAttribute.RawValueCheck | base.py:65-69 | passes iff a required value is present and a present value is an instance of the type; a failure reading an unbound name raises AttributeError |
| Base.AdapterAttribute.SetName | base.py:51-52 | `__set_name__` binds the descriptor's name and changes nothing else |
| Base.AdapterAttribute.GetRawValue | base.py:54-60 | the getter returns the key's value iff the name is bound and the raw-value check passes; otherwise it raises that check's error |
| Base.AdapterAttribute.Validate | base.py:81-93 | the descriptor's validate, with its companion loop, decides exactly the shared attribute check on the owner's raw dict |
| Base.AdapterAttribute.SetCheck | base.py:71-79 | a write is accepted iff the attribute is editable, the exact type matches and the name is bound |
| Base.AdapterAttribute.Set | base.py:71-73 | an accepted write sets the one key in the owner's raw dict; a refused one leaves it unchanged |
| Base.ValidatedFieldReads | base.py:54-60 | a field that validates can be read without raising |
| Base.FieldsCheckPassIff | base.py:124-127 | the adapter's fields pass together iff each passes |
| Base.FieldsCheckFirstFailure | base.py:124-127 | the first failing field's error is the adapter's |
| Base.CollectFields | base.py:105-117 | the metaclass collects the `AdapterAttribute` members in declaration order, and each is bound to its (last) name |
| Base.FirstInsertTarget | base.py:192-195 | the first field whose insert type accepts the value, and none before it |
| Base.BaseAdapter.constructor | base.py:149-156 | the adapter holds the raw dict it was given, its editable flag (default true in Python) and its fields |
| Base.BaseAdapter.Validate | base.py:124-127 | the loop over fields returns the ordered, fail-fast verdict of the fields on the adapter's raw dict |
| Base.BaseAdapter.InsertValue | base.py:190-200 | an undeclared key goes to the first accepting field or raises; a declared key raises on a non-editable adapter; otherwise it is written through that field's check |
| Base.AdapterMapped.constructor | base.py:131-132 | the adapter keeps the type-keyed table it was given |
| Base.AdapterMapped.ValidateAgainstMapping | base.py:143-145 | passes iff the exact type is a key of the table |
| Base.AdapterMapped.GetAttributeInstance | base.py:134-141 | an unmapped type or a non-attribute entry raises; otherwise the shared entry is renamed and returned |
| Base.LookupTwice | base.py:140-141 | two lookups of one type return the same object, which carries the second name |
| Creator.RawValueRules | creator.py:21-29 | missing, then type, then "empty value" for a required, falsy, present value; passes iff none applies |
| Creator.RequiredSkipsCompanions | creator.py:44-46 | a required field's verdict is its raw-value rules alone |
| Creator.AbsentOptionalChecksCompanions | creator.py:48-54 | an absent optional field passes iff every companion is a key |
| Creator.InvertedCompanionGate | creator.py:45-46 | with a missing companion, a present value passes here but fails in validators.py, and an absent value fails here but passes there |
| Creator.EmptyValueOnlyHere | creator.py:27-28 | `{}` for a required dict passes base.py's check but raises "Empty value" here |
| Creator.AdapterFieldsAreUserAttributes | creator.py:61-71 | the fields are exactly the non-dunder `AdapterAttribute` members, in name order when `getmembers` gives name order |
| Creator.AdapterAttribute.constructor | creator.py:9-13 | a new descriptor has no name yet and keeps its declared type, required and editable flags; a missing or empty companion list becomes the empty list |
| Creator.AdapterAttribute.GetRawValue | creator.py:21-29 | returns the value iff the name is bound and the raw-value rules pass, else their error |
| Creator.AdapterAttribute.SetName | creator.py:15-16 | `__set_name__` binds the descriptor's name and changes nothing else |
| Creator.AdapterAttribute.Validate | creator.py:44-54 | the descriptor's validate, with its companion loop, decides exactly the creator attribute check |
| Creator.AdapterAttribute.SetCheck | creator.py:38-42 | a write is accepted iff editable, the exact type matches and the name is bound |
| Creator.AdapterAttribute.Set | creator.py:34-36 | an accepted write sets the one key; a refused one leaves the raw dict unchanged |
| Creator.FieldsCheckPassIff | creator.py:73-76 | the fields pass together iff each passes |
| Creator.FieldsCheckFirstFailure | creator.py:75-76 | the first failing field's error is the adapter's |
| Creator.BaseAdapter.constructor | creator.py:80-82 | the adapter holds the raw dict it was given and its class members |
| Creator.BaseAdapter.GetAdapterFields | creator.py:61-66 | the loop returns the `AdapterAttribute` members among the user-defined ones |
| Creator.AttributesOf | creator.py:63-66 | the loop keeps exactly the `AdapterAttribute` members, under their names, in the order given |
| Creator.BaseAdapter.Validate | creator.py:73-76 | the fields in `getmembers` order, fail-fast, on the adapter's own raw dict |
| Creator.AdapterMapped.constructor | creator.py:140-141 | the adapter keeps the type-keyed table it was given |
| Creator.AdapterMapped.ValidateAgainstMapping | creator.py:150-152 | passes iff the exact type is a key; the error is the type error naming the key |
| Creator.AdapterMapped.GetAttributeAdapterInstance | creator.py:143-148 | an unmapped type raises; otherwise the shared entry is renamed to the key and returned |
| Creator.UndeclaredCheckPassIff | creator.py:173-176 | the undeclared keys pass iff each has a mapped type and passes its entry's check under its own name |
| Creator.AdapterFreeContent.constructor | creator.py:156-158 | a free-content adapter is the base adapter over the raw dict and the mapped adapter over the table, both initialised from the same arguments |
| Creator.AdapterFreeContent.Validate | creator.py:169-176 | the declared fields first, and when they fail no key is dispatched; then the undeclared keys in raw order through the table, stopping at the first failing key, which gives the error; each table entry ends named after the last dispatched key that reached it |
| Creator.AdapterFreeContent.DispatchUndeclared | creator.py:173-176 | the loop over raw keys gives the undeclared-key verdict; a failure stops at the failing key after every earlier key passed; each entry is renamed after the last key dispatched to it, the failing one included |
| Creator.AdapterFreeContent.DispatchKey | creator.py:174-176 | a declared key is skipped; any other key's exact type picks the entry, which is renamed to the key and then validates the raw dict; an unmapped type raises the type error |
| Creator.LastRenameStep | creator.py:176 | one more key renames the entry its type selects and no other |
| Scenarios.UserSchemaCompiles | tests/schema_tests.py:14-21 | `UserSchema` compiles to a `SchemaValidator` of five `AttributeValidator`s, in declaration order |
| Scenarios.UserSchemaBodyCompiles | tests/utils.py:13-18 | the five declarations of `UserSchema` compile to one `AttributeValidator` call each, in declaration order, with their flags |
| Scenarios.UserNodesBuild | tests/schema_tests.py:17-21 | each of those calls builds an `AttributeValidator` |
| Scenarios.UserRulesPass | tests/utils.py:13-18 | any document meeting each key's rule (a string `username` and `email`, a bool `is_active`, optional strings, `first_name` only with `birth_date`) passes `UserSchema` |
| Scenarios.IsActiveFirstFailure | tests/validators_tests.py:22-25 | with the first three rules met and no `is_active`, the fourth rule's missing-key error is the verdict |
| Scenarios.FirstNameFirstFailure | tests/validators_tests.py:27-30 | a `first_name` without `birth_date` fails the second rule, after `username` passed |
| Scenarios.UserDataPasses | tests/validators_tests.py:14-15 | the example document passes |
| Scenarios.UsernameOfWrongType | tests/validators_tests.py:17-20 | a dict for `username` raises the type error |
| Scenarios.IsActiveMissing | tests/validators_tests.py:22-25 | without `is_active`, the missing-key error |
| Scenarios.BirthDateMissing | tests/validators_tests.py:27-30 | without `birth_date`, `first_name` lacks its companion |
| Scenarios.FirstNameMissingPasses | tests/validators_tests.py:32-34 | without the optional `first_name`, the document passes |
| Scenarios.ExampleFields | tests.py:9-13 | the four example attributes, bound to their names, with their declared flags |
| Scenarios.ExampleFieldsPass | tests.py:29-30 | the four example fields all pass on the example data |
| Scenarios.ExampleCompanionMissing | tests.py:37-40 | without `not_required_attr`, the first failure is `required_with_not_required_attr`'s companion error |
| Scenarios.AdapterDataPasses | tests.py:29-30 | the adapter's example data passes |
| Scenarios.AdapterDeletionsAreDicts | tests.py:33-38 | deleting `required_attr` or `not_required_attr` from the adapter example leaves a well-formed dict with exactly the other keys |
| Scenarios.AdapterRequiredMissing | tests.py:32-35 | without `required_attr`, the missing-key error |
| Scenarios.AdapterCompanionMissing | tests.py:37-40 | without `not_required_attr`, its companion field fails |
| Scenarios.AdapterWrongType | tests.py:42-45 | an int for `required_attr` raises the type error |
| Scenarios.AdapterReadMissing | tests.py:47-50 | reading a deleted required attribute raises the missing-key error |
| Scenarios.AdapterReadValue | tests.py:56-57 | reading `required_attr` returns its string |
| Scenarios.AdapterNotEditableWrite | tests.py:52-54 | assigning the non-editable attribute is refused, and the adapter's raw dict is left as it was |

## Left out

- The error message text, and the `errors` module's exception classes: errors are kinds with the names their messages interpolate.
- Error paths (a slash-delimited location of the failing key): the code builds none, so errors carry only the key name.
- Floating-point values: JSON numbers are integers here.
- Python's aliasing of the raw dict: `serialize_to_raw_data` returns the dict itself, so base.py and creator.py write into the caller's data. The model keeps the dict in the adapter's `rawData` field and writes there only.
- Values.Dict.Without: `del` of a missing key raises KeyError in Python; the model returns the dict unchanged. Every `del` of the scenarios removes a key that is present.
- Schema.GetSchemaAttributeInstance: schema attributes are values, so renaming the shared table entry (schema.py:86) is returned as the new table rather than done through the shared object. The adapter classes do model this rename in place (Base.LookupTwice).
- Schema.CompileAs: the free-content and free-type calls (schema.py:96, 115) compile to node shapes, and Schema.ToValidator gives them no validator, because validators.py defines no such class. As written, the class lookup raises; when a child also has a bad mapping entry, the model reports the entry error instead. Both raise AttributeError in Python.
- Class bodies are taken with each name once: Python's class namespace is a dict.
- Schema.OrderedAttributes: schema attributes are values here, so one attribute object declared under two names (`a = b = SchemaAttribute(str)`) compiles under each declared name. In Python schema.py:44-46 renames the shared object, so both validators carry the last name. The adapters model this last-binding rule (Base.CollectFields).
- The name order of `inspect.getmembers` is a property of the member list handed to Creator.BaseAdapter, not computed here. `getmembers` falls back to the class `__dict__` when a descriptor's `__get__` raises AttributeError. Either way it returns the descriptor itself, which is what the member list holds.
- Creator.AdapterMapped: creator.py's tables are assumed to hold only `AdapterAttribute`s. A non-attribute entry would raise AttributeError at `__set_name__`.
- base.py's search and alias routing (`__getattr__`, `search_aliased_adapter`, `search_in_attributes`, base.py:158-185; also base.py:95-97 and :168-170), which call methods that are abstract or misspelled (`taget_alias`).
- `__setattr__` (base.py:187-188) is modelled as Base.BaseAdapter.InsertValue, its only action. The delegated `insert_value` of another field is abstract (base.py:37-39), so the model returns which field it went to.
- creator.py's nested-adapter synthesis: `AdapterObjectAttribute`, `AdapterObjectFreeContentAttribute`, `AdapterFreeTypeAttribute`, the free-content `__getattr__` and the search routing (creator.py:84-136, 160-167, 179-213). They create classes at run time with `type(...)`.
- The module-level demo at creator.py:216-260 is not modelled.
- The stubs of validators.py (`get_name`, `MappedValidatedAttribute`, `MappingMixin.get_attribute_inst`, the commented free-content class, validators.py:11-12, 68-98), except the mapping check.
- mixture.py, json_api.py and for_restructuring/abstract_classes.py are not part of this model.
- These are reference definitions with no contract of their own; the lemmas listed above state their properties:
  - Validators.Validate, Rules.AttributeCheck (validators.py:14-32, 43-49) and Creator.CreatorCheck (creator.py:21-29, 44-54).
  - Validators.ValidateAll (validators.py:48-49, 59-60) and Validators.ValidateSchema (validators.py:56-60): see Validators.ValidateAllPassIff, Validators.ValidateAllFirstFailure, Validators.RootMustBeDict and Validators.RootRunsChildrenInOrder.
  - Schema.Compile, Schema.CompileAs and Schema.CompileBody (schema.py:22-28, 54-58, 66-73, 91-120): see Schema.CompileLeafKeepsFields, Schema.CompileBodyOnePerAttribute, Schema.CompileErrorIsBadEntry, Schema.MappingCompiledEntryByEntry and Schema.CompoundCompilesToCompoundValidator.
  - Schema.GetValidatorAsWritten (schema.py:67, 96, 115): see Schema.CompoundFailsAsWritten.
  - Base.AdapterAttribute.Check and Creator.AdapterAttribute.Check, the descriptors' `validate` on a raw dict (base.py:65-69 and the companion rule; creator.py:21-29): see Base.AdapterAttribute.Validate, Base.ValidatedFieldReads and Creator.AdapterAttribute.Validate.
  - Base.FieldsCheck and Creator.FieldsCheck (base.py:124-127, creator.py:73-76): see the FieldsCheckPassIff and FieldsCheckFirstFailure lemmas of both modules.
  - Creator.KeyCheck and Creator.UndeclaredCheck (creator.py:173-176): see Creator.UndeclaredCheckPassIff and Creator.AdapterFreeContent.DispatchKey.
  - Creator.BaseAdapter.Fields (creator.py:61-71), the fields the member list yields: see Creator.BaseAdapter.GetAdapterFields.
  - Creator.LastRename (creator.py:147, 176), the name each table entry is left with after the keys dispatched so far: see Creator.AdapterFreeContent.DispatchUndeclared and Creator.AdapterFreeContent.Validate.
  - Values.ExactType, Values.IsInstance and Values.Falsy (`type()`, `isinstance`, `not v`): see Values.InstanceVersusExactType, Values.InstanceOfDictOrObject and Creator.RawValueRules.

## Findings

| source | as written | input that shows it | evidently intended | confidence | as-written member | corrected member |
|---|---|---|---|---|---|---|
| schema.py:67-70 | `get_validator` of `SchemaCompoundedAttribute` calls `validators.CompoundedAttributeValidator`, which validators.py does not define (its class is `CompoundAttributeValidator`, validators.py:38). It also passes `data_type=dict`, which validators.py:40 passes again. | any `SchemaCompoundedAttribute`, e.g. one with a single required `str` child: the lookup raises AttributeError instead of building a validator | build `CompoundAttributeValidator(child_validators, name, required, required_with)`, whose constructor fixes the type to dict | not executed | Schema.GetValidatorAsWritten, Schema.CompoundFailsAsWritten | Schema.Compile, Schema.ToValidator, Schema.CompoundCompilesToCompoundValidator |
