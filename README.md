# EntityHelper — a Dafny model of the AweCsome entity-to-SharePoint mapping helper

`EntityHelper` is the static helper of the AweCsome framework. It maps a
property of an entity class to a SharePoint list field. It does three things:

- it derives the property's internal field name, stripping the `Id` / `Ids`
  suffix from lookup properties;
- it classifies the property as a SharePoint `FieldType`: lookups first, then
  field attributes in a fixed order, then enums, then the type code;
- it converts values between SharePoint item values (`FieldLookupValue`,
  arrays of them, strings) and entity property values (`KeyValuePair<int,string>`,
  `Dictionary<int,string>`, `int`, `int[]`, `string`, enums, and linked-entity
  classes with an `Id` member).

The .NET reflection is replaced by explicit descriptors:

- a `Property` is a name, a `TypeDesc` and the set of field attributes it
  carries (its own and inherited ones);
- a `TypeDesc` is `KeyValuePairIntString`, `DictionaryIntString`, `ArrayOf(T)`,
  `NullableOf(T)`, `EnumOf(names)`, `Builtin(TypeCode)` (`int` is
  `Builtin(Int32)`, `string` is `Builtin(String)`) or
  `Complex(hasId, hasTitle, internalName)` for a user class;
- a `Value` is a boxed value of one of the shapes the helper casts between;
- a linked entity is an `Entity` object on the heap. Its `id` and `title` are
  assigned in place, as `PropertyInfo.SetValue` does.

Exceptions become `Err` results: `NullReference`, `InvalidCast`, `DuplicateKey`,
`ArgumentNull` and `EnumParse`.

Files:

- `entity_model.dfy` (module `EntityModel`) holds the data model.
- `entity_helper.dfy` (module `EntityHelper`) holds the helper's operations,
  each with its contract. `RemoveSuffixFromName`, `RemoveLookupIdFromFieldName`
  and `GetInternalNameFromProperty` work on `ref` strings in the source; here
  they are methods whose out-parameters are the updated strings. Both converters
  are methods. `GetItemValueForProperty` allocates entities, updates them in
  place and loops in `CreateSharedEntityArray`. `GetPropertyValueForItem` only
  reads, and loops over an entity array in `CollectEntityIds`.
- `entity_helper_properties.dfy` (module `EntityHelperProperties`) holds the
  classification lemmas, the dictionary and enum lemmas, the round trips
  (item value → property value → item value) and worked examples.

Behaviour of the code that the model keeps as written:

- The internal name is taken from an `InternalNameAttribute` on the property's
  *type*, not on the property (`EntityHelper.cs:37`). A lookup to a class with
  such an attribute gets the class's name (`NameFromLinkedTypeExample`).
- The display name that `GetInternalNameFromProperty` (`EntityHelper.cs:39-40`)
  hands to `RemoveLookupIdFromFieldName` is always null, so that call only ever
  strips the internal name.
- The `LookupBaseAttribute` entry of the attribute chain (`EntityHelper.cs:146`)
  is never reached (`LookupBaseEntryNeverDecides`).
- For a class element type, the complex-array conversion creates one instance before its loop
  (`EntityHelper.cs:185`) and stores that same instance in every slot. The
  result holds only the last lookup value's id and title.
  `RoundTripEntityArray` shows that converting back yields the last id once per
  slot, and `ItemValueExamples` shows `[{1,"A"},{2,"B"}]` becoming two slots that
  share one instance with `Id` 2 and `Title` "B".
- `ToDictionary` fails on a repeated lookup id (`DuplicateKey`); later entries
  do not overwrite earlier ones.
- A null item value for a lookup property fails at `itemValue.GetType()`
  (`EntityHelper.cs:167`). The `?.` guards at lines 204-205 therefore never
  apply.

Constants:

- `SuffixId` is `"Id"`, because the code also uses it as the name of the `Id`
  member.
- `SuffixIds` is left unspecified (an uninitialised constant). Every proof holds
  for any text.
- The `Title` member name appears only through the `hasTitle` flag of `Complex`.
- The `AssociatedFieldType` constant of each attribute class is an unspecified
  mapping `AssociatedFieldType: FieldAttribute -> FieldType`, because the
  attribute classes are not part of this model.

## Model

| member | source | states |
|---|---|---|
| `EntityHelper.RemoveSuffixFromName` | AweCsomeFramework/EntityHelper.cs:21-25 | A null name stays null. A name ending in the suffix loses exactly one trailing copy: the result followed by the suffix is the name. Any other name is unchanged. |
| `EntityHelper.RemoveLookupIdFromFieldName` | AweCsomeFramework/EntityHelper.cs:27-31 | Strips `SuffixIds` from both names for an array and `SuffixId` otherwise, under the same one-trailing-copy rule. |
| `EntityHelper.GetInternalNameFromProperty` | AweCsomeFramework/EntityHelper.cs:34-42 | A non-lookup property gets its type's `InternalNameAttribute`, or else its own name, unchanged. For a lookup, that name loses one trailing `SuffixIds` (array type) or `SuffixId` (otherwise), and only if it ends with it. |
| `EntityHelper.FirstAttributeFieldType` | AweCsomeFramework/EntityHelper.cs:139-160 | The `??` chain: None exactly when the property carries none of the attributes in order. Otherwise it gives the associated field type of an attribute the property carries, and no attribute before it in the order is carried. |
| `EntityHelper.FieldTypeOfTypeCode` | AweCsomeFramework/EntityHelper.cs:111-136 | The eleven numeric type codes give Number, Boolean gives Boolean, String and Char give Text, DateTime gives DateTime. Exactly Empty, Object and DBNull give Invalid. |
| `EntityHelperProperties.FieldTypeIsLookupExactly` | AweCsomeFramework/EntityHelper.cs:89-110 | `GetFieldType` is Lookup exactly when `PropertyIsLookup` holds or the first carried attribute is associated with Lookup. |
| `EntityHelperProperties.FirstAttributeDecides` | AweCsomeFramework/EntityHelper.cs:100-154 | For a non-lookup property, the first attribute in the order Boolean, Choice, Currency, DateTime, LookupBase, ManagedMetadata, Note, Number, Text, Url, User that it carries decides the field type. |
| `EntityHelperProperties.AbsentAttributeIsSkipped` | AweCsomeFramework/EntityHelper.cs:139-154 | Removing an attribute the property does not carry from the chain does not change the chain's answer. |
| `EntityHelperProperties.LookupBaseEntryNeverDecides` | AweCsomeFramework/EntityHelper.cs:89-154 | Every property with `LookupBaseAttribute` is classified Lookup before the chain runs. For every non-lookup property, the chain without the LookupBase entry gives the same field type. |
| `EntityHelperProperties.EnumIsChoice` | AweCsomeFramework/EntityHelper.cs:100-110 | With no lookup and no field attribute, an enum, a nullable enum or an enum array is a Choice. |
| `EntityHelperProperties.InvalidExactlyWhenUnsupported` | AweCsomeFramework/EntityHelper.cs:100-136 | `GetFieldType` is Invalid exactly for a non-lookup property whose chain answers Invalid, or whose chain is silent and whose unwrapped type is no enum and has type code Empty, Object or DBNull. |
| `EntityHelperProperties.PrimitiveKinds` | AweCsomeFramework/EntityHelper.cs:103-131 | After `Nullable` and array unwrapping, a built-in type with no lookup and no attribute is Number, Boolean, Text or DateTime exactly for the corresponding type codes. |
| `EntityHelper.PropertyIsLookup` | AweCsomeFramework/EntityHelper.cs:89-98 | The five-way OR of lines 91-96: a `LookupBaseAttribute` (own or inherited), `KeyValuePair<int,string>`, `Dictionary<int,string>`, a class with `Id`, or an array of such a class. Its consequences for classification are pinned by `FieldTypeIsLookupExactly` and `LookupBaseEntryNeverDecides`. |
| `EntityHelper.GetFieldTypeFromAttribute` | AweCsomeFramework/EntityHelper.cs:139-154 | None exactly when the property carries none of the eleven field attributes; otherwise the associated field type of one it carries (the first in order, by `FirstAttributeFieldType`). |
| `EntityHelper.GetFieldType` | AweCsomeFramework/EntityHelper.cs:100-137 | The cascade: lookup first, then the attribute chain, then enum as Choice, then the type-code switch. Its outcomes are pinned by `FieldTypeIsLookupExactly`, `FirstAttributeDecides`, `EnumIsChoice`, `InvalidExactlyWhenUnsupported` and `PrimitiveKinds`. |
| `EntityHelper.EnumName` | AweCsomeFramework/EntityHelper.cs:253 | `Enum.GetName`: a name exactly for an ordinal of a member, and then one of the enum's names; null for an undefined value. Inverted by `ParseEnum` (`EnumNameAndParseInvert`). |
| `EntityHelper.CreateLookupFromId` | AweCsomeFramework/EntityHelper.cs:79-82 | A lookup value with the given id and no label. |
| `EntityHelper.CreateLookupsFromIds` | AweCsomeFramework/EntityHelper.cs:84-87 | One lookup value per id, in the same order, with no label. |
| `EntityHelper.ToDictionary` | AweCsomeFramework/EntityHelper.cs:170 | Succeeds exactly when the lookup ids are distinct, and otherwise fails with DuplicateKey. On success, entry i is (id, label) of lookup value i. |
| `EntityHelperProperties.DictionaryMapsEachIdToItsLabel` | AweCsomeFramework/EntityHelper.cs:170 | For distinct ids, the dictionary's keys are the lookup ids in input order. It maps each id to that lookup value's label and holds no other key. |
| `EntityHelper.ParseEnum` | AweCsomeFramework/EntityHelper.cs:224 | `Enum.Parse` as exact name lookup: succeeds exactly when the string is a member name, and then gives an ordinal whose name is that string. Otherwise it fails with EnumParse. |
| `EntityHelperProperties.EnumNameAndParseInvert` | AweCsomeFramework/EntityHelper.cs:222-254 | For an enum with distinct names, parsing a member's name (`Enum.GetName`) gives back that member, and naming a parsed member gives back the string. |
| `EntityHelper.EnumParseOrPassThrough` | AweCsomeFramework/EntityHelper.cs:222-226 | A non-enum type passes the item value through unchanged. An enum type needs a string (else ArgumentNull), succeeds exactly when the string is a member name, and gives the member bearing that name; any other string fails with EnumParse. |
| `EntityHelper.CreateSharedEntityArray` | AweCsomeFramework/EntityHelper.cs:182-198 | The array and the instance are newly created. The array has one slot per lookup value. All slots hold the same instance, whose id, and whose title when the type has one, are those of the last lookup value. |
| `EntityHelper.GetItemValueForProperty` | AweCsomeFramework/EntityHelper.cs:162-227 | A non-lookup property gets the enum parse or the value itself. For a lookup: a null item is NullReference, and a non-lookup item is InvalidCast. A lookup array becomes a dictionary (or DuplicateKey), the ids in order for `int[]`, NullReference for a non-array type, a new array sharing one new instance for an array of a class with `Id`, and otherwise the item itself. A single lookup becomes (id, label) for a pair, the id for `int`, the label for `string`, a freshly created entity with that id and title for a class with `Id`, and otherwise the enum parse or pass-through. |
| `EntityHelper.CollectEntityIds` | AweCsomeFramework/EntityHelper.cs:238-243 | Succeeds exactly when no slot is null, and otherwise fails with NullReference. On success it lists each element's id, in array order. |
| `EntityHelper.GetPropertyValueForItem` | AweCsomeFramework/EntityHelper.cs:229-256 | For a lookup property: a pair gives one lookup from its key; a dictionary gives one lookup per key, in enumeration order (ArgumentNull if null); an array of a class with `Id` gives one lookup per element id (NullReference on a null array or element); a class with `Id` gives one lookup from its id (NullReference if null). Otherwise an enum gives the member's name (null if undefined), and anything else passes through. |
| `EntityHelperProperties.RoundTripKeyValuePair` | AweCsomeFramework/EntityHelper.cs:201-234 | Item → pair → item keeps the lookup id and drops the label. |
| `EntityHelperProperties.RoundTripEntity` | AweCsomeFramework/EntityHelper.cs:210-248 | Item → linked entity → item keeps the lookup id and drops the label. |
| `EntityHelperProperties.RoundTripDictionary` | AweCsomeFramework/EntityHelper.cs:167-235 | For distinct ids, item → dictionary → item gives back the same ids in the same order, with no labels. |
| `EntityHelperProperties.RoundTripEntityArray` | AweCsomeFramework/EntityHelper.cs:182-243 | Item → entity array → item gives one lookup per input value, each carrying the last value's id. As soon as two ids differ, the ids do not survive. |
| `EntityHelperProperties.RoundTripEnum` | AweCsomeFramework/EntityHelper.cs:222-253 | For a non-lookup enum property with distinct names, a member goes out as its name and comes back as the same member. |
| `EntityHelperProperties.PassThroughBothWays` | AweCsomeFramework/EntityHelper.cs:222-255 | A property that is neither a lookup nor an enum leaves the value unchanged in both directions. |
| `EntityHelperProperties.SingleLookupNameExample` | AweCsomeFramework/EntityHelper.cs:34-42 | `ManagerId`, an `int` lookup, is named `Manager`. `ValidId`, which is no lookup, keeps its name. |
| `EntityHelperProperties.MultiLookupNameExample` | AweCsomeFramework/EntityHelper.cs:34-42 | `Employees` + `SuffixIds`, an array of a class with `Id`, is named `Employees`. |
| `EntityHelperProperties.SuffixRemovedOnceExample` | AweCsomeFramework/EntityHelper.cs:21-25 | `IdId` with suffix `Id` becomes `Id`: one copy is removed, not every copy. |
| `EntityHelperProperties.NameFromLinkedTypeExample` | AweCsomeFramework/EntityHelper.cs:34-42 | A lookup property `ManagerId` whose class carries the internal name `Employee` is named `Employee`. |
| `EntityHelperProperties.ItemValueExamples` | AweCsomeFramework/EntityHelper.cs:162-219 | The lookup {42, "Jane"} becomes 42, "Jane" and (42, "Jane") for `int`, `string` and pair properties. The lookups [{1,"A"},{2,"B"}] become a two-slot array whose slots are one instance with `Id` 2 and `Title` "B". |

## Left out

- .NET reflection (`GetCustomAttribute`, `GetProperty`, `GetValue`, `SetValue`, `Activator.CreateInstance`, `Array.CreateInstance`, `MakeGenericType`): replaced by the `TypeDesc` and attribute-set descriptors and by the `Entity` class. Runtime type probing is not modelled.
- `GetInternalNameFromEntityType`, `GetDisplayNameFromEntityType`, `GetListTemplateType`, `GetDescriptionFromEntityType`, `IsGenericList`, `IsDictionary` (lines 44-77): not modelled. Each is one attribute-or-default read, or a generic-type test, with nothing to prove beyond the fallback.
- The warning logged for an unsupported type (line 134): a log4net side effect. The model only returns Invalid.
- `ListTemplateType.GenericList` (line 60) belongs to the SharePoint client library, which is not part of this model.
- Enums: members are numbered 0..n-1 in declaration order. Explicit values, aliases, flags, and `Enum.Parse`'s numeric strings, whitespace and case rules are not modelled; parsing is exact name lookup.
- `EndsWith`: the source's call is culture-sensitive; the model compares character by character.
- Lookup arrays have no null slots; a null `FieldLookupValue` inside an array is not modelled.
- `Activator.CreateInstance` is taken to leave `Id` at 0 and `Title` at null. The `Id` member is taken to be an `int` and `Title` a `string`. The exceptions `SetValue` and the `(int)` unboxing would raise for other member types are not modelled.
- Only user classes (`Complex`) carry a type-level `InternalNameAttribute`; such an attribute on an enum type is not modelled.
- `Complex` stands for a concrete class with a public parameterless constructor. A struct element type behaves differently in the source and is not modelled: `IList.Add` (line 193) stores a copy of the boxed struct, so each slot keeps its own id and title and nothing is shared; `(object[])` on a struct array (line 239) throws an invalid cast. An interface, an abstract class or a class without a public parameterless constructor makes `Activator.CreateInstance` (lines 185, 212) throw; that failure is not modelled either.
- Several attributes of one kind on a property (`AmbiguousMatchException`) are not modelled.
- `Dictionary<int,string>` enumeration order is not modelled: a `Dictionary` value's `entries` are its enumeration order, whatever it is. A dictionary built by `ToDictionary` lists its entries in input order; one read by `GetPropertyValueForItem` may have been built by other code in any order.
- RemoveLookupIdFromFieldName: the model takes two value parameters and returns two results, so it does not capture both `ref` parameters aliasing one variable; with the same variable passed twice, the source strips the suffix twice (`ManagerIdId` becomes `Manager`).
- GetPropertyValueForItem: requires the property value to have its declared type's shape (`HoldsShapeOf`), which C# typing guarantees for `property.GetValue`. The cast failures this excludes are not modelled.
- Lookup ids are unbounded integers; the helper does no arithmetic on them, so 32-bit width does not matter.
