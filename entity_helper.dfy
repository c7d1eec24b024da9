/**
 * The entity helper: lookup field-name normalisation, field-type
 * classification, and the two value converters between SharePoint item
 * values and entity property values.
 */
module EntityHelper {
  import opened EntityModel

  // ---------------------------------------------------------------------------
  // Field names
  // ---------------------------------------------------------------------------

  /** String.EndsWith, compared character by character. */
  predicate EndsWith(s: string, suffix: string) {
    |suffix| <= |s| && s[|s| - |suffix|..] == suffix
  }

  /**
   * after is before with one trailing suffix removed when before ends with it,
   * and before itself otherwise; a null name stays null.
   */
  predicate StripsSuffix(before: Option<string>, suffix: string, after: Option<string>) {
    match before
    case None => after == None
    case Some(name) =>
      if EndsWith(name, suffix) then after.Some? && after.value + suffix == name
      else after == before
  }

  /** The suffix a lookup field name carries: SuffixIds for an array, SuffixId otherwise. */
  function LookupSuffix(isArray: bool): string {
    if isArray then SuffixIds else SuffixId
  }

  /** RemoveSuffixFromName: the ref parameter becomes an in and an out parameter. */
  method RemoveSuffixFromName(name: Option<string>, suffix: string) returns (stripped: Option<string>)
    ensures StripsSuffix(name, suffix, stripped)
  {
    stripped := name;
    if name == None {
      return;
    }
    var s := name.value;
    if EndsWith(s, suffix) {
      stripped := Some(s[..|s| - |suffix|]);
      assert s[..|s| - |suffix|] + s[|s| - |suffix|..] == s;
    }
  }

  method RemoveLookupIdFromFieldName(isArray: bool, internalName: Option<string>, displayName: Option<string>)
    returns (newInternalName: Option<string>, newDisplayName: Option<string>)
    ensures StripsSuffix(internalName, LookupSuffix(isArray), newInternalName)
    ensures StripsSuffix(displayName, LookupSuffix(isArray), newDisplayName)
  {
    newInternalName := RemoveSuffixFromName(internalName, LookupSuffix(isArray));
    newDisplayName := RemoveSuffixFromName(displayName, LookupSuffix(isArray));
  }

  /** The InternalNameAttribute found on a type; only user classes carry one here. */
  function TypeInternalName(t: TypeDesc): Option<string> {
    if t.Complex? then t.internalName else None
  }

  /**
   * The name a property declares for its field before lookup normalisation: the
   * InternalNameAttribute of the property's TYPE, or else the property name.
   */
  function DeclaredInternalName(p: Property): string {
    match TypeInternalName(p.propertyType)
    case Some(n) => n
    case None => p.name
  }

  method GetInternalNameFromProperty(p: Property) returns (internalName: string)
    ensures !PropertyIsLookup(p) ==> internalName == DeclaredInternalName(p)
    ensures PropertyIsLookup(p) ==>
      StripsSuffix(Some(DeclaredInternalName(p)), LookupSuffix(p.propertyType.ArrayOf?), Some(internalName))
  {
    var name := DeclaredInternalName(p);
    var displayName: Option<string> := None;
    if PropertyIsLookup(p) {
      var newName, newDisplayName := RemoveLookupIdFromFieldName(p.propertyType.ArrayOf?, Some(name), displayName);
      name := newName.value;
    }
    internalName := name;
  }

  // ---------------------------------------------------------------------------
  // Field-type classification
  // ---------------------------------------------------------------------------

  /** propertyType.GetProperty(SuffixId) != null */
  predicate HasIdMember(t: TypeDesc) {
    t.Complex? && t.hasId
  }

  predicate PropertyIsLookup(p: Property) {
    || LookupBaseAttribute in p.attributes                            // lookup attribute, inherited included
    || p.propertyType == KeyValuePairIntString                        // single lookup
    || p.propertyType == DictionaryIntString                          // multi lookup
    || HasIdMember(p.propertyType)                                    // single lookup, complex type
    || (p.propertyType.ArrayOf? && HasIdMember(p.propertyType.elem))  // multi lookup, complex type
  }

  /** The order in which the attribute chain asks for each attribute. */
  const AttributeOrder: seq<FieldAttribute> := [
    BooleanAttribute, ChoiceAttribute, CurrencyAttribute, DateTimeAttribute,
    LookupBaseAttribute, ManagedMetadataAttribute, NoteAttribute, NumberAttribute,
    TextAttribute, UrlAttribute, UserAttribute
  ]

  /**
   * The chain of `??`: the associated field type of the first attribute in order
   * that the property carries, or None when it carries none of them.
   */
  function FirstAttributeFieldType(attributes: set<FieldAttribute>, order: seq<FieldAttribute>): (r: Option<FieldType>)
    ensures r.None? <==> forall i | 0 <= i < |order| :: order[i] !in attributes
    ensures r.Some? ==>
      exists k | 0 <= k < |order| ::
        && order[k] in attributes
        && r.value == AssociatedFieldType(order[k])
        && forall j | 0 <= j < k :: order[j] !in attributes
  {
    if order == [] then None
    else if order[0] in attributes then
      Some(AssociatedFieldType(order[0]))
    else
      var r := FirstAttributeFieldType(attributes, order[1..]);
      assert r.Some? ==>
        exists k | 0 <= k < |order[1..]| ::
          && order[1..][k] in attributes
          && r.value == AssociatedFieldType(order[1..][k])
          && forall j | 0 <= j < k :: order[1..][j] !in attributes;
      assert forall k | 0 <= k < |order[1..]| :: order[1..][k] == order[k + 1];
      r
  }

  /** The attribute chain over the property's own and inherited attributes. */
  function GetFieldTypeFromAttribute(p: Property): (r: Option<FieldType>)
    ensures r.None? <==> forall a | a in AttributeOrder :: a !in p.attributes
    ensures r.Some? ==> exists a | a in p.attributes && a in AttributeOrder :: r.value == AssociatedFieldType(a)
  {
    FirstAttributeFieldType(p.attributes, AttributeOrder)
  }

  /** The type GetFieldType classifies: Nullable<T> becomes T, then T[] becomes T. */
  function UnwrapNullableAndArray(t: TypeDesc): TypeDesc {
    var u := if t.NullableOf? then t.inner else t;
    if u.ArrayOf? then u.elem else u
  }

  /** Type.GetTypeCode; every type that is not a framework primitive reports Object. */
  function TypeCodeOf(t: TypeDesc): TypeCode {
    if t.Builtin? then t.code else Object
  }

  predicate IsNumericTypeCode(c: TypeCode) {
    c in {SByte, Byte, Int16, UInt16, Int32, UInt32, Int64, UInt64, Single, Double, Decimal}
  }

  /** The switch on the type code. */
  function FieldTypeOfTypeCode(c: TypeCode): (r: FieldType)
    ensures r == Number <==> IsNumericTypeCode(c)
    ensures r == FieldType.Boolean <==> c == TypeCode.Boolean
    ensures r == Text <==> c == TypeCode.String || c == Char
    ensures r == FieldType.DateTime <==> c == TypeCode.DateTime
    ensures r == Invalid <==> c in {Empty, Object, DBNull}
  {
    match c
    case Byte | SByte | UInt16 | UInt32 | UInt64 | Int16 | Int32 | Int64 | Decimal | Double | Single => Number
    case Boolean => FieldType.Boolean
    case String | Char => Text
    case DateTime => FieldType.DateTime
    case _ => Invalid   // the source logs a warning here
  }

  /** The rest of the cascade once the attribute chain has answered. */
  function GetFieldTypeOrDefault(p: Property, fromAttribute: Option<FieldType>): FieldType {
    var t := UnwrapNullableAndArray(p.propertyType);
    match fromAttribute
    case Some(ft) => ft
    case None => if t.EnumOf? then Choice else FieldTypeOfTypeCode(TypeCodeOf(t))
  }

  function GetFieldType(p: Property): FieldType {
    if PropertyIsLookup(p) then Lookup
    else GetFieldTypeOrDefault(p, GetFieldTypeFromAttribute(p))
  }

  // ---------------------------------------------------------------------------
  // Lookup values and the projections used by both converters
  // ---------------------------------------------------------------------------

  function CreateLookupFromId(id: int): (r: FieldLookupValue)
    ensures r.lookupId == id && r.lookupValue == None
  {
    FieldLookupValue(id, None)
  }

  function CreateLookupsFromIds(ids: seq<int>): (r: seq<FieldLookupValue>)
    ensures |r| == |ids|
    ensures forall i | 0 <= i < |ids| :: r[i].lookupId == ids[i] && r[i].lookupValue == None
  {
    seq(|ids|, i requires 0 <= i < |ids| => CreateLookupFromId(ids[i]))
  }

  /**
   * ToDictionary(q => q.LookupId, q => q.LookupValue): one entry per lookup value,
   * in input order; a repeated id is an error.
   */
  function ToDictionary(lookups: seq<FieldLookupValue>): (r: Result<Dictionary>)
    ensures r.Ok? <==> Distinct(LookupIds(lookups))
    ensures r.Err? ==> r.error == DuplicateKey
    ensures r.Ok? ==>
      && |r.value.entries| == |lookups|
      && forall i | 0 <= i < |lookups| :: r.value.entries[i] == (lookups[i].lookupId, lookups[i].lookupValue)
    decreases |lookups|
  {
    if lookups == [] then Ok(Dictionary([]))
    else
      var n := |lookups| - 1;
      var last := lookups[n];
      assert LookupIds(lookups[..n]) == LookupIds(lookups)[..n];
      match ToDictionary(lookups[..n])
      case Err(e) => Err(e)
      case Ok(d) =>
        assert d.Keys() == LookupIds(lookups)[..n];
        if d.ContainsKey(last.lookupId) then
          assert LookupIds(lookups)[n] == last.lookupId;
          assert last.lookupId in LookupIds(lookups)[..n];
          Err(DuplicateKey)
        else Ok(Dictionary(d.entries + [(last.lookupId, last.lookupValue)]))
  }

  /** Enum.Parse, by exact member name. */
  function ParseEnum(names: seq<string>, s: string): (r: Result<int>)
    ensures r.Ok? <==> s in names
    ensures r.Ok? ==> 0 <= r.value < |names| && names[r.value] == s
    ensures r.Err? ==> r.error == EnumParse
  {
    if names == [] then Err(EnumParse)
    else if names[0] == s then Ok(0)
    else
      match ParseEnum(names[1..], s)
      case Ok(k) => Ok(k + 1)
      case Err(e) => Err(e)
  }

  /** Enum.GetName: the name of the member with that ordinal, or null. */
  function EnumName(names: seq<string>, ordinal: int): (r: Option<string>)
    ensures r.Some? <==> 0 <= ordinal < |names|
    ensures r.Some? ==> r.value in names
  {
    if 0 <= ordinal < |names| then Some(names[ordinal]) else None
  }

  /** The tail shared by both converters: parse into an enum, or pass the value through. */
  function EnumParseOrPassThrough(t: TypeDesc, item: Value): (r: Result<Value>)
    ensures !t.EnumOf? ==> r == Ok(item)
    ensures t.EnumOf? && !item.StrV? ==> r == Err(ArgumentNull)
    ensures t.EnumOf? && item.StrV? ==> (r.Ok? <==> item.s in t.names)
    ensures t.EnumOf? && item.StrV? && r.Err? ==> r.error == EnumParse
    ensures t.EnumOf? && r.Ok? ==> r.value.EnumV? && EnumName(t.names, r.value.ordinal) == Some(item.s)
  {
    if t.EnumOf? then
      if item.StrV? then
        match ParseEnum(t.names, item.s)
        case Ok(k) => Ok(EnumV(k))
        case Err(e) => Err(e)
      else Err(ArgumentNull)  // `itemValue as string` is null
    else Ok(item)
  }

  // ---------------------------------------------------------------------------
  // SharePoint item value -> entity property value
  // ---------------------------------------------------------------------------

  /**
   * The complex-array branch: one instance of the element type is created before
   * the loop, every lookup value overwrites its Id (and Title), and the same
   * instance is appended for each lookup value.
   */
  method CreateSharedEntityArray(hasTitle: bool, lookups: seq<FieldLookupValue>) returns (entities: array<Entity?>)
    ensures entities.Length == |lookups|
    ensures fresh(entities)
    ensures |lookups| > 0 ==> fresh(entities[0])
    ensures forall i | 0 <= i < entities.Length :: entities[i] == entities[0]
    ensures |lookups| > 0 ==>
      var last := lookups[|lookups| - 1];
      && entities[0] != null
      && entities[0].hasTitle == hasTitle
      && entities[0].id == last.lookupId
      && entities[0].title == (if hasTitle then last.lookupValue else None)
  {
    var list: seq<Entity?> := [];
    var target := new Entity(hasTitle);
    for i := 0 to |lookups|
      invariant |list| == i
      invariant forall k | 0 <= k < i :: list[k] == target
      invariant fresh(target)
      invariant target.hasTitle == hasTitle
      invariant i > 0 ==> target.id == lookups[i - 1].lookupId
      invariant target.title == (if hasTitle && i > 0 then lookups[i - 1].lookupValue else None)
    {
      target.id := lookups[i].lookupId;
      if hasTitle {
        target.title := lookups[i].lookupValue;
      }
      list := list + [target];
    }
    entities := new Entity?[|list|](k requires 0 <= k < |list| => list[k]);
  }

  method GetItemValueForProperty(p: Property, item: Value) returns (r: Result<Value>)
    // neither lookup: enum or pass-through
    ensures !PropertyIsLookup(p) ==> r == EnumParseOrPassThrough(p.propertyType, item)
    // a lookup property: the item value must be a FieldLookupValue or an array of them
    ensures PropertyIsLookup(p) && item.Null? ==> r == Err(NullReference)
    ensures PropertyIsLookup(p) && (item.IntArrayV? || item.EntityArrayV?) ==> r == Err(InvalidCast)
    ensures PropertyIsLookup(p) && !item.Null? && !IsArrayValue(item) && !item.LookupV? ==> r == Err(InvalidCast)
    // multi lookup
    ensures PropertyIsLookup(p) && item.LookupArrayV? ==>
      var t, lookups := p.propertyType, item.lookups;
      && (t == DictionaryIntString ==>
            match ToDictionary(lookups)
            case Ok(d) => r == Ok(DictionaryV(d))
            case Err(e) => r == Err(e))
      && (t == ArrayOf(IntType) ==> r == Ok(IntArrayV(LookupIds(lookups))))
      && (t != DictionaryIntString && !t.ArrayOf? ==> r == Err(NullReference))
      && (t.ArrayOf? && t != ArrayOf(IntType) && !HasIdMember(t.elem) ==> r == Ok(item))
      && (t.ArrayOf? && HasIdMember(t.elem) ==>
            && r.Ok? && r.value.EntityArrayV?
            && var entities := r.value.entities;
            && fresh(entities)
            && entities.Length == |lookups|
            && (|lookups| > 0 ==> fresh(entities[0]))
            && (forall i | 0 <= i < entities.Length :: entities[i] == entities[0])
            && (|lookups| > 0 ==>
                  var last := lookups[|lookups| - 1];
                  && entities[0] != null
                  && entities[0].hasTitle == t.elem.hasTitle
                  && entities[0].id == last.lookupId
                  && entities[0].title == (if t.elem.hasTitle then last.lookupValue else None)))
    // single lookup
    ensures PropertyIsLookup(p) && item.LookupV? ==>
      var t, lookup := p.propertyType, item.lookup;
      && (t == KeyValuePairIntString ==> r == Ok(KeyValuePairV(lookup.lookupId, lookup.lookupValue)))
      && (t == IntType ==> r == Ok(IntV(lookup.lookupId)))
      && (t == StringType ==> r == Ok(StringValue(lookup.lookupValue)))
      && (HasIdMember(t) ==>
            && r.Ok? && r.value.EntityV?
            && fresh(r.value.entity)
            && r.value.entity.hasTitle == t.hasTitle
            && r.value.entity.id == lookup.lookupId
            && r.value.entity.title == (if t.hasTitle then lookup.lookupValue else None))
      && (t != KeyValuePairIntString && t != IntType && t != StringType && !HasIdMember(t) ==>
            r == EnumParseOrPassThrough(t, item))
  {
    var t := p.propertyType;
    if PropertyIsLookup(p) {
      if item.Null? {
        return Err(NullReference);        // itemValue.GetType()
      }
      if IsArrayValue(item) {
        if !item.LookupArrayV? {
          return Err(InvalidCast);        // (FieldLookupValue[])itemValue
        }
        var lookups := item.lookups;
        if t == DictionaryIntString {
          match ToDictionary(lookups)
          case Ok(d) => return Ok(DictionaryV(d));
          case Err(e) => return Err(e);
        }
        if t == ArrayOf(IntType) {
          return Ok(IntArrayV(LookupIds(lookups)));
        }
        if !t.ArrayOf? {
          return Err(NullReference);      // GetElementType() is null
        }
        var elementType := t.elem;
        if HasIdMember(elementType) {
          var entities := CreateSharedEntityArray(elementType.hasTitle, lookups);
          return Ok(EntityArrayV(entities));
        }
      } else {
        if !item.LookupV? {
          return Err(InvalidCast);        // (FieldLookupValue)itemValue
        }
        var lookup := item.lookup;
        if t == KeyValuePairIntString {
          return Ok(KeyValuePairV(lookup.lookupId, lookup.lookupValue));
        }
        if t == IntType {
          return Ok(IntV(lookup.lookupId));
        }
        if t == StringType {
          return Ok(StringValue(lookup.lookupValue));
        }
        if HasIdMember(t) {
          var target := new Entity(t.hasTitle);
          target.id := lookup.lookupId;
          if t.hasTitle {
            target.title := lookup.lookupValue;
          }
          return Ok(EntityV(target));
        }
      }
    }
    r := EnumParseOrPassThrough(t, item);
  }

  // ---------------------------------------------------------------------------
  // Entity property value -> SharePoint item value
  // ---------------------------------------------------------------------------

  /**
   * What C#'s static typing guarantees of property.GetValue(entity) for the
   * shapes this converter casts to: a KeyValuePair or an enum is never null, a
   * Dictionary has distinct keys, and a reference-typed property holds null or
   * an instance of its type.
   */
  predicate HoldsShapeOf(v: Value, t: TypeDesc) {
    match t
    case KeyValuePairIntString => v.KeyValuePairV?
    case DictionaryIntString => v.Null? || (v.DictionaryV? && Distinct(v.dict.Keys()))
    case ArrayOf(elem) => HasIdMember(elem) ==> v.Null? || v.EntityArrayV?
    case Complex(hasId, _, _) => hasId ==> v.Null? || v.EntityV?
    case EnumOf(_) => v.EnumV?
    case _ => true
  }

  /** The lookup shapes the entity-to-item converter turns into lookup values. */
  predicate ConvertsToLookup(p: Property) {
    var t := p.propertyType;
    || t == KeyValuePairIntString
    || t == DictionaryIntString
    || (t.ArrayOf? && HasIdMember(t.elem))
    || HasIdMember(t)
  }

  /** The loop collecting each element's Id (`List<int> ids`). */
  method CollectEntityIds(entities: array<Entity?>) returns (r: Result<seq<int>>)
    ensures r.Ok? <==> forall i | 0 <= i < entities.Length :: entities[i] != null
    ensures r.Err? ==> r.error == NullReference
    ensures r.Ok? ==>
      && |r.value| == entities.Length
      && forall i | 0 <= i < entities.Length :: entities[i] != null && r.value[i] == entities[i].id
  {
    var ids: seq<int> := [];
    for i := 0 to entities.Length
      invariant |ids| == i
      invariant forall k | 0 <= k < i :: entities[k] != null && ids[k] == entities[k].id
    {
      var item := entities[i];
      if item == null {
        return Err(NullReference);        // item.GetType()
      }
      ids := ids + [item.id];
    }
    r := Ok(ids);
  }

  method GetPropertyValueForItem(p: Property, v: Value) returns (r: Result<Value>)
    requires HoldsShapeOf(v, p.propertyType)
    ensures PropertyIsLookup(p) && p.propertyType == KeyValuePairIntString ==>
      r == Ok(LookupV(CreateLookupFromId(v.key)))
    ensures PropertyIsLookup(p) && p.propertyType == DictionaryIntString ==>
      r == if v.Null? then Err(ArgumentNull) else Ok(LookupArrayV(CreateLookupsFromIds(v.dict.Keys())))
    ensures PropertyIsLookup(p) && p.propertyType.ArrayOf? && HasIdMember(p.propertyType.elem) ==>
      if v.Null? then r == Err(NullReference)
      else
        var entities := v.entities;
        && (r.Ok? <==> forall i | 0 <= i < entities.Length :: entities[i] != null)
        && (r.Err? ==> r.error == NullReference)
        && (r.Ok? ==>
              && r.value.LookupArrayV?
              && |r.value.lookups| == entities.Length
              && forall i | 0 <= i < entities.Length ::
                   entities[i] != null && r.value.lookups[i] == CreateLookupFromId(entities[i].id))
    ensures PropertyIsLookup(p) && HasIdMember(p.propertyType) ==>
      r == if v.Null? then Err(NullReference) else Ok(LookupV(CreateLookupFromId(v.entity.id)))
    ensures !ConvertsToLookup(p) && p.propertyType.EnumOf? ==>
      r == Ok(StringValue(EnumName(p.propertyType.names, v.ordinal)))
    ensures !ConvertsToLookup(p) && !p.propertyType.EnumOf? ==> r == Ok(v)
  {
    var t := p.propertyType;
    if PropertyIsLookup(p) {
      if t == KeyValuePairIntString {
        return Ok(LookupV(CreateLookupFromId(v.key)));
      }
      if t == DictionaryIntString {
        if v.Null? {
          return Err(ArgumentNull);       // Select on a null dictionary
        }
        return Ok(LookupArrayV(CreateLookupsFromIds(v.dict.Keys())));
      }
      if t.ArrayOf? && HasIdMember(t.elem) {
        if v.Null? {
          return Err(NullReference);      // foreach over a null array
        }
        var ids := CollectEntityIds(v.entities);
        match ids
        case Ok(s) => return Ok(LookupArrayV(CreateLookupsFromIds(s)));
        case Err(e) => return Err(e);
      }
      if HasIdMember(t) {
        if v.Null? {
          return Err(NullReference);      // item.GetType()
        }
        return Ok(LookupV(CreateLookupFromId(v.entity.id)));
      }
    }
    if t.EnumOf? {
      return Ok(StringValue(EnumName(t.names, v.ordinal)));
    }
    r := Ok(v);
  }
}
