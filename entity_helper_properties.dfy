/**
 * Properties of the entity helper that relate several of its operations:
 * the classification cascade, the dictionary and enum conversions, and the
 * round trips item value -> property value -> item value.
 */
module EntityHelperProperties {
  import opened EntityModel
  import opened EntityHelper

  // ---------------------------------------------------------------------------
  // Field-type classification
  // ---------------------------------------------------------------------------

  /** A property is classified Lookup exactly when it is a lookup or its first attribute says so. */
  lemma FieldTypeIsLookupExactly(p: Property)
    ensures GetFieldType(p) == Lookup <==> PropertyIsLookup(p) || GetFieldTypeFromAttribute(p) == Some(Lookup)
  {
  }

  /** Outside lookups, the first attribute in the fixed order that the property carries decides. */
  lemma FirstAttributeDecides(p: Property, k: nat)
    requires !PropertyIsLookup(p)
    requires k < |AttributeOrder| && AttributeOrder[k] in p.attributes
    requires forall j | 0 <= j < k :: AttributeOrder[j] !in p.attributes
    ensures GetFieldType(p) == AssociatedFieldType(AttributeOrder[k])
  {
  }

  /** An attribute the property does not carry can be left out of the chain. */
  lemma {:induction false} AbsentAttributeIsSkipped(
    attributes: set<FieldAttribute>, before: seq<FieldAttribute>, a: FieldAttribute, after: seq<FieldAttribute>)
    requires a !in attributes
    ensures FirstAttributeFieldType(attributes, before + [a] + after) == FirstAttributeFieldType(attributes, before + after)
  {
    if before == [] {
      assert before + [a] + after == [a] + after;
      assert before + after == after;
      assert ([a] + after)[0] == a;
      assert ([a] + after)[1..] == after;
    } else {
      AbsentAttributeIsSkipped(attributes, before[1..], a, after);
      assert (before + [a] + after)[1..] == before[1..] + [a] + after;
      assert (before + after)[1..] == before[1..] + after;
    }
  }

  /**
   * The LookupBaseAttribute entry of the attribute chain is never reached: a
   * property carrying it is a lookup and is classified before the chain runs,
   * and for every other property the chain without that entry agrees.
   */
  lemma LookupBaseEntryNeverDecides(p: Property)
    ensures AttributeOrder[4] == LookupBaseAttribute
    ensures LookupBaseAttribute in p.attributes ==> GetFieldType(p) == Lookup
    ensures !PropertyIsLookup(p) ==>
      GetFieldType(p) == GetFieldTypeOrDefault(p, FirstAttributeFieldType(p.attributes, AttributeOrder[..4] + AttributeOrder[5..]))
  {
    if !PropertyIsLookup(p) {
      assert AttributeOrder == AttributeOrder[..4] + [LookupBaseAttribute] + AttributeOrder[5..];
      AbsentAttributeIsSkipped(p.attributes, AttributeOrder[..4], LookupBaseAttribute, AttributeOrder[5..]);
    }
  }

  /** Without a lookup or a field attribute, an enum (also nullable or as array elements) is a Choice. */
  lemma EnumIsChoice(p: Property)
    requires !PropertyIsLookup(p)
    requires forall a | a in AttributeOrder :: a !in p.attributes
    requires UnwrapNullableAndArray(p.propertyType).EnumOf?
    ensures GetFieldType(p) == Choice
  {
  }

  /**
   * Invalid comes only from an unsupported type, or from an attribute whose
   * associated field type is Invalid.
   */
  lemma InvalidExactlyWhenUnsupported(p: Property)
    ensures GetFieldType(p) == Invalid <==>
      && !PropertyIsLookup(p)
      && var t := UnwrapNullableAndArray(p.propertyType);
         || GetFieldTypeFromAttribute(p) == Some(Invalid)
         || (&& GetFieldTypeFromAttribute(p).None?
             && !t.EnumOf?
             && TypeCodeOf(t) in {Empty, Object, DBNull})
  {
  }

  /** The primitive kinds, checked through the Nullable and array unwrapping. */
  lemma PrimitiveKinds(p: Property)
    requires !PropertyIsLookup(p)
    requires GetFieldTypeFromAttribute(p).None?
    requires UnwrapNullableAndArray(p.propertyType).Builtin?
    ensures var c := UnwrapNullableAndArray(p.propertyType).code;
      && (GetFieldType(p) == Number <==> IsNumericTypeCode(c))
      && (GetFieldType(p) == FieldType.Boolean <==> c == TypeCode.Boolean)
      && (GetFieldType(p) == Text <==> c == TypeCode.String || c == Char)
      && (GetFieldType(p) == FieldType.DateTime <==> c == TypeCode.DateTime)
  {
  }

  // ---------------------------------------------------------------------------
  // Dictionaries and enums
  // ---------------------------------------------------------------------------

  lemma {:induction false} GetFindsEntry(d: Dictionary, i: nat)
    requires Distinct(d.Keys())
    requires i < |d.entries|
    ensures d.Get(d.entries[i].0) == Some(d.entries[i].1)
    decreases i
  {
    if i > 0 {
      var tail := Dictionary(d.entries[1..]);
      assert d.Keys()[0] != d.Keys()[i];
      assert tail.Keys() == d.Keys()[1..];
      GetFindsEntry(tail, i - 1);
    }
  }

  lemma {:induction false} GetMissesAbsentKey(d: Dictionary, key: int)
    requires key !in d.Keys()
    ensures d.Get(key) == None
    decreases |d.entries|
  {
    if d.entries != [] {
      var tail := Dictionary(d.entries[1..]);
      assert d.Keys()[0] == d.entries[0].0;
      assert tail.Keys() == d.Keys()[1..];
      GetMissesAbsentKey(tail, key);
    }
  }

  /**
   * The dictionary built from distinct lookup values enumerates their ids in
   * input order and maps each id to its label, and holds no other key.
   */
  lemma DictionaryMapsEachIdToItsLabel(lookups: seq<FieldLookupValue>, key: int)
    requires Distinct(LookupIds(lookups))
    ensures ToDictionary(lookups).Ok?
    ensures ToDictionary(lookups).value.Keys() == LookupIds(lookups)
    ensures key !in LookupIds(lookups) ==> ToDictionary(lookups).value.Get(key) == None
    ensures forall i | 0 <= i < |lookups| && lookups[i].lookupId == key ::
      ToDictionary(lookups).value.Get(key) == Some(lookups[i].lookupValue)
  {
    var d := ToDictionary(lookups).value;
    assert d.Keys() == LookupIds(lookups);
    if key !in LookupIds(lookups) {
      GetMissesAbsentKey(d, key);
    }
    forall i | 0 <= i < |lookups| && lookups[i].lookupId == key
      ensures d.Get(key) == Some(lookups[i].lookupValue)
    {
      GetFindsEntry(d, i);
    }
  }

  /** Enum.GetName and Enum.Parse invert each other on the members of an enum. */
  lemma EnumNameAndParseInvert(names: seq<string>, ordinal: int, s: string)
    requires Distinct(names)
    ensures 0 <= ordinal < |names| ==> ParseEnum(names, EnumName(names, ordinal).value) == Ok(ordinal)
    ensures ParseEnum(names, s).Ok? ==> EnumName(names, ParseEnum(names, s).value) == Some(s)
  {
  }

  // ---------------------------------------------------------------------------
  // Round trips: SharePoint item value -> entity property value -> item value
  // ---------------------------------------------------------------------------

  /** A single lookup through KeyValuePair<int, string> keeps its id and loses its label. */
  method RoundTripKeyValuePair(p: Property, lookup: FieldLookupValue) returns (back: Result<Value>)
    requires p.propertyType == KeyValuePairIntString
    ensures back == Ok(LookupV(FieldLookupValue(lookup.lookupId, None)))
  {
    var local := GetItemValueForProperty(p, LookupV(lookup));
    back := GetPropertyValueForItem(p, local.value);
  }

  /** A single lookup through a linked entity keeps its id and loses its label. */
  method RoundTripEntity(p: Property, lookup: FieldLookupValue) returns (back: Result<Value>)
    requires HasIdMember(p.propertyType)
    ensures back == Ok(LookupV(FieldLookupValue(lookup.lookupId, None)))
  {
    var local := GetItemValueForProperty(p, LookupV(lookup));
    back := GetPropertyValueForItem(p, local.value);
  }

  /** A multi lookup through Dictionary<int, string> keeps its ids, in order, and loses its labels. */
  method RoundTripDictionary(p: Property, lookups: seq<FieldLookupValue>) returns (back: Result<Value>)
    requires p.propertyType == DictionaryIntString
    requires Distinct(LookupIds(lookups))
    ensures back.Ok? && back.value.LookupArrayV?
    ensures LookupIds(back.value.lookups) == LookupIds(lookups)
    ensures forall i | 0 <= i < |back.value.lookups| :: back.value.lookups[i].lookupValue == None
  {
    DictionaryMapsEachIdToItsLabel(lookups, 0);
    var local := GetItemValueForProperty(p, LookupArrayV(lookups));
    back := GetPropertyValueForItem(p, local.value);
  }

  /**
   * A multi lookup through an array of linked entities: every slot holds the one
   * shared instance, so every id that comes back is the id of the last lookup
   * value, and any other id is lost.
   */
  method RoundTripEntityArray(p: Property, lookups: seq<FieldLookupValue>) returns (back: Result<Value>)
    requires p.propertyType.ArrayOf? && HasIdMember(p.propertyType.elem)
    ensures back.Ok? && back.value.LookupArrayV?
    ensures |back.value.lookups| == |lookups|
    ensures forall i | 0 <= i < |lookups| ::
      back.value.lookups[i] == FieldLookupValue(lookups[|lookups| - 1].lookupId, None)
    ensures (exists i | 0 <= i < |lookups| :: lookups[i].lookupId != lookups[|lookups| - 1].lookupId) ==>
      LookupIds(back.value.lookups) != LookupIds(lookups)
  {
    var local := GetItemValueForProperty(p, LookupArrayV(lookups));
    back := GetPropertyValueForItem(p, local.value);
    if exists i | 0 <= i < |lookups| :: lookups[i].lookupId != lookups[|lookups| - 1].lookupId {
      var i :| 0 <= i < |lookups| && lookups[i].lookupId != lookups[|lookups| - 1].lookupId;
      assert LookupIds(back.value.lookups)[i] != LookupIds(lookups)[i];
    }
  }

  /** An enum member goes out as its name and comes back as the same member. */
  method RoundTripEnum(p: Property, ordinal: int) returns (name: Result<Value>, local: Result<Value>)
    requires !PropertyIsLookup(p) && p.propertyType.EnumOf?
    requires Distinct(p.propertyType.names)
    requires 0 <= ordinal < |p.propertyType.names|
    ensures name == Ok(StrV(p.propertyType.names[ordinal]))
    ensures local == Ok(EnumV(ordinal))
  {
    name := GetPropertyValueForItem(p, EnumV(ordinal));
    EnumNameAndParseInvert(p.propertyType.names, ordinal, "");
    local := GetItemValueForProperty(p, name.value);
  }

  /** A property that is neither a lookup nor an enum passes values through in both directions. */
  method PassThroughBothWays(p: Property, v: Value) returns (local: Result<Value>, back: Result<Value>)
    requires !PropertyIsLookup(p) && !p.propertyType.EnumOf?
    ensures local == Ok(v) && back == Ok(v)
  {
    local := GetItemValueForProperty(p, v);
    back := GetPropertyValueForItem(p, v);
  }

  // ---------------------------------------------------------------------------
  // Worked examples
  // ---------------------------------------------------------------------------

  /** A single lookup loses "Id"; a property that is no lookup keeps its name. */
  method SingleLookupNameExample() returns (single: string, plain: string)
    ensures single == "Manager"
    ensures plain == "ValidId"
  {
    single := GetInternalNameFromProperty(Property("ManagerId", IntType, {LookupBaseAttribute}));
    assert single == (single + "Id")[..|single|];
    plain := GetInternalNameFromProperty(Property("ValidId", IntType, {}));
  }

  /** A multi lookup over an array loses SuffixIds. */
  method MultiLookupNameExample() returns (multi: string)
    ensures multi == "Employees"
  {
    var name := "Employees" + SuffixIds;
    assert name[|name| - |SuffixIds|..] == SuffixIds;
    multi := GetInternalNameFromProperty(Property(name, ArrayOf(Complex(true, true, None)), {}));
    assert multi == (multi + SuffixIds)[..|multi|];
  }

  /** The suffix is removed once only. */
  method SuffixRemovedOnceExample() returns (once: Option<string>)
    ensures once == Some("Id")
  {
    assert EndsWith("IdId", "Id") by { assert "IdId"[2..] == "Id"; }
    once := RemoveSuffixFromName(Some("IdId"), "Id");
    assert once.value + "Id" == "IdId";
    assert once.value == "IdId"[..2];
    assert "IdId"[..2] == "Id";
  }

  /**
   * A lookup to a class carrying an InternalNameAttribute takes the class's
   * name, not the property's.
   */
  method NameFromLinkedTypeExample() returns (fromType: string)
    ensures fromType == "Employee"
  {
    fromType := GetInternalNameFromProperty(Property("ManagerId", Complex(true, true, Some("Employee")), {}));
    assert !EndsWith("Employee", "Id");
  }

  /**
   * Item values: the lookup {42, "Jane"} read into an int, a string and a
   * KeyValuePair property, and the lookups [{1, "A"}, {2, "B"}] read into an
   * array of linked entities, whose two slots are one instance with Id 2.
   */
  method ItemValueExamples() returns (asInt: Result<Value>, asString: Result<Value>, asPair: Result<Value>, tags: Result<Value>)
    ensures asInt == Ok(IntV(42))
    ensures asString == Ok(StrV("Jane"))
    ensures asPair == Ok(KeyValuePairV(42, Some("Jane")))
    ensures tags.Ok? && tags.value.EntityArrayV? && tags.value.entities.Length == 2
    ensures tags.value.entities[0] == tags.value.entities[1]
    ensures tags.value.entities[0] != null && tags.value.entities[0].id == 2 && tags.value.entities[0].title == Some("B")
  {
    var jane := LookupV(FieldLookupValue(42, Some("Jane")));
    asInt := GetItemValueForProperty(Property("ManagerId", IntType, {LookupBaseAttribute}), jane);
    asString := GetItemValueForProperty(Property("Manager", StringType, {LookupBaseAttribute}), jane);
    asPair := GetItemValueForProperty(Property("Manager", KeyValuePairIntString, {}), jane);
    var lookups := [FieldLookupValue(1, Some("A")), FieldLookupValue(2, Some("B"))];
    tags := GetItemValueForProperty(Property("Tags", ArrayOf(Complex(true, true, None)), {}), LookupArrayV(lookups));
  }
}
