/**
 * The data the entity helper works on, with the .NET reflection replaced by
 * explicit descriptors: a property is a name, a type descriptor and the set of
 * field attributes it carries; a value is one of the shapes the helper casts
 * between; a linked entity is a heap object whose Id and Title are updated in
 * place.
 */
module EntityModel {

  datatype Option<T> = None | Some(value: T)

  /** The exceptions the helper lets escape, as error results. */
  datatype Error =
    | NullReference   // a member of a null reference is used
    | InvalidCast     // a cast or unboxing to the wrong shape
    | DuplicateKey    // ToDictionary meets the same key twice
    | ArgumentNull    // a framework call receives null
    | EnumParse       // Enum.Parse finds no member of that name

  datatype Result<T> = Ok(value: T) | Err(error: Error)

  /** System.TypeCode, as returned by Type.GetTypeCode. */
  datatype TypeCode =
    | Empty | Object | DBNull | Boolean | Char
    | SByte | Byte | Int16 | UInt16 | Int32 | UInt32 | Int64 | UInt64
    | Single | Double | Decimal | DateTime | String

  /**
   * A property's declared type, as far as the helper inspects it.
   * Builtin(code) is a non-enum framework type identified by its type code
   * (Builtin(Int32) is int, Builtin(String) is string, Builtin(Object) any other
   * framework class). Complex is a user class: hasId and hasTitle say whether it
   * declares a public member named by the constants SuffixId and Title, and
   * internalName is the InternalNameAttribute on the class, if any.
   * The members of an enumeration are its names in declaration order; the
   * member with ordinal k is names[k].
   */
  datatype TypeDesc =
    | KeyValuePairIntString                 // KeyValuePair<int, string>
    | DictionaryIntString                   // Dictionary<int, string>
    | ArrayOf(elem: TypeDesc)               // elem[]
    | NullableOf(inner: TypeDesc)           // Nullable<inner>
    | EnumOf(names: seq<string>)
    | Builtin(code: TypeCode)
    | Complex(hasId: bool, hasTitle: bool, internalName: Option<string>)

  const IntType: TypeDesc := Builtin(Int32)
  const StringType: TypeDesc := Builtin(String)

  /** Microsoft.SharePoint.Client.FieldType, restricted to the values this helper meets. */
  datatype FieldType =
    | Invalid | Text | Note | Number | Boolean | DateTime | Choice
    | Currency | Lookup | ManagedMetadata | Url | User

  /** The field attributes that may decorate a property (own or inherited). */
  datatype FieldAttribute =
    | BooleanAttribute | ChoiceAttribute | CurrencyAttribute | DateTimeAttribute
    | LookupBaseAttribute | ManagedMetadataAttribute | NoteAttribute
    | NumberAttribute | TextAttribute | UrlAttribute | UserAttribute

  /**
   * The AssociatedFieldType constant each attribute class declares. The attribute
   * classes are not part of this model, so the mapping is left unspecified: every
   * property proved below holds whatever the constants are.
   */
  const AssociatedFieldType: FieldAttribute -> FieldType

  /** The member-name suffix of a single lookup; it is also the name of the Id member. */
  const SuffixId: string := "Id"

  /** The member-name suffix of a multi lookup; its text is not part of this model. */
  const SuffixIds: string

  /** A PropertyInfo: its name, its declared type and the field attributes on it. */
  datatype Property = Property(name: string, propertyType: TypeDesc, attributes: set<FieldAttribute>)

  /** FieldLookupValue: the id of the referenced row and its (nullable) label. */
  datatype FieldLookupValue = FieldLookupValue(lookupId: int, lookupValue: Option<string>)

  predicate Distinct<T(==)>(s: seq<T>) {
    forall i, j | 0 <= i < j < |s| :: s[i] != s[j]
  }

  /** The ids of a sequence of lookup values, in order (Select(q => q.LookupId)). */
  function LookupIds(lookups: seq<FieldLookupValue>): seq<int> {
    seq(|lookups|, i requires 0 <= i < |lookups| => lookups[i].lookupId)
  }

  /**
   * Dictionary<int, string> as its entries in enumeration order, whatever that
   * order is for the dictionary at hand.
   */
  datatype Dictionary = Dictionary(entries: seq<(int, Option<string>)>) {

    function Keys(): seq<int> {
      seq(|entries|, i requires 0 <= i < |entries| => entries[i].0)
    }

    predicate ContainsKey(key: int) {
      key in Keys()
    }

    /** The label stored under key, or None when there is no such entry. */
    function Get(key: int): Option<Option<string>>
      decreases |entries|
    {
      if entries == [] then None
      else if entries[0].0 == key then Some(entries[0].1)
      else Dictionary(entries[1..]).Get(key)
    }
  }

  /**
   * A linked entity: an instance of a Complex type. Its Id and (when the type has
   * one) its Title member are set in place through reflection.
   */
  class Entity {
    const hasTitle: bool
    var id: int
    var title: Option<string>

    /** Activator.CreateInstance: members start at their defaults. */
    constructor (hasTitle: bool)
      ensures this.hasTitle == hasTitle && id == 0 && title == None
    {
      this.hasTitle := hasTitle;
      id := 0;
      title := None;
    }
  }

  /** A boxed value: what an item field holds, or what an entity property holds. */
  datatype Value =
    | Null
    | BoolV(b: bool)
    | IntV(i: int)
    | StrV(s: string)
    | EnumV(ordinal: int)
    | LookupV(lookup: FieldLookupValue)              // FieldLookupValue
    | LookupArrayV(lookups: seq<FieldLookupValue>)   // FieldLookupValue[]
    | KeyValuePairV(key: int, text: Option<string>)  // KeyValuePair<int, string>
    | DictionaryV(dict: Dictionary)                  // Dictionary<int, string>
    | IntArrayV(ints: seq<int>)                      // int[]
    | EntityV(entity: Entity)                        // an instance of a Complex type
    | EntityArrayV(entities: array<Entity?>)         // an array of a Complex type
    | OtherV(tag: int)                               // any value the helper never inspects

  /** A nullable string as a boxed value. */
  function StringValue(s: Option<string>): Value {
    match s
    case None => Null
    case Some(t) => StrV(t)
  }

  /** itemValue.GetType().IsArray */
  predicate IsArrayValue(v: Value) {
    v.LookupArrayV? || v.IntArrayV? || v.EntityArrayV?
  }
}
