/** JSON schemas, what they accept, and their rewriting into strict form. */
module StrictSchema {
  import opened Wrappers
  import opened Basics
  import opened JsonValues

  // ----- schemas -----

  datatype Types = AnyType | One(name: string) | Many(names: seq<string>) | OddType

  datatype Items = NoItems | Each(schema: Schema) | Tuple

  datatype Union = NoUnion | AnyOf(variants: seq<Schema>) | OddUnion

  datatype Property = Property(name: string, schema: Schema)

  datatype Properties = NoProperties | Declared(list: seq<Property>) | OddProperties

  datatype Required = NoRequired | Names(list: seq<string>) | OddRequired

  datatype Additional = Unstated | Closed | Open

  /** A schema, keyword by keyword; `Odd` stands for a keyword with an unusable value. */
  datatype Schema =
    | Boolean(accept: bool)
    | Node(
        types: Types,
        constant: Option<Scalar>,
        enumeration: Option<seq<Scalar>>,
        anyOf: Union,
        items: Items,
        properties: Properties,
        required: Required,
        additional: Additional,
        unsupported: bool)

  const NULL_SCHEMA := Node(One("null"), None, None, NoUnion, NoItems, NoProperties, NoRequired, Unstated, false)

  function Nullable(s: Schema): Schema {
    Node(AnyType, None, None, AnyOf([s, NULL_SCHEMA]), NoItems, NoProperties, NoRequired, Unstated, false)
  }

  function ListOf(s: Schema): seq<Property>
    requires s.Node?
  {
    if s.properties.Declared? then s.properties.list else []
  }

  function RequiredOf(s: Schema): seq<string>
    requires s.Node?
  {
    if s.required.Names? then s.required.list else []
  }

  function NamesOf(list: seq<Property>): seq<string> {
    seq(|list|, i requires 0 <= i < |list| => list[i].name)
  }

  // ----- what a schema accepts -----

  predicate HasType(name: string, v: Json) {
    match v
    case Array(_) => name == "array"
    case Object(_) => name == "object"
    case Plain(Null) => name == "null"
    case Plain(Bool(_)) => name == "boolean"
    case Plain(String(_)) => name == "string"
    case Plain(Number(n)) => name == "number" || (name == "integer" && n == n.Floor as real)
  }

  predicate TypeAccepts(types: Types, v: Json) {
    match types
    case One(name) => HasType(name, v)
    case Many(names) => exists name <- names :: HasType(name, v)
    case _ => true
  }

  /** The keywords that look at the value as a whole. */
  predicate ValueAccepts(s: Schema, v: Json)
    requires s.Node?
  {
    && TypeAccepts(s.types, v)
    && (s.constant.Some? ==> v == Plain(s.constant.value))
    && (s.enumeration.Some? ==> v.Plain? && v.scalar in s.enumeration.value)
  }

  /** The keywords that look at the names of an object. */
  predicate KeysAccepted(s: Schema, keys: set<string>)
    requires s.Node?
  {
    && (forall name <- RequiredOf(s) :: name in keys)
    && (s.additional.Closed? ==> forall key <- keys :: key in NamesOf(ListOf(s)))
  }

  predicate Valid(s: Schema, v: Json)
    decreases s
  {
    match s
    case Boolean(accept) => accept
    case Node(_, _, _, anyOf, items, properties, _, _, _) =>
      && ValueAccepts(s, v)
      && (anyOf.AnyOf? ==> exists variant <- anyOf.variants :: Valid(variant, v))
      && (v.Array? && items.Each? ==> forall item <- v.items :: Valid(items.schema, item))
      && (v.Object? ==>
            && KeysAccepted(s, v.fields.Keys)
            && (properties.Declared? ==>
                  forall p <- properties.list ::
                    p.name in v.fields ==> Valid(p.schema, v.fields[p.name])))
  }

  // ----- the rewriting -----

  datatype Refusal =
    | BooleanSchema | UnsupportedKeyword | EmptyUnion | StructuredUnion | TupleItems
    | PropertiesWithoutObject | OpenObject | BadProperties | BadRequired
    | DuplicateRequired | UnknownRequired | RootNotObject

  predicate Structured(s: Schema) {
    && s.Node?
    && (|| (s.types.One? && (s.types.name == "object" || s.types.name == "array"))
        || (s.types.Many? && ("object" in s.types.names || "array" in s.types.names))
        || !s.properties.NoProperties?
        || !s.items.NoItems?)
  }

  predicate AllowsNull(s: Schema)
    decreases s
  {
    && s.Node?
    && (|| s.types == One("null") || (s.types.Many? && "null" in s.types.names)
        || s.constant == Some(Null) || (s.enumeration.Some? && Null in s.enumeration.value)
        || (s.anyOf.AnyOf? && exists variant <- s.anyOf.variants :: AllowsNull(variant)))
  }

  /** The checks of an object's own keywords, before its properties are visited. */
  function ObjectRefusal(s: Schema): Option<Refusal>
    requires s.Node?
  {
    if s.additional.Open? then Some(OpenObject)
    else if s.properties.OddProperties? then Some(BadProperties)
    else if s.required.OddRequired? then Some(BadRequired)
    else if !Distinct(RequiredOf(s)) then Some(DuplicateRequired)
    else if exists name <- RequiredOf(s) :: name !in NamesOf(ListOf(s)) then Some(UnknownRequired)
    else None
  }

  function MakeStrict(s: Schema): Result<Schema, Refusal>
    decreases s, 1
  {
    if s.Boolean? then Err(BooleanSchema)
    else if s.unsupported then Err(UnsupportedKeyword)
    else
      match StrictUnion(s.anyOf)
      case Err(e) => Err(e)
      case Ok(anyOf) =>
        match StrictItems(s.items)
        case Err(e) => Err(e)
        case Ok(items) =>
          var t := s.(anyOf := anyOf, items := items);
          if s.types != One("object") then
            if s.properties.NoProperties? then Ok(t) else Err(PropertiesWithoutObject)
          else if ObjectRefusal(s).Some? then Err(ObjectRefusal(s).value)
          else
            match StrictDeclared(s.properties, RequiredOf(s))
            case Err(e) => Err(e)
            case Ok(properties) =>
              Ok(t.(properties := properties, required := Names(NamesOf(ListOf(s))), additional := Closed))
  }

  function StrictUnion(anyOf: Union): Result<Union, Refusal>
    decreases anyOf, 1
  {
    match anyOf
    case NoUnion => Ok(NoUnion)
    case OddUnion => Err(EmptyUnion)
    case AnyOf(variants) =>
      if variants == [] then Err(EmptyUnion)
      else
        match StrictVariants(variants)
        case Err(e) => Err(e)
        case Ok(strict) => Ok(AnyOf(strict))
  }

  function StrictVariants(variants: seq<Schema>): Result<seq<Schema>, Refusal>
    decreases variants, 0
  {
    if variants == [] then Ok([])
    else if Structured(variants[0]) then Err(StructuredUnion)
    else
      match MakeStrict(variants[0])
      case Err(e) => Err(e)
      case Ok(first) =>
        match StrictVariants(variants[1..])
        case Err(e) => Err(e)
        case Ok(rest) => Ok([first] + rest)
  }

  function StrictItems(items: Items): Result<Items, Refusal>
    decreases items, 1
  {
    match items
    case NoItems => Ok(NoItems)
    case Tuple => Err(TupleItems)
    case Each(schema) =>
      match MakeStrict(schema)
      case Err(e) => Err(e)
      case Ok(strict) => Ok(Each(strict))
  }

  /** A property that was optional and does not allow null becomes nullable. */
  function StrictProperty(required: seq<string>, name: string, strict: Schema): Property {
    Property(name, if name !in required && !AllowsNull(strict) then Nullable(strict) else strict)
  }

  function StrictDeclared(properties: Properties, required: seq<string>): Result<Properties, Refusal>
    decreases properties, 1
  {
    if !properties.Declared? then Ok(properties)
    else
      match StrictProperties(properties.list, required)
      case Err(e) => Err(e)
      case Ok(list) => Ok(Declared(list))
  }

  function StrictProperties(list: seq<Property>, required: seq<string>): Result<seq<Property>, Refusal>
    decreases list, 0
  {
    if list == [] then Ok([])
    else
      match MakeStrict(list[0].schema)
      case Err(e) => Err(e)
      case Ok(strict) =>
        match StrictProperties(list[1..], required)
        case Err(e) => Err(e)
        case Ok(rest) => Ok([StrictProperty(required, list[0].name, strict)] + rest)
  }

  function StrictRoot(s: Schema): Result<Schema, Refusal> {
    match MakeStrict(s)
    case Err(e) => Err(e)
    case Ok(t) => if t.types == One("object") then Ok(t) else Err(RootNotObject)
  }
}
