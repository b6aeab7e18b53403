/**
 * What rewriting a schema into strict form does to its meaning: strict instances give
 * original instances by dropping nulls, original instances give strict ones by filling
 * them in, and the exact conditions under which this holds.
 */
module StrictSchemaMeaning {
  import opened Wrappers
  import opened Basics
  import opened JsonValues
  import opened StrictSchema

  /** Property names are distinct, as the keys of any object are. */
  ghost predicate WellFormed(s: Schema)
    decreases s
  {
    s.Node? ==>
      && (s.items.Each? ==> WellFormed(s.items.schema))
      && (s.anyOf.AnyOf? ==> forall variant <- s.anyOf.variants :: WellFormed(variant))
      && (s.properties.Declared? ==>
            && Distinct(NamesOf(s.properties.list))
            && forall p <- s.properties.list :: WellFormed(p.schema))
  }

  // ----- the shape of the result -----

  /** A schema that is not structured is returned as it was. */
  lemma {:induction false} UnstructuredUnchanged(s: Schema)
    requires MakeStrict(s).Ok? && !Structured(s)
    ensures MakeStrict(s) == Ok(s)
    decreases s, 1
  {
    if s.anyOf.AnyOf? {
      VariantsUnchanged(s.anyOf.variants);
    }
  }

  lemma {:induction false} VariantsUnchanged(variants: seq<Schema>)
    requires StrictVariants(variants).Ok?
    ensures StrictVariants(variants) == Ok(variants)
    ensures forall variant <- variants :: !Structured(variant) && MakeStrict(variant) == Ok(variant)
    decreases variants, 0
  {
    if variants != [] {
      UnstructuredUnchanged(variants[0]);
      VariantsUnchanged(variants[1..]);
      assert [variants[0]] + variants[1..] == variants;
    }
  }

  lemma {:induction false} StrictPropertiesAt(list: seq<Property>, required: seq<string>)
    requires StrictProperties(list, required).Ok?
    ensures var strict := StrictProperties(list, required).value;
            |strict| == |list| &&
            forall i :: 0 <= i < |list| ==>
              && MakeStrict(list[i].schema).Ok?
              && strict[i] == StrictProperty(required, list[i].name, MakeStrict(list[i].schema).value)
  {
    if list != [] {
      StrictPropertiesAt(list[1..], required);
    }
  }

  /** What is known of an accepted schema and of its strict form. */
  ghost predicate Strictened(s: Schema, t: Schema) {
    && s.Node? && t.Node?
    && t.types == s.types && t.constant == s.constant && t.enumeration == s.enumeration
    && t.anyOf == s.anyOf
    && (s.anyOf.AnyOf? ==>
          forall variant <- s.anyOf.variants :: !Structured(variant) && MakeStrict(variant) == Ok(variant))
    && (s.items.Each? ==> t.items.Each? && MakeStrict(s.items.schema) == Ok(t.items.schema))
    && (!s.items.Each? ==> t.items == NoItems)
    && (s.types != One("object") ==>
          s.properties.NoProperties? && t.properties == s.properties && t.required == s.required &&
          t.additional == s.additional)
    && (s.types == One("object") ==>
          && ObjectRefusal(s).None?
          && t.properties.Declared? == s.properties.Declared?
          && t.required == Names(NamesOf(ListOf(s))) && t.additional == Closed
          && |ListOf(t)| == |ListOf(s)|
          && forall i :: 0 <= i < |ListOf(s)| ==>
               && MakeStrict(ListOf(s)[i].schema).Ok?
               && ListOf(t)[i] ==
                  StrictProperty(RequiredOf(s), ListOf(s)[i].name, MakeStrict(ListOf(s)[i].schema).value))
  }

  lemma StrictForm(s: Schema, t: Schema)
    requires MakeStrict(s) == Ok(t)
    ensures Strictened(s, t)
  {
    if s.anyOf.AnyOf? {
      VariantsUnchanged(s.anyOf.variants);
    }
    if s.types == One("object") && s.properties.Declared? {
      StrictPropertiesAt(s.properties.list, RequiredOf(s));
    }
  }

  /** Whether null is allowed does not change. */
  lemma AllowsNullKept(s: Schema, t: Schema)
    requires MakeStrict(s) == Ok(t)
    ensures AllowsNull(t) == AllowsNull(s)
  {
    StrictForm(s, t);
  }

  // ----- dropping nulls and filling them in -----

  function PropertyAt(list: seq<Property>, name: string): (i: nat)
    ensures i <= |list|
    ensures i < |list| ==> list[i].name == name
    ensures forall j :: 0 <= j < i ==> list[j].name != name
  {
    if list == [] || list[0].name == name then 0 else 1 + PropertyAt(list[1..], name)
  }

  predicate IsObjectType(s: Schema) {
    s.Node? && s.types == One("object")
  }

  /** Optional in the original and not allowing null: these become nullable. */
  predicate Widened(s: Schema, p: Property)
    requires s.Node?
  {
    p.name !in RequiredOf(s) && !AllowsNull(p.schema)
  }

  predicate DroppedAt(s: Schema, name: string, v: Json)
    requires s.Node?
  {
    var i := PropertyAt(ListOf(s), name);
    i < |ListOf(s)| && Widened(s, ListOf(s)[i]) && v == NULL
  }

  /** The names left after dropping. */
  function KeptNames(s: Schema, fields: map<string, Json>): set<string>
    requires s.Node?
  {
    set name | name in fields && !DroppedAt(s, name, fields[name])
  }

  /** Drops the nulls of formerly optional, non-null-allowing properties, at every depth. */
  function Drop(s: Schema, v: Json): Json
    decreases s
  {
    if s.Node? && v.Array? && s.items.Each? then
      Array(seq(|v.items|, i requires 0 <= i < |v.items| => Drop(s.items.schema, v.items[i])))
    else if IsObjectType(s) && v.Object? then
      Object(map name | name in KeptNames(s, v.fields) :: DropField(s.properties, name, v.fields[name]))
    else v
  }

  function DropField(properties: Properties, name: string, v: Json): Json
    decreases properties
  {
    if !properties.Declared? then v
    else
      var i := PropertyAt(properties.list, name);
      if i < |properties.list| then Drop(properties.list[i].schema, v) else v
  }

  /** The names there are after filling. */
  function FilledNames(s: Schema, fields: map<string, Json>): set<string>
    requires s.Node?
  {
    fields.Keys + set p <- ListOf(s) | p.name !in RequiredOf(s) :: p.name
  }

  /** Fills missing optional properties with null, at every depth. */
  function Fill(s: Schema, v: Json): Json
    decreases s
  {
    if s.Node? && v.Array? && s.items.Each? then
      Array(seq(|v.items|, i requires 0 <= i < |v.items| => Fill(s.items.schema, v.items[i])))
    else if IsObjectType(s) && v.Object? then
      Object(map name | name in FilledNames(s, v.fields) ::
        if name in v.fields then FillField(s.properties, name, v.fields[name]) else NULL)
    else v
  }

  function FillField(properties: Properties, name: string, v: Json): Json
    decreases properties
  {
    if !properties.Declared? then v
    else
      var i := PropertyAt(properties.list, name);
      if i < |properties.list| then Fill(properties.list[i].schema, v) else v
  }

  // ----- unions see only the names of an object -----

  /** What a variant of a union, not being structured, says of an object. */
  predicate VariantAcceptsNames(s: Schema, names: set<string>)
    decreases s
  {
    match s
    case Boolean(accept) => accept
    case Node(types, constant, enumeration, anyOf, _, _, _, _, _) =>
      && TypeAccepts(types, Object(map[])) && constant.None? && enumeration.None?
      && KeysAccepted(s, names)
      && (anyOf.AnyOf? ==> exists variant <- anyOf.variants :: VariantAcceptsNames(variant, names))
  }

  predicate UnionAcceptsNames(s: Schema, names: set<string>)
    requires s.Node?
  {
    s.anyOf.AnyOf? ==> exists variant <- s.anyOf.variants :: VariantAcceptsNames(variant, names)
  }

  predicate UnionAccepts(s: Schema, v: Json)
    requires s.Node?
  {
    s.anyOf.AnyOf? ==> exists variant <- s.anyOf.variants :: Valid(variant, v)
  }

  lemma {:induction false} VariantOnObject(s: Schema, fields: map<string, Json>)
    requires !Structured(s) && MakeStrict(s).Ok?
    ensures Valid(s, Object(fields)) <==> VariantAcceptsNames(s, fields.Keys)
    decreases s
  {
    UnstructuredUnchanged(s);
    StrictForm(s, s);
    if s.anyOf.AnyOf? {
      forall variant <- s.anyOf.variants
        ensures Valid(variant, Object(fields)) <==> VariantAcceptsNames(variant, fields.Keys)
      {
        VariantOnObject(variant, fields);
      }
    }
  }

  lemma {:induction false} VariantOnArray(s: Schema, a: seq<Json>, b: seq<Json>)
    requires !Structured(s) && MakeStrict(s).Ok?
    ensures Valid(s, Array(a)) <==> Valid(s, Array(b))
    decreases s
  {
    UnstructuredUnchanged(s);
    StrictForm(s, s);
    if s.anyOf.AnyOf? {
      forall variant <- s.anyOf.variants
        ensures Valid(variant, Array(a)) <==> Valid(variant, Array(b))
      {
        VariantOnArray(variant, a, b);
      }
    }
  }

  /** The union of an accepted schema, on an object and on an array. */
  lemma UnionOf(s: Schema, t: Schema, fields: map<string, Json>, a: seq<Json>, b: seq<Json>)
    requires Strictened(s, t)
    ensures UnionAccepts(s, Object(fields)) <==> UnionAcceptsNames(s, fields.Keys)
    ensures UnionAccepts(s, Array(a)) <==> UnionAccepts(s, Array(b))
  {
    if s.anyOf.AnyOf? {
      forall variant <- s.anyOf.variants
        ensures Valid(variant, Object(fields)) <==> VariantAcceptsNames(variant, fields.Keys)
        ensures Valid(variant, Array(a)) <==> Valid(variant, Array(b))
      {
        VariantOnObject(variant, fields);
        VariantOnArray(variant, a, b);
      }
    }
  }

  // ----- the exact conditions -----

  /** Wherever dropping meets an object with a union, the union still accepts its names. */
  predicate DropFits(s: Schema, v: Json)
    decreases s
  {
    if s.Node? && v.Array? && s.items.Each? then forall item <- v.items :: DropFits(s.items.schema, item)
    else if IsObjectType(s) && v.Object? then
      && UnionAcceptsNames(s, KeptNames(s, v.fields))
      && (s.properties.Declared? ==>
            forall p <- s.properties.list ::
              p.name in KeptNames(s, v.fields) ==> DropFits(p.schema, v.fields[p.name]))
    else true
  }

  /**
   * Wherever filling meets an object: its union accepts the filled names, and a property
   * filled in because it allows null does accept null.
   */
  predicate FillFits(s: Schema, v: Json)
    decreases s
  {
    if s.Node? && v.Array? && s.items.Each? then forall item <- v.items :: FillFits(s.items.schema, item)
    else if IsObjectType(s) && v.Object? then
      && UnionAcceptsNames(s, FilledNames(s, v.fields))
      && (s.properties.Declared? ==>
            forall p <- s.properties.list ::
              if p.name in v.fields then FillFits(p.schema, v.fields[p.name])
              else p.name !in RequiredOf(s) && AllowsNull(p.schema) ==> Valid(p.schema, NULL))
    else true
  }

  /** No object holds a property its schema does not declare. */
  predicate OnlyDeclared(s: Schema, v: Json)
    decreases s
  {
    if s.Node? && v.Array? && s.items.Each? then forall item <- v.items :: OnlyDeclared(s.items.schema, item)
    else if IsObjectType(s) && v.Object? then
      && (forall name <- v.fields.Keys :: name in NamesOf(ListOf(s)))
      && (s.properties.Declared? ==>
            forall p <- s.properties.list :: p.name in v.fields ==> OnlyDeclared(p.schema, v.fields[p.name]))
    else true
  }

  // ----- values neither dropping nor filling looks into -----

  predicate Container(s: Schema, v: Json) {
    s.Node? && ((v.Array? && s.items.Each?) || (v.Object? && IsObjectType(s)))
  }

  lemma SameOutside(s: Schema, t: Schema, v: Json)
    requires MakeStrict(s) == Ok(t) && !Container(s, v)
    ensures Valid(s, v) <==> Valid(t, v)
  {
    StrictForm(s, t);
  }

  lemma PropertyFound(list: seq<Property>, i: nat)
    requires i < |list| && Distinct(NamesOf(list))
    ensures PropertyAt(list, list[i].name) == i
  {
    var names := NamesOf(list);
    forall k | 0 <= k < i
      ensures list[k].name != list[i].name
    {
      assert names[k] != names[i];
    }
  }

  lemma ValidNullable(s: Schema, v: Json)
    ensures Valid(Nullable(s), v) <==> Valid(s, v) || v == NULL
  {
    assert Valid(NULL_SCHEMA, v) <==> v == NULL;
    var n := Nullable(s);
    assert n.anyOf.variants[0] == s && n.anyOf.variants[1] == NULL_SCHEMA;
    assert Valid(n, v) <==> exists variant <- n.anyOf.variants :: Valid(variant, v);
  }

  // ----- from strict instances to original ones -----

  lemma {:induction false} DropIff(s: Schema, t: Schema, v: Json)
    requires WellFormed(s) && MakeStrict(s) == Ok(t) && Valid(t, v)
    ensures Valid(s, Drop(s, v)) <==> DropFits(s, v)
    decreases s
  {
    StrictForm(s, t);
    if !Container(s, v) {
      SameOutside(s, t, v);
    } else if v.Array? {
      forall item <- v.items
        ensures Valid(s.items.schema, Drop(s.items.schema, item)) <==> DropFits(s.items.schema, item)
      {
        DropIff(s.items.schema, t.items.schema, item);
      }
      DropArray(s, t, v.items);
    } else {
      forall i | 0 <= i < |ListOf(s)| && ListOf(s)[i].name in KeptNames(s, v.fields)
        ensures var p := ListOf(s)[i];
                Valid(p.schema, Drop(p.schema, v.fields[p.name])) <==> DropFits(p.schema, v.fields[p.name])
      {
        var p := ListOf(s)[i];
        var strict := MakeStrict(p.schema).value;
        KeptIsValid(s, t, v.fields, i);
        DropIff(p.schema, strict, v.fields[p.name]);
      }
      DropObject(s, t, v.fields);
    }
  }

  lemma DropArray(s: Schema, t: Schema, a: seq<Json>)
    requires Strictened(s, t) && s.items.Each? && Valid(t, Array(a))
    requires forall item <- a ::
               Valid(s.items.schema, Drop(s.items.schema, item)) <==> DropFits(s.items.schema, item)
    ensures Valid(s, Drop(s, Array(a))) <==> DropFits(s, Array(a))
  {
    var dropped := Drop(s, Array(a)).items;
    UnionOf(s, t, map[], a, dropped);
    assert forall i :: 0 <= i < |a| ==> dropped[i] == Drop(s.items.schema, a[i]);
    assert (forall item <- dropped :: Valid(s.items.schema, item)) <==>
           (forall item <- a :: DropFits(s.items.schema, item)) by {
      if forall item <- dropped :: Valid(s.items.schema, item) {
        forall item <- a ensures DropFits(s.items.schema, item) {
          var i :| 0 <= i < |a| && a[i] == item;
          assert dropped[i] in dropped;
        }
      }
    }
  }

  /** A value that is not dropped satisfies the strict form of its own schema. */
  lemma KeptIsValid(s: Schema, t: Schema, fields: map<string, Json>, i: nat)
    requires WellFormed(s) && Strictened(s, t) && IsObjectType(s) && Valid(t, Object(fields))
    requires i < |ListOf(s)| && ListOf(s)[i].name in KeptNames(s, fields)
    ensures Valid(MakeStrict(ListOf(s)[i].schema).value, fields[ListOf(s)[i].name])
  {
    var p := ListOf(s)[i];
    var strict := MakeStrict(p.schema).value;
    PropertyFound(ListOf(s), i);
    AllowsNullKept(p.schema, strict);
    assert ListOf(t)[i] in t.properties.list && ListOf(t)[i].name == p.name;
    ValidNullable(strict, fields[p.name]);
  }

  predicate PropertiesValid(list: seq<Property>, fields: map<string, Json>) {
    forall i :: 0 <= i < |list| && list[i].name in fields ==> Valid(list[i].schema, fields[list[i].name])
  }

  lemma ValidObject(s: Schema, fields: map<string, Json>)
    requires IsObjectType(s)
    ensures Valid(s, Object(fields)) <==>
            && s.constant.None? && s.enumeration.None?
            && UnionAccepts(s, Object(fields)) && KeysAccepted(s, fields.Keys)
            && PropertiesValid(ListOf(s), fields)
  {
  }

  predicate PropertiesDropFit(s: Schema, fields: map<string, Json>)
    requires s.Node?
  {
    forall i :: 0 <= i < |ListOf(s)| && ListOf(s)[i].name in KeptNames(s, fields) ==>
      DropFits(ListOf(s)[i].schema, fields[ListOf(s)[i].name])
  }

  lemma DropFitsObject(s: Schema, fields: map<string, Json>)
    requires IsObjectType(s)
    ensures DropFits(s, Object(fields)) <==>
            UnionAcceptsNames(s, KeptNames(s, fields)) && PropertiesDropFit(s, fields)
  {
  }

  /** Dropping removes nothing that is required and adds nothing that is undeclared. */
  lemma KeptNamesAccepted(s: Schema, t: Schema, fields: map<string, Json>)
    requires Strictened(s, t) && IsObjectType(s) && KeysAccepted(t, fields.Keys)
    ensures KeysAccepted(s, KeptNames(s, fields))
  {
    forall name <- RequiredOf(s)
      ensures name in KeptNames(s, fields)
    {
      assert name in NamesOf(ListOf(s));
    }
    assert NamesOf(ListOf(t)) == NamesOf(ListOf(s));
  }

  /** What dropping leaves at each kept property. */
  lemma DroppedFields(s: Schema, fields: map<string, Json>)
    requires WellFormed(s) && IsObjectType(s)
    ensures Drop(s, Object(fields)).Object? && Drop(s, Object(fields)).fields.Keys == KeptNames(s, fields)
    ensures forall i :: 0 <= i < |ListOf(s)| && ListOf(s)[i].name in KeptNames(s, fields) ==>
              var p := ListOf(s)[i];
              Drop(s, Object(fields)).fields[p.name] == Drop(p.schema, fields[p.name])
  {
    forall i | 0 <= i < |ListOf(s)| && ListOf(s)[i].name in KeptNames(s, fields)
      ensures var p := ListOf(s)[i];
              Drop(s, Object(fields)).fields[p.name] == Drop(p.schema, fields[p.name])
    {
      PropertyFound(ListOf(s), i);
    }
  }

  lemma DropObject(s: Schema, t: Schema, fields: map<string, Json>)
    requires WellFormed(s) && Strictened(s, t) && IsObjectType(s) && Valid(t, Object(fields))
    requires forall i :: 0 <= i < |ListOf(s)| && ListOf(s)[i].name in KeptNames(s, fields) ==>
               var p := ListOf(s)[i];
               Valid(p.schema, Drop(p.schema, fields[p.name])) <==> DropFits(p.schema, fields[p.name])
    ensures Valid(s, Drop(s, Object(fields))) <==> DropFits(s, Object(fields))
  {
    DroppedFields(s, fields);
    var dropped := Drop(s, Object(fields)).fields;
    ValidObject(t, fields);
    ValidObject(s, dropped);
    DropFitsObject(s, fields);
    UnionOf(s, t, dropped, [], []);
    KeptNamesAccepted(s, t, fields);
    assert PropertiesValid(ListOf(s), dropped) <==> PropertiesDropFit(s, fields);
  }

  // ----- from original instances to strict ones -----

  lemma {:induction false} FillIff(s: Schema, t: Schema, v: Json)
    requires WellFormed(s) && MakeStrict(s) == Ok(t) && Valid(s, v) && OnlyDeclared(s, v)
    ensures Valid(t, Fill(s, v)) <==> FillFits(s, v)
    decreases s
  {
    StrictForm(s, t);
    if !Container(s, v) {
      SameOutside(s, t, v);
    } else if v.Array? {
      forall item <- v.items
        ensures Valid(t.items.schema, Fill(s.items.schema, item)) <==> FillFits(s.items.schema, item)
      {
        FillIff(s.items.schema, t.items.schema, item);
      }
      FillArray(s, t, v.items);
    } else {
      forall i | 0 <= i < |ListOf(s)| && ListOf(s)[i].name in v.fields
        ensures FillIffAt(ListOf(s)[i], v.fields)
      {
        var p := ListOf(s)[i];
        FillIff(p.schema, MakeStrict(p.schema).value, v.fields[p.name]);
      }
      FillObject(s, t, v.fields);
    }
  }

  lemma FillArray(s: Schema, t: Schema, a: seq<Json>)
    requires Strictened(s, t) && s.items.Each? && Valid(s, Array(a))
    requires forall item <- a ::
               Valid(t.items.schema, Fill(s.items.schema, item)) <==> FillFits(s.items.schema, item)
    ensures Valid(t, Fill(s, Array(a))) <==> FillFits(s, Array(a))
  {
    var filled := Fill(s, Array(a)).items;
    UnionOf(s, t, map[], a, filled);
    assert forall i :: 0 <= i < |a| ==> filled[i] == Fill(s.items.schema, a[i]);
    assert (forall item <- filled :: Valid(t.items.schema, item)) <==>
           (forall item <- a :: FillFits(s.items.schema, item)) by {
      if forall item <- filled :: Valid(t.items.schema, item) {
        forall item <- a ensures FillFits(s.items.schema, item) {
          var i :| 0 <= i < |a| && a[i] == item;
          assert filled[i] in filled;
        }
      }
    }
  }

  predicate PropertyFillFits(s: Schema, p: Property, fields: map<string, Json>)
    requires s.Node?
  {
    if p.name in fields then FillFits(p.schema, fields[p.name])
    else p.name !in RequiredOf(s) && AllowsNull(p.schema) ==> Valid(p.schema, NULL)
  }

  lemma FillFitsObject(s: Schema, fields: map<string, Json>)
    requires IsObjectType(s)
    ensures FillFits(s, Object(fields)) <==>
            && UnionAcceptsNames(s, FilledNames(s, fields))
            && forall i :: 0 <= i < |ListOf(s)| ==> PropertyFillFits(s, ListOf(s)[i], fields)
  {
  }

  /** After filling, the names are exactly the declared ones. */
  lemma FilledNamesAccepted(s: Schema, t: Schema, fields: map<string, Json>)
    requires Strictened(s, t) && IsObjectType(s) && KeysAccepted(s, fields.Keys)
    requires forall name <- fields.Keys :: name in NamesOf(ListOf(s))
    ensures FilledNames(s, fields) == set p <- ListOf(s) :: p.name
    ensures KeysAccepted(t, FilledNames(s, fields))
  {
    assert NamesOf(ListOf(t)) == NamesOf(ListOf(s));
    forall name <- NamesOf(ListOf(s))
      ensures name in FilledNames(s, fields)
    {
      var i :| 0 <= i < |ListOf(s)| && NamesOf(ListOf(s))[i] == name;
      assert ListOf(s)[i] in ListOf(s);
    }
    forall name <- FilledNames(s, fields)
      ensures name in NamesOf(ListOf(s)) && name in set p <- ListOf(s) :: p.name
    {
      if name in fields {
        var i :| 0 <= i < |ListOf(s)| && NamesOf(ListOf(s))[i] == name;
        assert ListOf(s)[i] in ListOf(s);
      } else {
        var p :| p in ListOf(s) && p.name == name;
        var i :| 0 <= i < |ListOf(s)| && ListOf(s)[i] == p;
        assert NamesOf(ListOf(s))[i] == name;
      }
    }
  }

  /** What filling leaves at each declared property. */
  lemma FilledFields(s: Schema, fields: map<string, Json>)
    requires WellFormed(s) && IsObjectType(s)
    ensures Fill(s, Object(fields)).Object? && Fill(s, Object(fields)).fields.Keys == FilledNames(s, fields)
    ensures forall i :: 0 <= i < |ListOf(s)| && ListOf(s)[i].name in FilledNames(s, fields) ==>
              Fill(s, Object(fields)).fields[ListOf(s)[i].name] == FilledAt(ListOf(s)[i], fields)
  {
    forall i | 0 <= i < |ListOf(s)| && ListOf(s)[i].name in FilledNames(s, fields)
      ensures Fill(s, Object(fields)).fields[ListOf(s)[i].name] == FilledAt(ListOf(s)[i], fields)
    {
      PropertyFound(ListOf(s), i);
    }
  }

  function FilledAt(p: Property, fields: map<string, Json>): Json {
    if p.name in fields then Fill(p.schema, fields[p.name]) else NULL
  }

  predicate FillIffAt(p: Property, fields: map<string, Json>)
    requires MakeStrict(p.schema).Ok? && p.name in fields
  {
    Valid(MakeStrict(p.schema).value, Fill(p.schema, fields[p.name])) <==> FillFits(p.schema, fields[p.name])
  }

  /** The filled value of a property against its strict schema. */
  lemma FilledProperty(s: Schema, p: Property, fields: map<string, Json>)
    requires s.Node? && MakeStrict(p.schema).Ok?
    requires forall name <- RequiredOf(s) :: name in fields
    requires p.name in fields ==> FillIffAt(p, fields)
    ensures Valid(StrictProperty(RequiredOf(s), p.name, MakeStrict(p.schema).value).schema, FilledAt(p, fields)) <==>
            PropertyFillFits(s, p, fields)
  {
    var strict, filled := MakeStrict(p.schema).value, FilledAt(p, fields);
    AllowsNullKept(p.schema, strict);
    ValidNullable(strict, filled);
    if p.name in fields {
      assert filled == NULL ==> fields[p.name] == NULL;
    } else {
      SameOutside(p.schema, strict, NULL);
    }
  }

  lemma FillObject(s: Schema, t: Schema, fields: map<string, Json>)
    requires WellFormed(s) && Strictened(s, t) && IsObjectType(s)
    requires Valid(s, Object(fields)) && OnlyDeclared(s, Object(fields))
    requires forall i :: 0 <= i < |ListOf(s)| && ListOf(s)[i].name in fields ==> FillIffAt(ListOf(s)[i], fields)
    ensures Valid(t, Fill(s, Object(fields))) <==> FillFits(s, Object(fields))
  {
    ValidObject(s, fields);
    FilledNamesAccepted(s, t, fields);
    FilledFields(s, fields);
    var filled := Fill(s, Object(fields)).fields;
    forall i | 0 <= i < |ListOf(s)|
      ensures ListOf(t)[i].name in filled
      ensures Valid(ListOf(t)[i].schema, filled[ListOf(t)[i].name]) <==> PropertyFillFits(s, ListOf(s)[i], fields)
    {
      assert ListOf(s)[i] in ListOf(s);
      FilledProperty(s, ListOf(s)[i], fields);
    }
    ValidObject(t, filled);
    FillFitsObject(s, fields);
    UnionOf(s, t, filled, [], []);
    assert PropertiesValid(ListOf(t), filled) <==>
           forall i :: 0 <= i < |ListOf(s)| ==> PropertyFillFits(s, ListOf(s)[i], fields);
  }
}
