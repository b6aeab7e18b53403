/** The main results about strict schemas, and the inputs on which meaning is lost. */
module StrictSchemaTheorems {
  import opened Wrappers
  import opened Basics
  import opened JsonValues
  import opened StrictSchema
  import opened StrictSchemaMeaning

  // ----- which schemas are accepted, and what they become -----

  /** The schemas the rewriting accepts. */
  predicate Supported(s: Schema)
    decreases s
  {
    && s.Node? && !s.unsupported && !s.anyOf.OddUnion? && !s.items.Tuple?
    && (s.anyOf.AnyOf? ==>
          && s.anyOf.variants != []
          && forall variant <- s.anyOf.variants :: !Structured(variant) && Supported(variant))
    && (s.items.Each? ==> Supported(s.items.schema))
    && (s.types != One("object") ==> s.properties.NoProperties?)
    && (s.types == One("object") ==>
          && !s.additional.Open? && !s.properties.OddProperties? && !s.required.OddRequired?
          && Distinct(RequiredOf(s))
          && forall name <- RequiredOf(s) :: name in NamesOf(ListOf(s)))
    && (s.properties.Declared? ==> forall p <- s.properties.list :: Supported(p.schema))
  }

  lemma {:induction false} SupportedVariants(variants: seq<Schema>)
    ensures StrictVariants(variants).Ok? <==>
            forall variant <- variants :: !Structured(variant) && MakeStrict(variant).Ok?
  {
    if variants != [] {
      SupportedVariants(variants[1..]);
      assert variants == [variants[0]] + variants[1..];
    }
  }

  lemma {:induction false} SupportedProperties(list: seq<Property>, required: seq<string>)
    ensures StrictProperties(list, required).Ok? <==> forall p <- list :: MakeStrict(p.schema).Ok?
  {
    if list != [] {
      SupportedProperties(list[1..], required);
      assert list == [list[0]] + list[1..];
    }
  }

  /** The rewriting fails exactly on the schemas that are not supported. */
  lemma {:induction false} AcceptedIffSupported(s: Schema)
    ensures MakeStrict(s).Ok? <==> Supported(s)
    decreases s
  {
    if s.Node? {
      if s.anyOf.AnyOf? {
        forall variant <- s.anyOf.variants ensures MakeStrict(variant).Ok? <==> Supported(variant) {
          AcceptedIffSupported(variant);
        }
        SupportedVariants(s.anyOf.variants);
      }
      if s.items.Each? {
        AcceptedIffSupported(s.items.schema);
      }
      if s.properties.Declared? {
        forall p <- s.properties.list ensures MakeStrict(p.schema).Ok? <==> Supported(p.schema) {
          AcceptedIffSupported(p.schema);
        }
        SupportedProperties(s.properties.list, RequiredOf(s));
      }
    }
  }

  /** Every object requires all its properties and allows no others. */
  predicate StrictShape(t: Schema)
    decreases t
  {
    t.Node? ==>
      && (t.types == One("object") ==> t.required == Names(NamesOf(ListOf(t))) && t.additional == Closed)
      && (t.anyOf.AnyOf? ==> forall variant <- t.anyOf.variants :: StrictShape(variant))
      && (t.items.Each? ==> StrictShape(t.items.schema))
      && (t.properties.Declared? ==> forall p <- t.properties.list :: StrictShape(p.schema))
  }

  lemma NullableShape(t: Schema)
    ensures StrictShape(Nullable(t)) <==> StrictShape(t)
  {
    assert Nullable(t).anyOf.variants == [t, NULL_SCHEMA];
    assert StrictShape(NULL_SCHEMA);
    assert t in Nullable(t).anyOf.variants;
  }

  lemma {:induction false} ResultIsStrict(s: Schema, t: Schema)
    requires MakeStrict(s) == Ok(t)
    ensures StrictShape(t)
    decreases s
  {
    StrictForm(s, t);
    if s.anyOf.AnyOf? {
      forall variant <- s.anyOf.variants ensures StrictShape(variant) {
        ResultIsStrict(variant, variant);
      }
    }
    if s.items.Each? {
      ResultIsStrict(s.items.schema, t.items.schema);
    }
    forall i | 0 <= i < |ListOf(s)| ensures StrictShape(ListOf(t)[i].schema) {
      var strict := MakeStrict(ListOf(s)[i].schema).value;
      ResultIsStrict(ListOf(s)[i].schema, strict);
      NullableShape(strict);
    }
    assert NamesOf(ListOf(t)) == NamesOf(ListOf(s)) by {
      if s.types != One("object") {
        assert ListOf(t) == ListOf(s);
      }
    }
  }

  // ----- schemas that keep their meaning on every instance -----

  /** A variant that says nothing about the names of an object. */
  predicate IgnoresNames(s: Schema)
    decreases s
  {
    s.Node? ==>
      && RequiredOf(s) == [] && !s.additional.Closed?
      && (s.anyOf.AnyOf? ==> forall variant <- s.anyOf.variants :: IgnoresNames(variant))
  }

  /** No union beside an object's properties says anything about their names. */
  predicate UnionsIgnoreNames(s: Schema)
    decreases s
  {
    s.Node? ==>
      && (IsObjectType(s) && s.anyOf.AnyOf? ==> forall variant <- s.anyOf.variants :: IgnoresNames(variant))
      && (s.items.Each? ==> UnionsIgnoreNames(s.items.schema))
      && (s.properties.Declared? ==> forall p <- s.properties.list :: UnionsIgnoreNames(p.schema))
  }

  /** Every optional property that is taken to allow null does accept it. */
  predicate NullsFit(s: Schema)
    decreases s
  {
    s.Node? ==>
      && (s.items.Each? ==> NullsFit(s.items.schema))
      && (s.properties.Declared? ==>
            forall p <- s.properties.list ::
              && NullsFit(p.schema)
              && (p.name !in RequiredOf(s) && AllowsNull(p.schema) ==> Valid(p.schema, NULL)))
  }

  lemma {:induction false} IgnoredNames(s: Schema, a: set<string>, b: set<string>)
    requires IgnoresNames(s)
    ensures VariantAcceptsNames(s, a) <==> VariantAcceptsNames(s, b)
    decreases s
  {
    if s.Node? && s.anyOf.AnyOf? {
      forall variant <- s.anyOf.variants
        ensures VariantAcceptsNames(variant, a) <==> VariantAcceptsNames(variant, b)
      {
        IgnoredNames(variant, a, b);
      }
    }
  }

  lemma UnionIgnoresNames(s: Schema, t: Schema, fields: map<string, Json>, names: set<string>)
    requires Strictened(s, t) && IsObjectType(s) && UnionsIgnoreNames(s) && UnionAccepts(s, Object(fields))
    ensures UnionAcceptsNames(s, names)
  {
    UnionOf(s, t, fields, [], []);
    if s.anyOf.AnyOf? {
      forall variant <- s.anyOf.variants
        ensures VariantAcceptsNames(variant, fields.Keys) <==> VariantAcceptsNames(variant, names)
      {
        IgnoredNames(variant, fields.Keys, names);
      }
    }
  }

  lemma {:induction false} AlwaysDropFits(s: Schema, t: Schema, v: Json)
    requires WellFormed(s) && MakeStrict(s) == Ok(t) && UnionsIgnoreNames(s) && Valid(t, v)
    ensures DropFits(s, v)
    decreases s
  {
    StrictForm(s, t);
    if Container(s, v) {
      if v.Array? {
        forall item <- v.items ensures DropFits(s.items.schema, item) {
          AlwaysDropFits(s.items.schema, t.items.schema, item);
        }
      } else {
        UnionIgnoresNames(s, t, v.fields, KeptNames(s, v.fields));
        forall i | 0 <= i < |ListOf(s)| && ListOf(s)[i].name in KeptNames(s, v.fields)
          ensures DropFits(ListOf(s)[i].schema, v.fields[ListOf(s)[i].name])
        {
          var p := ListOf(s)[i];
          KeptIsValid(s, t, v.fields, i);
          AlwaysDropFits(p.schema, MakeStrict(p.schema).value, v.fields[p.name]);
        }
        DropFitsObject(s, v.fields);
      }
    }
  }

  lemma {:induction false} AlwaysFillFits(s: Schema, t: Schema, v: Json)
    requires MakeStrict(s) == Ok(t) && UnionsIgnoreNames(s) && NullsFit(s) && Valid(s, v)
    ensures FillFits(s, v)
    decreases s
  {
    StrictForm(s, t);
    if Container(s, v) {
      if v.Array? {
        forall item <- v.items ensures FillFits(s.items.schema, item) {
          AlwaysFillFits(s.items.schema, t.items.schema, item);
        }
      } else {
        UnionIgnoresNames(s, t, v.fields, FilledNames(s, v.fields));
        forall i | 0 <= i < |ListOf(s)|
          ensures PropertyFillFits(s, ListOf(s)[i], v.fields)
        {
          var p := ListOf(s)[i];
          if p.name in v.fields {
            AlwaysFillFits(p.schema, MakeStrict(p.schema).value, v.fields[p.name]);
          }
        }
        FillFitsObject(s, v.fields);
      }
    }
  }

  /**
   * Strict form preserves meaning: dropping nulls takes its instances to instances of the
   * original, and filling nulls in takes the original's instances, without undeclared
   * properties, to instances of it.
   */
  lemma MeaningPreserved(s: Schema, t: Schema)
    requires WellFormed(s) && StrictRoot(s) == Ok(t) && UnionsIgnoreNames(s)
    ensures forall v :: Valid(t, v) ==> Valid(s, Drop(s, v))
    ensures NullsFit(s) ==> forall v :: Valid(s, v) && OnlyDeclared(s, v) ==> Valid(t, Fill(s, v))
  {
    forall v | Valid(t, v)
      ensures Valid(s, Drop(s, v))
    {
      AlwaysDropFits(s, t, v);
      DropIff(s, t, v);
    }
    if NullsFit(s) {
      forall v | Valid(s, v) && OnlyDeclared(s, v)
        ensures Valid(t, Fill(s, v))
      {
        AlwaysFillFits(s, t, v);
        FillIff(s, t, v);
      }
    }
  }

  // ----- inputs on which meaning is lost -----

  const PLAIN := Node(AnyType, None, None, NoUnion, NoItems, NoProperties, NoRequired, Unstated, false)
  const STRING := PLAIN.(types := One("string"))
  const REQUIRES_A := PLAIN.(required := Names(["a"]))

  /** An object with one optional property. */
  function OneOptional(schema: Schema, anyOf: Union): Schema {
    PLAIN.(types := One("object"), properties := Declared([Property("a", schema)]), anyOf := anyOf)
  }

  lemma OneOptionalStrict(schema: Schema, anyOf: Union) returns (t: Schema)
    requires Supported(schema) && WellFormed(schema) && !AllowsNull(schema)
    requires anyOf.NoUnion? || anyOf == AnyOf([REQUIRES_A])
    ensures WellFormed(OneOptional(schema, anyOf)) && StrictRoot(OneOptional(schema, anyOf)) == Ok(t)
    ensures Valid(t, Object(map["a" := NULL]))
  {
    var s, v := OneOptional(schema, anyOf), Object(map["a" := NULL]);
    assert Supported(REQUIRES_A) && WellFormed(REQUIRES_A);
    AcceptedIffSupported(s);
    t := MakeStrict(s).value;
    StrictForm(s, t);
    AcceptedIffSupported(schema);
    AllowsNullKept(schema, MakeStrict(schema).value);
    assert ListOf(t)[0] == Property("a", Nullable(MakeStrict(schema).value));
    ValidNullable(MakeStrict(schema).value, NULL);
    assert Valid(REQUIRES_A, v);
    assert NamesOf(ListOf(s)) == ["a"];
    assert NamesOf(ListOf(t))[0] == "a";
  }

  /** An optional property that a union requires: its null satisfies the strict form only. */
  lemma DroppingCanLoseMeaning()
    ensures var s, v := OneOptional(STRING, AnyOf([REQUIRES_A])), Object(map["a" := NULL]);
            && WellFormed(s) && StrictRoot(s).Ok? && Valid(StrictRoot(s).value, v) && !Valid(s, Drop(s, v))
  {
    var s, v := OneOptional(STRING, AnyOf([REQUIRES_A])), Object(map["a" := NULL]);
    var t := OneOptionalStrict(STRING, AnyOf([REQUIRES_A]));
    DropIff(s, t, v);
    PropertyFound(ListOf(s), 0);
    assert "a" !in KeptNames(s, v.fields);
    assert "a" in RequiredOf(REQUIRES_A);
    assert !VariantAcceptsNames(REQUIRES_A, KeptNames(s, v.fields));
  }

  /** Meaning is lost for any optional property taken to allow null that does not accept it. */
  lemma FillingLosesMeaning(schema: Schema)
    requires Supported(schema) && WellFormed(schema) && AllowsNull(schema) && !Valid(schema, NULL)
    ensures var s, v := OneOptional(schema, NoUnion), Object(map[]);
            && WellFormed(s) && StrictRoot(s).Ok? && Valid(s, v) && OnlyDeclared(s, v)
            && !Valid(StrictRoot(s).value, Fill(s, v))
  {
    var s, v := OneOptional(schema, NoUnion), Object(map[]);
    AcceptedIffSupported(s);
    FillIff(s, MakeStrict(s).value, v);
    FillFitsObject(s, v.fields);
    assert !PropertyFillFits(s, ListOf(s)[0], v.fields);
  }

  /** A property said to be a string or null, of which only "x" is admitted. */
  const STRING_OR_NULL := PLAIN.(types := Many(["string", "null"]), enumeration := Some([String("x")]))

  lemma FillingCanLoseMeaning()
    ensures var s, v := OneOptional(STRING_OR_NULL, NoUnion), Object(map[]);
            && WellFormed(s) && StrictRoot(s).Ok? && Valid(s, v) && OnlyDeclared(s, v)
            && !Valid(StrictRoot(s).value, Fill(s, v))
  {
    assert STRING_OR_NULL.types.names[1] == "null";
    assert STRING_OR_NULL.enumeration.value == [String("x")];
    FillingLosesMeaning(STRING_OR_NULL);
  }
}
