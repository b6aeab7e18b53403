/** The rewriting as it runs: one node after the other, variant by variant and property by property. */
module StrictSchemaRewriter {
  import opened Wrappers
  import opened StrictSchema

  function Prepend<T>(done: seq<T>, r: Result<seq<T>, Refusal>): Result<seq<T>, Refusal> {
    match r
    case Err(e) => Err(e)
    case Ok(rest) => Ok(done + rest)
  }

  method MakeStrictNode(s: Schema) returns (r: Result<Schema, Refusal>)
    ensures r == MakeStrict(s)
    decreases s, 2
  {
    if s.Boolean? {
      return Err(BooleanSchema);
    }
    if s.unsupported {
      return Err(UnsupportedKeyword);
    }
    var t := s;
    if !s.anyOf.NoUnion? {
      if s.anyOf.OddUnion? || s.anyOf.variants == [] {
        return Err(EmptyUnion);
      }
      var variants := RewriteVariants(s.anyOf.variants);
      if variants.Err? {
        return Err(variants.error);
      }
      t := t.(anyOf := AnyOf(variants.value));
    }
    if !s.items.NoItems? {
      if s.items.Tuple? {
        return Err(TupleItems);
      }
      var items := MakeStrictNode(s.items.schema);
      if items.Err? {
        return items;
      }
      t := t.(items := Each(items.value));
    }
    if s.types != One("object") {
      return if s.properties.NoProperties? then Ok(t) else Err(PropertiesWithoutObject);
    }
    var refusal := ObjectRefusal(s);
    if refusal.Some? {
      return Err(refusal.value);
    }
    var names: seq<string> := [];
    if s.properties.Declared? {
      var list := RewriteProperties(s.properties.list, RequiredOf(s));
      if list.Err? {
        return Err(list.error);
      }
      t := t.(properties := Declared(list.value));
      names := NamesOf(s.properties.list);
    }
    assert names == NamesOf(ListOf(s));
    r := Ok(t.(required := Names(names), additional := Closed));
  }

  method RewriteVariants(variants: seq<Schema>) returns (r: Result<seq<Schema>, Refusal>)
    ensures r == StrictVariants(variants)
    decreases variants, 1
  {
    ghost var goal := StrictVariants(variants);
    var done: seq<Schema> := [];
    assert variants[0..] == variants && (goal.Ok? ==> done + goal.value == goal.value);
    for i := 0 to |variants|
      invariant goal == Prepend(done, StrictVariants(variants[i..]))
    {
      assert variants[i..][0] == variants[i] && variants[i..][1..] == variants[i + 1..];
      if Structured(variants[i]) {
        return Err(StructuredUnion);
      }
      var strict := MakeStrictNode(variants[i]);
      if strict.Err? {
        return Err(strict.error);
      }
      assert goal.Ok? ==> done + ([strict.value] + StrictVariants(variants[i + 1..]).value) ==
                          (done + [strict.value]) + StrictVariants(variants[i + 1..]).value;
      done := done + [strict.value];
    }
    assert done + [] == done;
    r := Ok(done);
  }

  method RewriteProperties(list: seq<Property>, required: seq<string>) returns (r: Result<seq<Property>, Refusal>)
    ensures r == StrictProperties(list, required)
    decreases list, 1
  {
    ghost var goal := StrictProperties(list, required);
    var done: seq<Property> := [];
    assert list[0..] == list && (goal.Ok? ==> done + goal.value == goal.value);
    for i := 0 to |list|
      invariant goal == Prepend(done, StrictProperties(list[i..], required))
    {
      assert list[i..][0] == list[i] && list[i..][1..] == list[i + 1..];
      var strict := MakeStrictNode(list[i].schema);
      if strict.Err? {
        return Err(strict.error);
      }
      var property := Property(list[i].name, strict.value);
      if list[i].name !in required && !AllowsNull(strict.value) {
        property := Property(list[i].name, Nullable(strict.value));
      }
      assert goal.Ok? ==> done + ([property] + StrictProperties(list[i + 1..], required).value) ==
                          (done + [property]) + StrictProperties(list[i + 1..], required).value;
      done := done + [property];
    }
    assert done + [] == done;
    r := Ok(done);
  }
}
