/**
 * Concrete documents. In the first, an included resource has a null
 * relationship: flattened at the top level it rejects with a TypeError,
 * but reached through `findIncluded` the rejection is dropped and the
 * resource pointing at it never settles. In the second, a `relationships`
 * object lists one key twice; only the last value counts, as JavaScript
 * object literals do. In the third, attributes with a repeated key meet a
 * casing that sends two keys to one.
 */
module ConcreteDocuments {
  import opened Wrappers
  import opened Json
  import opened DeserializerUtils
  import opened DeserializerProperties
  import opened FuelProperties

  /** `{author: null}`. */
  function NullAuthor(): Json { JObj([Member("author", JNull)]) }

  /** An included person whose `author` relationship is null. */
  function BrokenPerson(): Members { Resource("1", "people", NullAuthor()) }

  /** An article whose `peer` relationship points at the broken person. */
  function Reader(): Members { PeerResource("2", "articles", Identifier("1", "people")) }

  function BrokenContext(opts: Options): Context {
    Context(Some(JArr([JObj(BrokenPerson())])), opts)
  }

  lemma NullAuthorFails(c: Context, fuel: Fuel)
    ensures ExtractRelationships(c, fuel, BrokenPerson()) == Err(TypeError)
  {
    ResourceReads("1", "people", NullAuthor());
    RelationshipsObject(c, fuel, BrokenPerson(), NullAuthor().members);
    NormalizeDistinct(NullAuthor().members);
    NullRelationshipThrows(c, fuel);
  }

  lemma NullRelationshipThrows(c: Context, fuel: Fuel)
    ensures AddRelationships(c, fuel, NullAuthor().members) == Err(TypeError)
  {
    assert NullAuthor().members[..0] == [];
  }

  /** The broken person on its own rejects with the TypeError. */
  lemma BrokenPersonRejects(opts: Options, fuel: Fuel)
    ensures FlattenResource(BrokenContext(opts), fuel, BrokenPerson()) == Err(TypeError)
  {
    ResourceAttributes(opts, "1", "people", NullAuthor());
    NullAuthorFails(BrokenContext(opts), fuel);
  }

  /** Reached through `findIncluded`, the same failure leaves the promise
      pending, and so the reader's `perform` never settles. */
  lemma ReaderNeverSettles(opts: Options, fuel: Fuel)
    ensures FlattenResource(BrokenContext(opts), More(fuel), Reader()) == Err(Pending)
  {
    var c := BrokenContext(opts);
    var toPerson := Identifier("1", "people");
    IdentifierReads("1", "people");
    ResourceMatches("1", "people", NullAuthor(), "1", "people");
    ResourceAttributes(opts, "1", "people", NullAuthor());
    NullAuthorFails(c, fuel);
    FindIncludedFirst(c, More(fuel), toPerson, 0);
    PeerFails(c, More(fuel), "2", "articles", toPerson);
  }

  /** `{author: null, author: {}}`: the object JavaScript builds has one
      `author`, the empty relationship object. */
  function TwiceAuthor(): Json {
    JObj([Member("author", JNull), Member("author", JObj([]))])
  }

  lemma TwiceAuthorIsOnce()
    ensures Normalize(TwiceAuthor().members) == [Member("author", JObj([]))]
  {
    var ms := TwiceAuthor().members;
    assert ms[..1] == [Member("author", JNull)] && ms[..1][..0] == [];
    assert Normalize(ms[..1]) == [Member("author", JNull)];
  }

  /** An empty relationship object is written as null. */
  lemma EmptyRelationshipIsNull(c: Context, fuel: Fuel)
    ensures AddRelationships(c, fuel, [Member("author", JObj([]))]) == Ok([Member(CaseKey(c.opts, "author"), JNull)])
  {
    assert [Member("author", JObj([]))][..0] == [];
    assert Prop(JObj([]), "data") == None && Prop(JObj([]), "links") == None;
  }

  /** The shadowed null never reaches the loop: the relationship is written
      as null, without the TypeError the null alone would throw. */
  lemma ShadowedRelationshipIgnored(c: Context, fuel: Fuel)
    ensures ExtractRelationships(c, fuel, Resource("3", "notes", TwiceAuthor()))
      == Ok([Member(CaseKey(c.opts, "author"), JNull)])
  {
    ResourceReads("3", "notes", TwiceAuthor());
    RelationshipsObject(c, fuel, Resource("3", "notes", TwiceAuthor()), TwiceAuthor().members);
    TwiceAuthorIsOnce();
    EmptyRelationshipIsNull(c, fuel);
  }

  /** A casing that sends both `x` and `y` to `K`, as `first_name` and
      `firstName` both become `firstName`. */
  function Collide(v: Json): Json {
    if v == JStr("x") || v == JStr("y") then JStr("K") else v
  }

  function CollidingOptions(caserize: Json -> Json, hooks: map<string, Hook>): Options {
    Options(Some(Collide), caserize, hooks)
  }

  /** `{x: 1, y: 2, x: 3}`. */
  function RepeatedX(): Members {
    [Member("x", JNum(1)), Member("y", JNum(2)), Member("x", JNum(3))]
  }

  lemma RepeatedXIsObject()
    ensures Normalize(RepeatedX()) == [Member("x", JNum(3)), Member("y", JNum(2))]
  {
    var ms := RepeatedX();
    assert ms[..2] == [Member("x", JNum(1)), Member("y", JNum(2))];
    assert ms[..2][..1] == [Member("x", JNum(1))] && ms[..2][..1][..0] == [];
    assert "x" != "y" by { assert "x"[0] != "y"[0]; }
    assert Normalize(ms[..2][..1]) == [Member("x", JNum(1))];
    assert Normalize(ms[..2]) == [Member("x", JNum(1)), Member("y", JNum(2))];
  }

  lemma RepeatedXCased(opts: Options)
    ensures Normalize(CaseValues(opts, RepeatedX())) == [Member("x", JNum(3)), Member("y", JNum(2))]
  {
    RepeatedXIsObject();
    var n := Normalize(RepeatedX());
    var cv := CaseValues(opts, RepeatedX());
    CaseValuesGet(opts, RepeatedX());
    NormalizeAlike(cv, RepeatedX());
    var nc := Normalize(cv);
    GetDistinct(nc, 0);
    GetDistinct(nc, 1);
    GetDistinct(n, 0);
    GetDistinct(n, 1);
  }

  lemma RekeyCollides(caserize: Json -> Json, hooks: map<string, Hook>)
    ensures Rekey(CollidingOptions(caserize, hooks), [Member("x", JNum(3)), Member("y", JNum(2))])
      == [Member("K", JNum(2))]
  {
    var opts := CollidingOptions(caserize, hooks);
    var nc := [Member("x", JNum(3)), Member("y", JNum(2))];
    assert CaseKey(opts, "x") == "K" && CaseKey(opts, "y") == "K";
    assert nc[..1] == [Member("x", JNum(3))] && nc[..1][..0] == [];
    assert Rekey(opts, nc[..1]) == [Member("K", JNum(3))];
  }

  /** JavaScript builds `{x: 3, y: 2}`; `_.transform` writes `K = 3` and then
      `K = 2`, so the cased object is `{K: 2}`. */
  lemma CollidingCasing(caserize: Json -> Json, hooks: map<string, Hook>)
    ensures KeyForAttribute(CollidingOptions(caserize, hooks), JObj(RepeatedX()))
      == JObj([Member("K", JNum(2))])
  {
    RepeatedXCased(CollidingOptions(caserize, hooks));
    RekeyCollides(caserize, hooks);
  }
}
