/**
 * Fuel is only a bound on how deep the flattener descends into `included`.
 * A result other than `Diverges` does not change when more fuel is given;
 * and because the source keeps no record of the resources it is already
 * flattening, two included resources that point at each other diverge
 * whatever the fuel and whatever the options.
 */
module FuelProperties {
  import opened Wrappers
  import opened Json
  import opened DeserializerUtils
  import opened DeserializerProperties

  lemma {:induction false} FindIncludedFuel(c: Context, fuel: Fuel, more: Fuel, identifier: Json)
    requires AtMost(fuel, more) && FindIncluded(c, fuel, identifier) != Err(Diverges)
    ensures FindIncluded(c, more, identifier) == FindIncluded(c, fuel, identifier)
    decreases fuel, 0
  {
    if TruthyOpt(c.included) && Truthy(identifier) {
      var items := IncludedItems(c.included.value);
      var i := FirstMatch(items, identifier);
      if i.Some? && fuel.More? {
        FindIncludedFirst(c, fuel, identifier, i.value);
        FindIncludedFirst(c, more, identifier, i.value);
        if ExtractAttributes(c.opts, items[i.value].members).Ok? {
          ExtractRelationshipsFuel(c, fuel.rest, more.rest, items[i.value].members);
        }
      }
    }
  }

  /** `a` allows at most as many descents as `b`. */
  predicate AtMost(a: Fuel, b: Fuel) {
    match a
    case Empty => true
    case More(r) => b.More? && AtMost(r, b.rest)
  }

  lemma {:induction false} ExtractIncludesFuel(c: Context, fuel: Fuel, more: Fuel, identifier: Json)
    requires AtMost(fuel, more) && ExtractIncludes(c, fuel, identifier) != Err(Diverges)
    ensures ExtractIncludes(c, more, identifier) == ExtractIncludes(c, fuel, identifier)
    decreases fuel, 1
  {
    FindIncludedFuel(c, fuel, more, identifier);
  }

  lemma {:induction false} IncludesEachFuel(c: Context, fuel: Fuel, more: Fuel, identifiers: seq<Json>)
    requires AtMost(fuel, more)
    requires forall i :: 0 <= i < |identifiers| ==> ExtractIncludes(c, fuel, identifiers[i]) != Err(Diverges)
    ensures IncludesEach(c, more, identifiers) == IncludesEach(c, fuel, identifiers)
    decreases fuel, 2, identifiers
  {
    if identifiers != [] {
      var front := identifiers[..|identifiers| - 1];
      assert forall i :: 0 <= i < |front| ==> front[i] == identifiers[i];
      IncludesEachFuel(c, fuel, more, front);
      ExtractIncludesFuel(c, fuel, more, identifiers[|identifiers| - 1]);
    }
  }

  lemma {:induction false} ExtractIncludesAllFuel(c: Context, fuel: Fuel, more: Fuel, identifiers: seq<Json>)
    requires AtMost(fuel, more) && ExtractIncludesAll(c, fuel, identifiers) != Err(Diverges)
    ensures ExtractIncludesAll(c, more, identifiers) == ExtractIncludesAll(c, fuel, identifiers)
    decreases fuel, 3
  {
    if ExtractIncludesAll(c, fuel, identifiers) == Err(TypeError) {
      ExtractIncludesAllFailure(c, fuel, identifiers);
      var i :| 0 <= i < |identifiers| && ExtractIncludes(c, fuel, identifiers[i]) == Err(TypeError);
      RejectionFuel(c, fuel, more, identifiers, i);
    } else {
      NoDivergingIdentifier(c, fuel, identifiers);
      IncludesEachFuel(c, fuel, more, identifiers);
    }
  }

  lemma RejectionFuel(c: Context, fuel: Fuel, more: Fuel, identifiers: seq<Json>, i: nat)
    requires AtMost(fuel, more)
    requires i < |identifiers| && ExtractIncludes(c, fuel, identifiers[i]) == Err(TypeError)
    ensures ExtractIncludesAll(c, more, identifiers) == Err(TypeError)
    decreases fuel, 2
  {
    ExtractIncludesFuel(c, fuel, more, identifiers[i]);
    ExtractIncludesAllRejects(c, more, identifiers, i);
  }

  /** A to-many relationship that neither rejects nor diverges has no
      diverging identifier. */
  lemma NoDivergingIdentifier(c: Context, fuel: Fuel, identifiers: seq<Json>)
    requires ExtractIncludesAll(c, fuel, identifiers) != Err(Diverges)
    requires ExtractIncludesAll(c, fuel, identifiers) != Err(TypeError)
    ensures forall i :: 0 <= i < |identifiers| ==> ExtractIncludes(c, fuel, identifiers[i]) != Err(Diverges)
  {
    IncludesEachAt(c, fuel, identifiers);
    GatherWithoutDivergence(IncludesEach(c, fuel, identifiers));
  }

  lemma {:induction false} AddRelationshipFuel(c: Context, fuel: Fuel, more: Fuel, dest: Members, key: string, rel: Json)
    requires AtMost(fuel, more) && AddRelationship(c, fuel, dest, key, rel) != Err(Diverges)
    ensures AddRelationship(c, more, dest, key, rel) == AddRelationship(c, fuel, dest, key, rel)
    decreases fuel, 4
  {
    if !rel.JNull? {
      var data := Prop(rel, "data");
      if TruthyOpt(data) {
        if data.value.JArr? {
          ExtractIncludesAllFuel(c, fuel, more, data.value.items);
        } else {
          ExtractIncludesFuel(c, fuel, more, data.value);
        }
      }
    }
  }

  lemma {:induction false} AddRelationshipsFuel(c: Context, fuel: Fuel, more: Fuel, entries: Members)
    requires AtMost(fuel, more) && AddRelationships(c, fuel, entries) != Err(Diverges)
    ensures AddRelationships(c, more, entries) == AddRelationships(c, fuel, entries)
    decreases fuel, 5, entries
  {
    if entries != [] {
      var front := entries[..|entries| - 1];
      AddRelationshipsFuel(c, fuel, more, front);
      var dest := AddRelationships(c, fuel, front);
      if dest.Ok? {
        var m := entries[|entries| - 1];
        AddRelationshipFuel(c, fuel, more, dest.value, m.key, m.value);
      }
    }
  }

  lemma {:induction false} ExtractRelationshipsFuel(c: Context, fuel: Fuel, more: Fuel, from: Members)
    requires AtMost(fuel, more) && ExtractRelationships(c, fuel, from) != Err(Diverges)
    ensures ExtractRelationships(c, more, from) == ExtractRelationships(c, fuel, from)
    decreases fuel, 6
  {
    var raw := Get(from, "relationships");
    if TruthyOpt(raw) {
      AddRelationshipsFuel(c, fuel, more, OwnEntries(raw.value));
    }
  }

  /** Any result but `Diverges` is the result for every larger fuel. */
  lemma {:induction false} FlattenResourceFuel(c: Context, fuel: Fuel, more: Fuel, from: Members)
    requires AtMost(fuel, more) && FlattenResource(c, fuel, from) != Err(Diverges)
    ensures FlattenResource(c, more, from) == FlattenResource(c, fuel, from)
    decreases fuel, 7
  {
    if ExtractAttributes(c.opts, from).Ok? {
      ExtractRelationshipsFuel(c, fuel, more, from);
    }
  }

  // ----- Two resources that point at each other

  function Identifier(id: string, t: string): Json {
    JObj([Member("id", JStr(id)), Member("type", JStr(t))])
  }

  /** The `relationships` object of a resource with one to-one relationship
      `peer`. */
  function PeerRelationships(peer: Json): Json {
    JObj([Member("peer", JObj([Member("data", peer)]))])
  }

  /** A resource with an id, a type and the given `relationships`. */
  function Resource(id: string, t: string, rels: Json): Members {
    [Member("id", JStr(id)), Member("type", JStr(t)), Member("relationships", rels)]
  }

  function PeerResource(id: string, t: string, peer: Json): Members {
    Resource(id, t, PeerRelationships(peer))
  }

  function ArticleA(): Members { PeerResource("1", "articles", Identifier("2", "people")) }
  function PersonB(): Members { PeerResource("2", "people", Identifier("1", "articles")) }

  function CyclicIncluded(): Json { JArr([JObj(ArticleA()), JObj(PersonB())]) }

  lemma IdentifierReads(id: string, t: string)
    ensures Truthy(Identifier(id, t)) && !Identifier(id, t).JArr?
    ensures Prop(Identifier(id, t), "id") == Some(JStr(id))
    ensures Prop(Identifier(id, t), "type") == Some(JStr(t))
  {
    var ms := Identifier(id, t).members;
    assert ms[..1] == [Member("id", JStr(id))];
    assert ms[..1][..0] == [];
    assert |"type"| != |"id"|;
    assert Get(ms, "id") == Get(ms[..1], "id");
  }

  lemma ResourceReads(id: string, t: string, rels: Json)
    ensures Keys(Resource(id, t, rels)) == {"id", "type", "relationships"}
    ensures Get(Resource(id, t, rels), "id") == Some(JStr(id))
    ensures Get(Resource(id, t, rels), "type") == Some(JStr(t))
    ensures Get(Resource(id, t, rels), "relationships") == Some(rels)
  {
    var r := Resource(id, t, rels);
    var r2 := [Member("id", JStr(id)), Member("type", JStr(t))];
    assert r[..2] == r2;
    assert r2[..1] == [Member("id", JStr(id))];
    assert r2[..1][..0] == [];
    assert |"relationships"| != |"type"| && |"relationships"| != |"id"| && |"type"| != |"id"|;
    assert Keys(r2[..1]) == {"id"};
    assert Keys(r2) == {"id", "type"};
    assert Get(r, "id") == Get(r2, "id") == Get(r2[..1], "id");
    assert Get(r, "type") == Get(r2, "type");
  }

  /** A resource matches exactly the identifier with its id and type. */
  lemma ResourceMatches(id: string, t: string, rels: Json, id': string, t': string)
    ensures Matches(JObj(Resource(id, t, rels)), Identifier(id', t')) <==> id == id' && t == t'
  {
    ResourceReads(id, t, rels);
    IdentifierReads(id', t');
  }

  /** Attributes of such a resource never fail: it has none, and has an id. */
  lemma ResourceAttributes(opts: Options, id: string, t: string, rels: Json)
    ensures ExtractAttributes(opts, Resource(id, t, rels)).Ok?
  {
    ResourceReads(id, t, rels);
    assert CaseMembers(opts, []) == [];
  }

  lemma CyclicMatches()
    ensures FirstMatch(IncludedItems(CyclicIncluded()), Identifier("1", "articles")) == Some(0)
    ensures FirstMatch(IncludedItems(CyclicIncluded()), Identifier("2", "people")) == Some(1)
  {
    var items := IncludedItems(CyclicIncluded());
    ResourceMatches("1", "articles", PeerRelationships(Identifier("2", "people")), "1", "articles");
    ResourceMatches("1", "articles", PeerRelationships(Identifier("2", "people")), "2", "people");
    assert "1" != "2" by { assert "1"[0] != "2"[0]; }
    ResourceMatches("2", "people", PeerRelationships(Identifier("1", "articles")), "2", "people");
    assert items[1..] == [JObj(PersonB())];
  }

  /** A relationship whose target fails makes its resource fail the same way. */
  lemma PeerFails(c: Context, fuel: Fuel, id: string, t: string, peer: Json)
    requires Truthy(peer) && !peer.JArr?
    requires FindIncluded(c, fuel, peer).Err?
    ensures ExtractRelationships(c, fuel, PeerResource(id, t, peer)) == Err(FindIncluded(c, fuel, peer).error)
    ensures FlattenResource(c, fuel, PeerResource(id, t, peer)) == Err(FindIncluded(c, fuel, peer).error)
  {
    ResourceAttributes(c.opts, id, t, PeerRelationships(peer));
    PeerRelationshipFails(c, fuel, peer);
    PeerRelationshipsRead(c, fuel, id, t, peer);
    RelationshipFailurePropagates(c, fuel, PeerResource(id, t, peer));
  }

  lemma PeerRelationshipsRead(c: Context, fuel: Fuel, id: string, t: string, peer: Json)
    ensures ExtractRelationships(c, fuel, PeerResource(id, t, peer)) == AddRelationships(c, fuel, PeerRelationships(peer).members)
  {
    ResourceReads(id, t, PeerRelationships(peer));
    RelationshipsObject(c, fuel, PeerResource(id, t, peer), PeerRelationships(peer).members);
    NormalizeDistinct(PeerRelationships(peer).members);
  }

  /** An object of relationships is processed member by member, each key once. */
  lemma RelationshipsObject(c: Context, fuel: Fuel, from: Members, rels: Members)
    requires Get(from, "relationships") == Some(JObj(rels))
    ensures ExtractRelationships(c, fuel, from) == AddRelationships(c, fuel, Normalize(rels))
  {
    assert OwnEntries(JObj(rels)) == Normalize(rels);
  }

  /** A failing relationship fails the whole resource. */
  lemma RelationshipFailurePropagates(c: Context, fuel: Fuel, from: Members)
    requires ExtractAttributes(c.opts, from).Ok? && ExtractRelationships(c, fuel, from).Err?
    ensures FlattenResource(c, fuel, from) == Err(ExtractRelationships(c, fuel, from).error)
  {
  }

  lemma PeerRelationshipFails(c: Context, fuel: Fuel, peer: Json)
    requires Truthy(peer) && !peer.JArr?
    requires FindIncluded(c, fuel, peer).Err?
    ensures AddRelationships(c, fuel, PeerRelationships(peer).members) == Err(FindIncluded(c, fuel, peer).error)
  {
    var rel := JObj([Member("data", peer)]);
    assert Prop(rel, "data") == Some(peer);
    var entries := PeerRelationships(peer).members;
    assert entries[..0] == [];
    assert AddRelationship(c, fuel, [], "peer", rel) == Err(FindIncluded(c, fuel, peer).error);
  }

  /** No cycle guard: with `included` holding an article whose author points
      back at the article, flattening either one never produces a result,
      for every fuel and every options value. */
  lemma {:induction false} CycleDiverges(opts: Options, fuel: Fuel)
    ensures ExtractRelationships(Context(Some(CyclicIncluded()), opts), fuel, ArticleA()) == Err(Diverges)
    ensures ExtractRelationships(Context(Some(CyclicIncluded()), opts), fuel, PersonB()) == Err(Diverges)
    ensures FlattenResource(Context(Some(CyclicIncluded()), opts), fuel, ArticleA()) == Err(Diverges)
    ensures FlattenResource(Context(Some(CyclicIncluded()), opts), fuel, PersonB()) == Err(Diverges)
  {
    var c := Context(Some(CyclicIncluded()), opts);
    var toB, toA := Identifier("2", "people"), Identifier("1", "articles");
    CyclicMatches();
    IdentifierReads("2", "people");
    IdentifierReads("1", "articles");
    if fuel.Empty? {
      assert FindIncluded(c, fuel, toB) == Err(Diverges);
      assert FindIncluded(c, fuel, toA) == Err(Diverges);
    } else {
      CycleDiverges(opts, fuel.rest);
      ResourceAttributes(opts, "1", "articles", PeerRelationships(toB));
      ResourceAttributes(opts, "2", "people", PeerRelationships(toA));
      FindIncludedFirst(c, fuel, toB, 1);
      FindIncludedFirst(c, fuel, toA, 0);
    }
    PeerFails(c, fuel, "1", "articles", toB);
    PeerFails(c, fuel, "2", "people", toA);
  }
}
