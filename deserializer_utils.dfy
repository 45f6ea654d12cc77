/**
 * The JSON:API resource flattener of lib/deserializer-utils.js.
 *
 * Given one resource object and the document's `included` table it builds a
 * plain object: the attributes with their keys cased, `id`, every
 * relationship replaced by the flattened included resource it points to (or
 * by what a per-type hook makes of it), and the resource's links.
 *
 * The model is synchronous: the promises of the source order steps that
 * could run one after the other. They change the outcome in two places.
 * `findIncluded`'s executor drops the rejection of the included resource's
 * relationships; that promise never settles, the failure `Pending`. And
 * `P.map` over a to-many relationship runs its identifiers together, so a
 * rejection wins over an earlier identifier that never settles (`Severity`,
 * `Gather`). The recursion into `included` has no cycle guard in the source;
 * here every descent into an included resource spends one unit of `fuel`,
 * and running out is the failure `Diverges`.
 */
module DeserializerUtils {
  import opened Wrappers
  import opened Json

  /** A `valueForRelationship(identifier, flattenedTargetOrNull)` hook. */
  type Hook = (Json, Json) -> Json

  /** The options the flattener reads.
      `keyForAttribute`: `opts.keyForAttribute` when it is a function;
      `caserize`: the inflector's casing with these options, used otherwise;
      `hooks`: the `valueForRelationship` of every truthy `opts[type]`. */
  datatype Options = Options(
    keyForAttribute: Option<Json -> Json>,
    caserize: Json -> Json,
    hooks: map<string, Hook>)

  /** What a flattening reads besides the resource: `jsonapi.included` and the options. */
  datatype Context = Context(included: Option<Json>, opts: Options)

  /** Why a flattening produces no JSON object.
      `TypeError`: the source throws (a property read on null, or a property
      assignment onto a primitive under strict mode);
      `NotJson`: the source builds something no JSON value stands for (an array
      or a wrapper object carrying named properties);
      `Pending`: the promise never settles, because a rejection inside
      `findIncluded` reaches no handler;
      `Diverges`: the recursion through `included` went deeper than the fuel. */
  datatype Failure = TypeError | NotJson | Pending | Diverges

  type Outcome<T> = Result<T, Failure>

  /** How many more times the flattening may descend into `included`; each
      descent takes one `More` off. */
  datatype Fuel = Empty | More(rest: Fuel)

  /** `isComplexType`: an array or a plain object. */
  predicate IsComplexType(v: Json) {
    v.JArr? || v.JObj?
  }

  // ----- Key casing (keyForAttribute)

  /** The scalar branch of `keyForAttribute`. */
  function CaseScalar(opts: Options, v: Json): Json {
    if opts.keyForAttribute.Some? then opts.keyForAttribute.value(v) else opts.caserize(v)
  }

  /** A cased key, `result[keyForAttribute(key)]`, as a property key. */
  function CaseKey(opts: Options, k: string): string {
    ToPropertyKey(CaseScalar(opts, JStr(k)))
  }

  /** `keyForAttribute`: objects get their keys cased and their complex values
      cased in turn, arrays their complex elements; a scalar is cased itself. */
  function KeyForAttribute(opts: Options, v: Json): (r: Json)
    decreases v, 1
    ensures v.JObj? ==> r.JObj?
    ensures v.JArr? ==> r.JArr? && |r.items| == |v.items|
    ensures !IsComplexType(v) ==> r == CaseScalar(opts, v)
  {
    match v
    case JObj(ms) => JObj(CaseMembers(opts, ms))
    case JArr(xs) => JArr(CaseItems(opts, xs))
    case _ => CaseScalar(opts, v)
  }

  /** What `keyForAttribute` does to a value inside an object or array. */
  function CaseNested(opts: Options, v: Json): Json
    decreases v, 2
  {
    if IsComplexType(v) then KeyForAttribute(opts, v) else v
  }

  /** The `_.transform` of an object. It walks the object JavaScript builds
      from the members (each key once, with its last value) and assigns each
      value, cased when complex, under its cased key; keys that case alike
      overwrite one another in that order. */
  function CaseMembers(opts: Options, ms: Members): Members
    decreases ms, 1
  {
    Rekey(opts, Normalize(CaseValues(opts, ms)))
  }

  /** Every member's value as `keyForAttribute` leaves it inside an object. */
  function CaseValues(opts: Options, ms: Members): (r: Members)
    decreases ms, 0
    ensures |r| == |ms| && forall i :: 0 <= i < |ms| ==> r[i].key == ms[i].key
  {
    if ms == [] then []
    else
      var m := ms[|ms| - 1];
      assert m in ms;
      CaseValues(opts, ms[..|ms| - 1]) + [Member(m.key, CaseNested(opts, m.value))]
  }

  /** Each member in turn assigned under its cased key. */
  function Rekey(opts: Options, ms: Members): Members {
    if ms == [] then []
    else
      var m := ms[|ms| - 1];
      Put(Rekey(opts, ms[..|ms| - 1]), CaseKey(opts, m.key), m.value)
  }

  /** The `map` of an array. */
  function CaseItems(opts: Options, xs: seq<Json>): (r: seq<Json>)
    decreases xs, 0
    ensures |r| == |xs|
  {
    if xs == [] then [] else CaseItems(opts, xs[..|xs| - 1]) + [CaseNested(opts, xs[|xs| - 1])]
  }

  // ----- Attributes and links

  /** `extractAttributes`: the cased `attributes` (an empty object when
      absent or falsy), then `dest.id = from.id` when `from` has an `id`. */
  function ExtractAttributes(opts: Options, from: Members): Outcome<Members> {
    var raw := Get(from, "attributes");
    var dest := KeyForAttribute(opts, if TruthyOpt(raw) then raw.value else JObj([]));
    var hasId := "id" in Keys(from);
    match dest
    case JObj(ms) => Ok(if hasId then Put(ms, "id", Get(from, "id").value) else ms)
    case JArr(_) => Err(NotJson)
    case JNull => if hasId then Err(TypeError) else Ok([])
    case _ => if hasId then Err(TypeError) else Err(NotJson)
  }

  /** `extractLinks`: nothing when `links` is absent or falsy, otherwise
      `{links: <cased links>}` when the cased value is truthy. */
  function ExtractLinks(opts: Options, from: Members): Members {
    var raw := Get(from, "links");
    if !TruthyOpt(raw) then []
    else
      var links := KeyForAttribute(opts, raw.value);
      if Truthy(links) then [Member("links", links)] else []
  }

  // ----- Relationship values

  /** The key `opts[identifier.type]` is looked up under. */
  function HookKey(identifier: Json): string {
    var t := Prop(identifier, "type");
    if t.None? then "undefined" else ToPropertyKey(t.value)
  }

  /** `getValueForRelationship`: the hook registered for the identifier's type,
      applied to the identifier and the flattened target, or the target. */
  function GetValueForRelationship(opts: Options, identifier: Json, target: Json): Json {
    if Truthy(identifier) && HookKey(identifier) in opts.hooks then
      opts.hooks[HookKey(identifier)](identifier, target)
    else target
  }

  /** The elements `_.find` visits in `jsonapi.included`. */
  function IncludedItems(included: Json): seq<Json> {
    match included
    case JArr(xs) => xs
    case JObj(ms) => Values(Normalize(ms))
    case _ => []
  }

  /** The matcher `{id: identifier.id, type: identifier.type}`: an object whose
      `id` and `type` are both present and equal to the identifier's. */
  predicate Matches(candidate: Json, identifier: Json) {
    && candidate.JObj?
    && Prop(identifier, "id").Some?
    && Prop(identifier, "type").Some?
    && Get(candidate.members, "id") == Prop(identifier, "id")
    && Get(candidate.members, "type") == Prop(identifier, "type")
  }

  /** `_.find`: the index of the first matching element. */
  function FirstMatch(items: seq<Json>, identifier: Json): (r: Option<nat>)
    ensures r.Some? ==> r.value < |items| && Matches(items[r.value], identifier)
    ensures r.Some? ==> forall j :: 0 <= j < r.value ==> !Matches(items[j], identifier)
    ensures r.None? ==> forall j :: 0 <= j < |items| ==> !Matches(items[j], identifier)
  {
    if items == [] then None
    else if Matches(items[0], identifier) then Some(0)
    else
      var rest := FirstMatch(items[1..], identifier);
      if rest.None? then None else Some(rest.value + 1)
  }

  /** `findIncluded`: null without a truthy `included` table or identifier,
      null when no included resource matches, otherwise the flattening of the
      first match. A throw of `extractAttributes` inside the executor rejects
      the promise; the chain on the relationships is only returned from the
      executor, so when they reject the promise never settles. */
  function FindIncluded(c: Context, fuel: Fuel, identifier: Json): Outcome<Json>
    decreases fuel, 0
  {
    if !TruthyOpt(c.included) || !Truthy(identifier) then Ok(JNull)
    else
      var items := IncludedItems(c.included.value);
      var i := FirstMatch(items, identifier);
      if i.None? then Ok(JNull)
      else if fuel.Empty? then Err(Diverges)
      else
        var from := items[i.value].members;
        var attributes :- ExtractAttributes(c.opts, from);
        var relationships := ExtractRelationships(c, fuel.rest, from);
        if relationships.Err? then Err(if relationships.error == TypeError then Pending else relationships.error)
        else Ok(JObj(Assemble(attributes, relationships.value, ExtractLinks(c.opts, from))))
  }

  /** `extractIncludes`: the relationship value for one identifier. */
  function ExtractIncludes(c: Context, fuel: Fuel, identifier: Json): Outcome<Json>
    decreases fuel, 1
  {
    var target :- FindIncluded(c, fuel, identifier);
    Ok(GetValueForRelationship(c.opts, identifier, target))
  }

  /** How much a failure weighs when several parts of a `P.map` fail. A
      rejection ends the map at once, whatever the other parts are doing; a
      part that diverges (the model cannot tell how it would end) outweighs one
      that never settles; a value that is not JSON still settles. */
  function Severity(f: Failure): nat {
    match f
    case TypeError => 3
    case Diverges => 2
    case Pending => 1
    case NotJson => 0
  }

  /** `P.map` over the outcomes of its parts: their values in order when all
      resolve, otherwise the most severe failure. */
  function Gather(parts: seq<Outcome<Json>>): Outcome<seq<Json>> {
    if parts == [] then Ok([])
    else
      var front := Gather(parts[..|parts| - 1]);
      var last := parts[|parts| - 1];
      if front.Ok? && last.Ok? then Ok(front.value + [last.value])
      else if front.Ok? then Err(last.error)
      else if last.Ok? || Severity(last.error) <= Severity(front.error) then front
      else Err(last.error)
  }

  /** `extractIncludes` of every identifier of a to-many relationship. */
  function IncludesEach(c: Context, fuel: Fuel, identifiers: seq<Json>): (r: seq<Outcome<Json>>)
    decreases fuel, 2, identifiers
    ensures |r| == |identifiers|
  {
    if identifiers == [] then []
    else IncludesEach(c, fuel, identifiers[..|identifiers| - 1]) + [ExtractIncludes(c, fuel, identifiers[|identifiers| - 1])]
  }

  /** The `P.map` of a to-many relationship. */
  function ExtractIncludesAll(c: Context, fuel: Fuel, identifiers: seq<Json>): Outcome<seq<Json>>
    decreases fuel, 3
  {
    Gather(IncludesEach(c, fuel, identifiers))
  }

  /** `addLinks`: the relationship's links extended into the value's truthy
      `links` object, or assigned as the value's `links`. */
  function AddLinks(prop: Json, linksToAdd: Json): Outcome<Json> {
    if prop.JNull? then Err(TypeError)
    else
      var current := Prop(prop, "links");
      if TruthyOpt(current) then
        if current.value.JObj? then
          Ok(JObj(Put(prop.members, "links", JObj(Extend(current.value.members, OwnEntries(linksToAdd))))))
        else Ok(prop)
      else if prop.JObj? then Ok(JObj(Put(prop.members, "links", linksToAdd)))
      else if prop.JArr? then Ok(prop)
      else Err(TypeError)
  }

  /** One turn of the loop of `extractRelationships`: the relationship `rel`
      stored under `key` written into `dest`. */
  function AddRelationship(c: Context, fuel: Fuel, dest: Members, key: string, rel: Json): Outcome<Members>
    decreases fuel, 4
  {
    if rel.JNull? then Err(TypeError)
    else
      var ck := CaseKey(c.opts, key);
      var data := Prop(rel, "data");
      var links := Prop(rel, "links");
      if !TruthyOpt(data) then
        var d := Put(dest, ck, JNull);
        if TruthyOpt(links) then
          var carrier :- AddLinks(JObj([]), links.value);
          Ok(Put(d, ck, carrier))
        else Ok(d)
      else if data.value.JArr? then
        var values :- ExtractIncludesAll(c, fuel, data.value.items);
        if TruthyOpt(links) then
          var linked :- AddLinks(JArr(values), links.value);
          Ok(Put(dest, ck, linked))
        else Ok(Put(dest, ck, JArr(values)))
      else
        var value :- ExtractIncludes(c, fuel, data.value);
        if !Truthy(value) then Ok(dest)
        else if TruthyOpt(links) then
          var linked :- AddLinks(value, links.value);
          Ok(Put(dest, ck, linked))
        else Ok(Put(dest, ck, value))
  }

  /** The loop of `extractRelationships` over the given entries, in order. */
  function AddRelationships(c: Context, fuel: Fuel, entries: Members): Outcome<Members>
    decreases fuel, 5, entries
  {
    if entries == [] then Ok([])
    else
      var dest :- AddRelationships(c, fuel, entries[..|entries| - 1]);
      var m := entries[|entries| - 1];
      AddRelationship(c, fuel, dest, m.key, m.value)
  }

  /** `extractRelationships`: nothing when `relationships` is absent or falsy,
      otherwise every relationship written into a fresh object. */
  function ExtractRelationships(c: Context, fuel: Fuel, from: Members): Outcome<Members>
    decreases fuel, 6
  {
    var raw := Get(from, "relationships");
    if !TruthyOpt(raw) then Ok([]) else AddRelationships(c, fuel, OwnEntries(raw.value))
  }

  /** `_.extend(attributes, relationships, links)`. */
  function Assemble(attributes: Members, relationships: Members, links: Members): Members {
    Extend(Extend(attributes, relationships), links)
  }

  /** A flattened resource, as `perform` builds it: a failure of the
      attributes or of the relationships fails it. */
  function FlattenResource(c: Context, fuel: Fuel, from: Members): Outcome<Members>
    decreases fuel, 7
  {
    var attributes :- ExtractAttributes(c.opts, from);
    var relationships :- ExtractRelationships(c, fuel, from);
    Ok(Assemble(attributes, relationships, ExtractLinks(c.opts, from)))
  }
}

/**
 * The statement-by-statement parts of the flattener: the loop of
 * `extractRelationships` that fills `dest` key by key, and `perform`, which
 * assembles the top-level resource. Both are proved to compute what the
 * functions of DeserializerUtils define; included resources are flattened by
 * those functions.
 */
module DeserializerSteps {
  import opened Wrappers
  import opened Json
  import opened DeserializerUtils

  /** Once one turn of the loop fails, every longer run fails the same way. */
  lemma {:induction false} FailureSticks(c: Context, fuel: Fuel, entries: Members, i: nat)
    requires i <= |entries| && AddRelationships(c, fuel, entries[..i]).Err?
    ensures AddRelationships(c, fuel, entries) == AddRelationships(c, fuel, entries[..i])
    decreases |entries| - i
  {
    if i < |entries| {
      assert entries[..i + 1][..i] == entries[..i];
      FailureSticks(c, fuel, entries, i + 1);
    } else {
      assert entries[..i] == entries;
    }
  }

  /** One more turn of the loop applies one more relationship. */
  lemma NextTurn(c: Context, fuel: Fuel, entries: Members, i: nat, dest: Members)
    requires i < |entries| && AddRelationships(c, fuel, entries[..i]) == Ok(dest)
    ensures AddRelationships(c, fuel, entries[..i + 1]) == AddRelationship(c, fuel, dest, entries[i].key, entries[i].value)
  {
    assert entries[..i + 1][..i] == entries[..i];
  }

  /** `extractRelationships` (lines 87-128): `dest` starts empty and each
      relationship key is written in `Object.keys` order. */
  method CollectRelationships(c: Context, fuel: Fuel, from: Members) returns (r: Outcome<Members>)
    ensures r == ExtractRelationships(c, fuel, from)
  {
    var raw := Get(from, "relationships");
    if !TruthyOpt(raw) {
      return Ok([]);
    }
    var entries := OwnEntries(raw.value);
    var dest: Members := [];
    var i := 0;
    while i < |entries|
      invariant 0 <= i <= |entries|
      invariant AddRelationships(c, fuel, entries[..i]) == Ok(dest)
    {
      var step := AddRelationship(c, fuel, dest, entries[i].key, entries[i].value);
      NextTurn(c, fuel, entries, i, dest);
      if step.Err? {
        FailureSticks(c, fuel, entries, i + 1);
        return step;
      }
      dest := step.value;
      i := i + 1;
    }
    assert entries[..i] == entries;
    r := Ok(dest);
  }

  /** `perform` (lines 155-161): attributes, then relationships, then links,
      merged into the attributes object. */
  method Perform(c: Context, fuel: Fuel, data: Members) returns (r: Outcome<Members>)
    ensures r == FlattenResource(c, fuel, data)
  {
    var attributes := ExtractAttributes(c.opts, data);
    if attributes.Err? {
      return Err(attributes.error);
    }
    var relationships := CollectRelationships(c, fuel, data);
    if relationships.Err? {
      return Err(relationships.error);
    }
    var links := ExtractLinks(c.opts, data);
    var dest := attributes.value;
    dest := Extend(dest, relationships.value);
    dest := Extend(dest, links);
    r := Ok(dest);
  }
}
