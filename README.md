# JSON:API resource flattening, modelled in Dafny

This project models `lib/deserializer-utils.js` of jsonapi-serializer. That
file is the part of the deserializer that turns one JSON:API resource object
into a plain object. The flattened object holds:

- the resource's `attributes`, with every key cased by `opts.keyForAttribute`
  or by the inflector;
- the resource's `id`;
- one key per relationship. It holds the flattened `included` resource the
  relationship points to, or an array of them for a to-many relationship, or
  whatever the per-type hook `opts[type].valueForRelationship` makes of the
  identifier and the target;
- the resource's `links`.

Relationship links are merged into the relationship value by `addLinks`, and
`perform` (and `findIncluded` for each included resource) combines the three
parts with `_.extend(attributes, relationships, links)`.

Files:

- `wrappers.dfy` — `Option` (where `None` is JavaScript's `undefined`) and
  `Result`.
- `json.dfy` — JSON values and the JavaScript and lodash object operations the
  code relies on. These are truthiness, reading `o[k]`, the assignment
  `o[k] = v`, `_.extend`, `Object.keys`, and the coercion of a value to a
  property key. An object is a sequence of members in enumeration order. A
  read sees the last member with the key, and an assignment overwrites an
  existing key in place or appends a new one. A member list that repeats a
  key stands for the object JavaScript builds from it (`Normalize`): each key
  once, at its first position, with its last value. Enumerating an object
  (`Object.keys`, `_.find` over an object, `_.transform` in
  `keyForAttribute`) visits that object.
- `deserializer_utils.dfy` — module `DeserializerUtils` holds every function of
  the source file as a Dafny function. Module `DeserializerSteps` holds the
  loop of `extractRelationships` and `perform` as methods. Each method is
  proved to compute exactly the function that defines it.
- `properties.dfy` — module `DeserializerProperties`: what each operation
  guarantees.
- `fuel.dfy` — module `FuelProperties`: results do not depend on the depth
  bound, and two mutually referencing included resources never flatten.
- `concrete_documents.dfy` — module `ConcreteDocuments`: concrete documents. One
  shows a failure that rejects at the top level but never settles when
  reached through `included`. The others show that a repeated key counts
  once, for relationships and for key casing.

Modelling choices:

- The casing callback (`opts.keyForAttribute` when it is a function,
  otherwise the inflector's `caserize` with these options) is a parameter of
  type `Json -> Json`. `lib/inflector.js` is not part of this model.
- Every truthy `opts[type]` is represented by its `valueForRelationship`, as a
  map from the type's property-key string to a function. A type that is
  absent is looked up under `"undefined"`, as JavaScript does.
- The model is synchronous. A hook returns its value directly, and mostly
  the promises only order steps that run one after the other. The exception
  is `findIncluded` (lines 22-40). A throw of `extractAttributes` inside its
  executor rejects its promise. The chain built on the included resource's
  relationships, however, is only returned from the executor, and nothing
  handles its rejection. So when those relationships reject (`TypeError`),
  the promise never settles. The model reports this as the failure
  `Pending`, which then propagates like any other failure; `perform` then
  never settles either. When those relationships never settle, diverge, or
  resolve to a value that is not JSON, the included resource's promise does
  the same, and the model passes that failure on unchanged.
- A to-many relationship (`P.map`, lines 99-102) runs its identifiers
  together. When several fail, the model reports the most severe failure
  (`Severity`). A rejection ends the map at once, whatever the other
  identifiers are doing. A diverging identifier outweighs one that never
  settles; this keeps results independent of the fuel. A value that is not
  JSON weighs least, because it settles.
- The source recurses into `included` with no bound. Each descent into an
  included resource spends one unit of a `Fuel` value (`Empty` or
  `More(rest)`). Running out is the failure `Diverges`. `FuelProperties`
  proves that any other result is the same for all larger fuel, so fuel only
  distinguishes termination from divergence.
- The relationship graph of a JSON:API document may be cyclic: an included
  article can name its author, and the author the article.
  `lib/deserializer-utils.js` keeps no record of the `(type, id)` pairs it is
  already flattening, so nothing cuts such a cycle short. The model follows
  the code, and `FuelProperties.CycleDiverges` proves the consequence: an
  article and a person that point at each other in `included` diverge for
  every fuel and every options value.
- The failures that the model makes explicit:
  - `TypeError` is where the code throws under strict mode. This covers a
    property read on a null relationship, and an assignment onto a primitive
    (`dest.id` when the cased attributes are a string, or `prop.links` when a
    hook returned a primitive).
  - `NotJson` is where the code builds something no JSON value stands for,
    such as an array carrying an `id` property. It also stands for
    attributes that are an array or a truthy scalar on a resource without
    `id`, because the model's flattening is always an object (see
    `ExtractAttributes` under "Left out").
  - `Pending` is where the promise never settles because a rejection inside
    `findIncluded` reaches no handler, as described above.
  - `Diverges` is where the fuel runs out.

## Model

| member | source | states |
|---|---|---|
| Json.Get | lib/deserializer-utils.js:94 | a property read finds a value exactly when the key is one of the object's keys |
| Json.Put | lib/deserializer-utils.js:97 | after `o[k] = v` the keys are the old keys plus `k`, `k` reads `v`, every other key reads as before, an existing key keeps its position and a new key is appended |
| Json.Extend | lib/deserializer-utils.js:159 | `_.extend(a, b)` has the keys of both, and a shared key reads `b`'s value |
| Json.Normalize | lib/deserializer-utils.js:93-94 | the object a member list stands for has distinct keys, the same keys, and every key reads the same value |
| Json.NormalizeDistinct | lib/deserializer-utils.js:93-94 | a member list whose keys are already distinct is its own object |
| Json.OwnEntries | lib/deserializer-utils.js:93-94 | `Object.keys(o)` paired with `o[key]` visits each key of an object once, with the value a read of that key gives |
| Json.Prop | lib/deserializer-utils.js:131 | a property of a value is present exactly when the value is an object with that key |
| Json.Truthy | lib/deserializer-utils.js:24 | JavaScript truthiness: `null`, `false`, `0` and `""` are falsy (no contract; used by every guard, e.g. lines 12, 70, 77, 88, 96) |
| Json.ToPropertyKey | lib/deserializer-utils.js:97 | the property key a cased value becomes in `dest[keyForAttribute(key)]` (no contract; `CaseKey` is built on it) |
| DeserializerUtils.IsComplexType | lib/deserializer-utils.js:7-9 | an array or a plain object (no contract; used in `KeyForAttributeArray` and `KeyForAttributeObject`) |
| DeserializerUtils.KeyForAttribute | lib/deserializer-utils.js:43-67 | an object stays an object, an array stays an array of the same length, and a scalar is passed to the casing function |
| DeserializerUtils.CaseMembers | lib/deserializer-utils.js:44-51 | the `_.transform` of an object; its keys and values are stated by `KeyForAttributeObject` and `KeyForAttributeDistinctCasing` |
| DeserializerUtils.CaseItems | lib/deserializer-utils.js:52-59 | the `map` of an array keeps its length; each element is stated by `KeyForAttributeArray` |
| DeserializerUtils.ExtractAttributes | lib/deserializer-utils.js:69-74 | `extractAttributes`, stated by `ExtractAttributesShape` and `ExtractAttributesWithoutAttributes` |
| DeserializerUtils.ExtractLinks | lib/deserializer-utils.js:76-85 | `extractLinks`, stated by `ExtractLinksShape` |
| DeserializerUtils.HookKey | lib/deserializer-utils.js:12-13 | the key `opts[relationshipData.type]` is looked up under, stated by `HookKeyOfTypedIdentifier` |
| DeserializerUtils.GetValueForRelationship | lib/deserializer-utils.js:11-20 | `getValueForRelationship`, stated by `ExtractIncludesWithoutHook` and `ExtractIncludesWithHook` |
| DeserializerUtils.Matches | lib/deserializer-utils.js:26-29 | the `{id, type}` matcher of `_.find`, stated by `ResourceMatches` and `FirstMatch` |
| DeserializerUtils.FirstMatch | lib/deserializer-utils.js:26-29 | `_.find` returns the index of an element matching `id` and `type` with no match before it, or reports that no element matches |
| DeserializerUtils.FindIncluded | lib/deserializer-utils.js:22-40 | `findIncluded`, stated by `FindIncludedWithoutTable`, `FindIncludedNoMatch` and `FindIncludedFirst`; its helper `IncludedItems` lists what `_.find` visits (line 26): the elements of an array, the values of an object |
| DeserializerUtils.ExtractIncludes | lib/deserializer-utils.js:139-153 | `extractIncludes`, stated by `ExtractIncludesWithoutHook` and `ExtractIncludesWithHook` |
| DeserializerUtils.IncludesEach | lib/deserializer-utils.js:99-101 | one outcome per identifier; each is stated by `IncludesEachAt` |
| DeserializerUtils.Gather | lib/deserializer-utils.js:99-102 | how `P.map` ends, stated by `GatherOk` and `GatherErr` |
| DeserializerUtils.ExtractIncludesAll | lib/deserializer-utils.js:99-102 | the `P.map` of a to-many relationship, stated by `ExtractIncludesAllValues`, `ExtractIncludesAllFailure`, `ExtractIncludesAllRejects` and `ExtractIncludesAllSucceeds` |
| DeserializerUtils.AddLinks | lib/deserializer-utils.js:130-137 | `addLinks`, stated by `AddLinksMerges`, `AddLinksAssigns`, `AddLinksOnPrimitive` and `AddLinksOnArray` |
| DeserializerUtils.AddRelationship | lib/deserializer-utils.js:94-125 | one turn of the loop, stated by `NullDataRelationship`, `ToManyRelationship`, `ToManyStep` and `ToOneRelationship` |
| DeserializerUtils.AddRelationships | lib/deserializer-utils.js:92-127 | the `P.each` loop, computed step by step by `CollectRelationships` |
| DeserializerUtils.ExtractRelationships | lib/deserializer-utils.js:87-128 | `extractRelationships`, computed by `CollectRelationships` and stated by `RelationshipsObject` |
| DeserializerUtils.FlattenResource | lib/deserializer-utils.js:155-161 | the flattening `perform` builds, stated by `FlattenMerge`, `FlattenWithoutRelationshipsOrLinks` and `FlattenEmptyResource`; its helper `Assemble` is the `_.extend(attributes, relationships, links)` of lines 35 and 159 |
| DeserializerProperties.KeyForAttributeArray | lib/deserializer-utils.js:52-59 | an array keeps length and order; each complex element is cased and every other element is kept unchanged |
| DeserializerProperties.KeyForAttributeObject | lib/deserializer-utils.js:44-51 | the result's keys are exactly the cased keys; `_.transform` visits the object JavaScript builds (each key once, in first-occurrence order, with its last value), and under each cased key sits the value of the last key in that order that cases to it, cased when complex and unchanged otherwise |
| DeserializerProperties.KeyForAttributeDistinctCasing | lib/deserializer-utils.js:44-51 | when no other key cases like `k`, the cased key holds the cased value that reading `k` gives |
| DeserializerProperties.KeyForAttributeScalar | lib/deserializer-utils.js:60-66 | a scalar goes to `opts.keyForAttribute` when it is a function, otherwise to the inflector; this is the helper `CaseScalar` |
| DeserializerProperties.ExtractAttributesShape | lib/deserializer-utils.js:69-74 | with object or absent attributes the result's keys are the cased attribute keys plus `id` exactly when the resource has one; `id` holds the raw `from.id` and every other key the cased attribute |
| DeserializerProperties.ExtractAttributesWithoutAttributes | lib/deserializer-utils.js:70-71 | falsy attributes give an empty object, or `{id}` when the resource has an id |
| DeserializerProperties.ExtractLinksShape | lib/deserializer-utils.js:76-85 | falsy links contribute no key; an object of links contributes exactly `{links: <cased links>}` |
| DeserializerProperties.FindIncludedWithoutTable | lib/deserializer-utils.js:24 | without a truthy `included` table or a truthy identifier the target is null |
| DeserializerProperties.FindIncludedNoMatch | lib/deserializer-utils.js:37-39 | when no element of `included` matches, the target is null |
| DeserializerProperties.FindIncludedFirst | lib/deserializer-utils.js:22-36 | the target is the flattening of the first matching element, not any later one. A failure of its attributes rejects with that failure. A rejection of its relationships leaves the promise pending (`Pending`), and any other failure of them (not settling, diverging, not JSON) is the target's. Running out of fuel at that point is `Diverges` |
| DeserializerProperties.FirstMatchIsFirst | lib/deserializer-utils.js:26-29 | a matching element with no match before it is the one `_.find` returns |
| DeserializerProperties.ExtractIncludesWithoutHook | lib/deserializer-utils.js:11-20 | with no hook for the identifier's type (or a falsy identifier) the value is the target itself, null included |
| DeserializerProperties.ExtractIncludesWithHook | lib/deserializer-utils.js:11-20 | with a hook for the identifier's type the value is the hook applied to the identifier and the target (null when not found) |
| DeserializerProperties.HookKeyOfTypedIdentifier | lib/deserializer-utils.js:12-13 | the hook of an identifier with a string `type` is looked up under that string |
| DeserializerProperties.ExtractIncludesAllValues | lib/deserializer-utils.js:99-102 | a successful to-many relationship has one value per identifier, in identifier order, each the value of that identifier |
| DeserializerProperties.IncludesEachAt | lib/deserializer-utils.js:99-101 | the i-th outcome is `extractIncludes` of the i-th identifier |
| DeserializerProperties.GatherOk | lib/deserializer-utils.js:99-102 | a resolved `P.map` holds exactly the parts' values, in order |
| DeserializerProperties.GatherErr | lib/deserializer-utils.js:99-102 | a failed `P.map` fails as one of its parts does, and no part fails more severely |
| DeserializerProperties.ExtractIncludesAllFailure | lib/deserializer-utils.js:99-102 | a failing to-many relationship fails as one of its identifiers does, and no identifier fails more severely (rejection, then divergence, then never settling, then not JSON) |
| DeserializerProperties.ExtractIncludesAllRejects | lib/deserializer-utils.js:99-102 | one rejecting identifier rejects the relationship, even when others never settle |
| DeserializerProperties.ExtractIncludesAllSucceeds | lib/deserializer-utils.js:99-102 | when every identifier resolves, the to-many relationship resolves |
| DeserializerProperties.NullDataRelationship | lib/deserializer-utils.js:96-125 | falsy `data` (lines 96-97, then 122-125) always succeeds; the cased key then holds null, or `{links: <relationship links>}` when the relationship has links, and no other key changes |
| DeserializerProperties.ToManyRelationship | lib/deserializer-utils.js:98-110 | array `data` succeeds exactly when every identifier resolves, and then the cased key holds the array of values and no other key changes |
| DeserializerProperties.ToManyStep | lib/deserializer-utils.js:98-110 | array `data` writes the array of values under the cased key, with or without relationship links, or fails as `ExtractIncludesAll` does: with the most severe of the identifiers' failures (`ExtractIncludesAllFailure`) |
| DeserializerProperties.AddLinksOnArray | lib/deserializer-utils.js:106-108 | adding links to an array leaves the array's JSON value as it was |
| DeserializerProperties.ToOneRelationship | lib/deserializer-utils.js:111-120 | a falsy value leaves the result unchanged; a truthy value is written under the cased key, after `addLinks` when the relationship has links |
| DeserializerProperties.UnfoundToOneLeavesKeyAbsent | lib/deserializer-utils.js:112-115 | a to-one target missing from `included` with no hook for its type leaves its key absent from the result |
| DeserializerProperties.ConstantHookOverridesToOne | lib/deserializer-utils.js:11-16 | a hook that always answers a truthy `x` for a type puts `x` under the key of a to-one relationship of that type that has no truthy `links`, whether the target is found or not, as long as looking it up does not fail |
| DeserializerProperties.AddLinksMerges | lib/deserializer-utils.js:131-132 | existing `links` object: the relationship's links are extended into it and win on a shared key, and no other field changes |
| DeserializerProperties.AddLinksAssigns | lib/deserializer-utils.js:134-135 | no truthy `links`: the relationship's links are assigned as they are, and no other field changes |
| DeserializerProperties.AddLinksOnPrimitive | lib/deserializer-utils.js:135 | adding links to a primitive value is a TypeError |
| DeserializerProperties.FlattenMerge | lib/deserializer-utils.js:155-161 | the result has the keys of attributes, relationships and links, and on a shared key links win over relationships, which win over attributes |
| DeserializerProperties.FlattenWithoutRelationshipsOrLinks | lib/deserializer-utils.js:155-161 | a resource without relationships and links flattens to its attributes part |
| DeserializerProperties.FlattenEmptyResource | lib/deserializer-utils.js:155-161 | a resource with no attributes, relationships or links flattens to `{}` or `{id}` |
| DeserializerSteps.FailureSticks | lib/deserializer-utils.js:92-127 | once one relationship fails, processing further relationships keeps that failure |
| DeserializerSteps.NextTurn | lib/deserializer-utils.js:93-94 | one more turn of the loop applies the next relationship in `Object.keys` order |
| DeserializerSteps.CollectRelationships | lib/deserializer-utils.js:87-128 | the loop over `Object.keys(from.relationships)` computes `extractRelationships` |
| DeserializerSteps.Perform | lib/deserializer-utils.js:155-161 | `perform` computes the flattening of the top-level resource |
| FuelProperties.IncludesEachFuel | lib/deserializer-utils.js:99-101 | with no diverging identifier, the identifiers' outcomes are the same for any larger fuel |
| FuelProperties.RejectionFuel | lib/deserializer-utils.js:99-102 | a rejecting identifier rejects the to-many relationship for any larger fuel |
| FuelProperties.NoDivergingIdentifier | lib/deserializer-utils.js:99-102 | a to-many relationship that neither rejects nor diverges has no diverging identifier |
| FuelProperties.FindIncludedFuel | lib/deserializer-utils.js:22-40 | a result of `findIncluded` other than `Diverges` is the same for any larger fuel |
| FuelProperties.ExtractIncludesFuel | lib/deserializer-utils.js:139-153 | a result of `extractIncludes` other than `Diverges` is the same for any larger fuel |
| FuelProperties.ExtractIncludesAllFuel | lib/deserializer-utils.js:99-102 | a to-many result other than `Diverges` is the same for any larger fuel |
| FuelProperties.AddRelationshipFuel | lib/deserializer-utils.js:94-125 | one relationship's result other than `Diverges` is the same for any larger fuel |
| FuelProperties.AddRelationshipsFuel | lib/deserializer-utils.js:92-127 | the loop's result other than `Diverges` is the same for any larger fuel |
| FuelProperties.ExtractRelationshipsFuel | lib/deserializer-utils.js:87-128 | a result of `extractRelationships` other than `Diverges` is the same for any larger fuel |
| FuelProperties.FlattenResourceFuel | lib/deserializer-utils.js:155-161 | a flattening other than `Diverges` is the same for any larger fuel |
| FuelProperties.ResourceMatches | lib/deserializer-utils.js:26-29 | a resource matches exactly the identifier with its own `id` and `type` |
| FuelProperties.RelationshipsObject | lib/deserializer-utils.js:88-94 | an object of relationships is processed member by member, each key once, in order |
| FuelProperties.RelationshipFailurePropagates | lib/deserializer-utils.js:156-160 | in `perform`, a failing relationship fails the whole resource with the same failure |
| FuelProperties.PeerFails | lib/deserializer-utils.js:111-120 | a resource whose to-one relationship target fails (diverges, never settles, rejects) fails the same way |
| FuelProperties.CycleDiverges | lib/deserializer-utils.js:22-40 | with no cycle guard, two included resources pointing at each other diverge, relationships and flattening alike, for every fuel and every options value |
| ConcreteDocuments.BrokenPersonRejects | lib/deserializer-utils.js:94-96 | a resource with a null relationship, flattened on its own, fails with a TypeError |
| ConcreteDocuments.ReaderNeverSettles | lib/deserializer-utils.js:22-36 | a resource whose relationship points at that resource in `included` never settles, for every fuel that allows the descent |
| ConcreteDocuments.CollidingCasing | lib/deserializer-utils.js:44-51 | with a casing that sends `x` and `y` to `K`, `{x: 1, y: 2, x: 3}` becomes `{K: 2}`: the object is `{x: 3, y: 2}`, and `y` is written last |
| ConcreteDocuments.ShadowedRelationshipIgnored | lib/deserializer-utils.js:93-97 | in `{author: null, author: {}}` only the last `author` is processed: the key is written as null and the null is never read |

## Left out

- Promises: apart from the dropped rejection in `findIncluded`, `P.all`, `P.each` and `P.map` only sequence steps here. A hook that returns a thenable is not modelled. Hooks return their value directly, which is what lines 145-151 then pass on.
- ExtractAttributes: the flattening is modelled as an object. So array or truthy scalar `attributes` on a resource without `id` give `NotJson`, even where the source returns that value itself (no relationships and no links: `_.extend` onto an array returns the array, and onto a scalar a wrapper that serializes as the scalar).
- ExtractIncludes: a target whose flattening is `NotJson`, found directly or through nested relationships, is reported as `NotJson` before the type's hook is consulted. In the source, line 16 passes that value to `valueForRelationship`, which may discard it and return JSON, so `perform` can resolve where the model fails.
- FlattenResource, FindIncluded: when the attributes already give `NotJson`, the model reports `NotJson` without looking at the relationships. In the source, a failure of those relationships would reject the promise, or leave it pending inside `findIncluded`.
- AddRelationships: a relationship whose value is not JSON (`NotJson`) ends the loop in the model. The source goes on with the next relationships, and a later rejection or a later one that never settles would decide the outcome instead.
- Hooks that throw, and a truthy `opts[type]` without a `valueForRelationship` (which throws when it is called), are not modelled. The hook map holds only callable hooks.
- `opts.keyForAttribute` and the inflector returning something that is not JSON (a function, `undefined`) is not modelled. The casing callback returns a JSON value.
- Numbers are integers: floating point, `NaN` and the number-to-string rules for non-integers are left out.
- JavaScript's enumeration order, which puts integer-like keys first, is not modelled. Members are kept in insertion order.
- Update in place and aliasing: `addLinks` mutates the value stored in `dest`, and `_.extend` mutates its first argument. The model builds new values instead. It therefore does not capture a hook's returned object being changed by `addLinks`, or a relationship's `links` object being shared by reference with the result.
- Properties added to arrays: lines 107 and 117 set `links` on an array (a to-many value, or a to-one value that is an array), and line 71 sets `id` on an array. No JSON value can hold such a property. The first is dropped (`ToManyRelationship` states the array without it), and the second is the failure `NotJson`.
- AddLinks: when the value's truthy `links` is not an object, the model returns the value unchanged. For a primitive that is what the JSON value shows: `_.extend` builds a wrapper and changes nothing visible. For an array it is not: `_.extend` writes the index keys of the relationship's links into it (`links: ["a", "b"]` extended with `["z"]` becomes `["z", "b"]`), and any other key becomes a property no JSON value holds. The model does not capture these writes.
- `DeserializerUtils.Matches` compares `id` and `type` with equality. lodash's `_.matches` compares object values partially, which differs only for an identifier whose `id` or `type` is itself an object or array.
- Line 24 resolves null and then carries on. Any error thrown after that is swallowed by the settled promise, so the modelled result is null and the statements after it are not modelled.
- ExtractIncludesAllFailure: the model reports the most severe failure among the identifiers. A rejection wins, as with `P.map`, and there is only one kind of rejection (`TypeError`), so which one comes first in time does not matter. A diverging identifier outweighs one that never settles, although in the source both simply leave the relationship unsettled. Relationships themselves run one after the other (`P.each`), as in the model.
- The top-level document envelope and the inflector (`lib/inflector.js`) are not part of this model.
