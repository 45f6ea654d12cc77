/**
 * What the flattener of DeserializerUtils guarantees: the shape kept by key
 * casing, the keys of the attributes part, the first-match lookup in
 * `included`, the hook dispatch, each kind of relationship, `addLinks` and
 * the final merge.
 */
module DeserializerProperties {
  import opened Wrappers
  import opened Json
  import opened DeserializerUtils

  // ----- keyForAttribute

  lemma {:induction false} CaseItemsAt(opts: Options, xs: seq<Json>)
    ensures forall i :: 0 <= i < |xs| ==> CaseItems(opts, xs)[i] == CaseNested(opts, xs[i])
  {
    if xs != [] {
      CaseItemsAt(opts, xs[..|xs| - 1]);
    }
  }

  /** An array keeps its length and order; a complex element is cased, any
      other element is kept as it is. */
  lemma KeyForAttributeArray(opts: Options, xs: seq<Json>)
    ensures KeyForAttribute(opts, JArr(xs)).JArr?
    ensures |KeyForAttribute(opts, JArr(xs)).items| == |xs|
    ensures forall i :: 0 <= i < |xs| ==>
      KeyForAttribute(opts, JArr(xs)).items[i]
        == if IsComplexType(xs[i]) then KeyForAttribute(opts, xs[i]) else xs[i]
  {
    CaseItemsAt(opts, xs);
  }

  lemma {:induction false} CaseValuesGet(opts: Options, ms: Members)
    ensures Keys(CaseValues(opts, ms)) == Keys(ms)
    ensures forall k :: k in Keys(ms) ==> Get(CaseValues(opts, ms), k) == Some(CaseNested(opts, Get(ms, k).value))
  {
    if ms != [] {
      var cv := CaseValues(opts, ms);
      CaseValuesGet(opts, ms[..|ms| - 1]);
      assert cv[..|cv| - 1] == CaseValues(opts, ms[..|ms| - 1]);
    }
  }

  lemma {:induction false} RekeyKeys(opts: Options, ms: Members)
    ensures Keys(Rekey(opts, ms)) == set k | k in Keys(ms) :: CaseKey(opts, k)
  {
    if ms != [] {
      var m, front := ms[|ms| - 1], ms[..|ms| - 1];
      RekeyKeys(opts, front);
      assert Keys(Rekey(opts, ms)) == Keys(Rekey(opts, front)) + {CaseKey(opts, m.key)};
      assert Keys(ms) == Keys(front) + {m.key};
      SetOfCasedKeys(opts, Keys(front), m.key);
    }
  }

  lemma SetOfCasedKeys(opts: Options, ks: set<string>, k: string)
    ensures (set k' | k' in ks + {k} :: CaseKey(opts, k')) == (set k' | k' in ks :: CaseKey(opts, k')) + {CaseKey(opts, k)}
  {
  }

  lemma {:induction false} RekeyValue(opts: Options, ms: Members, i: nat)
    requires i < |ms|
    requires forall j :: i < j < |ms| ==> CaseKey(opts, ms[j].key) != CaseKey(opts, ms[i].key)
    ensures Get(Rekey(opts, ms), CaseKey(opts, ms[i].key)) == Some(ms[i].value)
  {
    if i < |ms| - 1 {
      var front := ms[..|ms| - 1];
      assert front[i] == ms[i];
      RekeyValue(opts, front, i);
    }
  }

  /** Two member lists with the same keys at every index build objects with
      the same keys at every index. */
  lemma {:induction false} NormalizeAlike(a: Members, b: Members)
    requires |a| == |b| && forall i :: 0 <= i < |a| ==> a[i].key == b[i].key
    ensures |Normalize(a)| == |Normalize(b)|
    ensures forall i :: 0 <= i < |Normalize(a)| ==> Normalize(a)[i].key == Normalize(b)[i].key
  {
    if a != [] {
      var a', b' := a[..|a| - 1], b[..|b| - 1];
      NormalizeAlike(a', b');
      KeysAlike(a', b');
      PutAlike(Normalize(a'), Normalize(b'), a[|a| - 1].key, a[|a| - 1].value, b[|b| - 1].value);
    }
  }

  lemma PutAlike(a: Members, b: Members, k: string, va: Json, vb: Json)
    requires |a| == |b| && forall i :: 0 <= i < |a| ==> a[i].key == b[i].key
    requires Keys(a) == Keys(b)
    ensures |Put(a, k, va)| == |Put(b, k, vb)|
    ensures forall i :: 0 <= i < |Put(a, k, va)| ==> Put(a, k, va)[i].key == Put(b, k, vb)[i].key
  {
    if k !in Keys(a) {
      assert Put(a, k, va) == a + [Member(k, va)];
      assert Put(b, k, vb) == b + [Member(k, vb)];
    }
  }

  lemma {:induction false} KeysAlike(a: Members, b: Members)
    requires |a| == |b| && forall i :: 0 <= i < |a| ==> a[i].key == b[i].key
    ensures Keys(a) == Keys(b)
  {
    if a != [] {
      KeysAlike(a[..|a| - 1], b[..|b| - 1]);
    }
  }

  /** An object's keys are exactly the cased keys. `_.transform` visits the
      object JavaScript builds (`Normalize`); under every cased key sits the
      value of the last key in that order that cases to it, cased when it is
      complex and unchanged otherwise. */
  lemma KeyForAttributeObject(opts: Options, ms: Members)
    ensures KeyForAttribute(opts, JObj(ms)).JObj?
    ensures Keys(KeyForAttribute(opts, JObj(ms)).members) == set k | k in Keys(ms) :: CaseKey(opts, k)
    ensures
      var n := Normalize(ms);
      forall i :: 0 <= i < |n| ==>
        (forall j :: i < j < |n| ==> CaseKey(opts, n[j].key) != CaseKey(opts, n[i].key)) ==>
        Get(KeyForAttribute(opts, JObj(ms)).members, CaseKey(opts, n[i].key))
          == Some(if IsComplexType(n[i].value) then KeyForAttribute(opts, n[i].value) else n[i].value)
  {
    CasedObjectKeys(opts, ms);
    CasedObjectValues(opts, ms);
  }

  lemma CasedObjectKeys(opts: Options, ms: Members)
    ensures Keys(CaseMembers(opts, ms)) == set k | k in Keys(ms) :: CaseKey(opts, k)
  {
    CaseValuesGet(opts, ms);
    RekeyKeys(opts, Normalize(CaseValues(opts, ms)));
  }

  lemma CasedObjectValues(opts: Options, ms: Members)
    ensures
      var n := Normalize(ms);
      forall i :: 0 <= i < |n| ==>
        (forall j :: i < j < |n| ==> CaseKey(opts, n[j].key) != CaseKey(opts, n[i].key)) ==>
        Get(CaseMembers(opts, ms), CaseKey(opts, n[i].key)) == Some(CaseNested(opts, n[i].value))
  {
    var cv := CaseValues(opts, ms);
    var n, nc := Normalize(ms), Normalize(cv);
    CaseValuesGet(opts, ms);
    NormalizeAlike(cv, ms);
    forall i | 0 <= i < |n| && forall j :: i < j < |n| ==> CaseKey(opts, n[j].key) != CaseKey(opts, n[i].key)
      ensures Get(Rekey(opts, nc), CaseKey(opts, n[i].key)) == Some(CaseNested(opts, n[i].value))
    {
      RekeyValue(opts, nc, i);
      GetDistinct(nc, i);
      GetDistinct(n, i);
    }
  }

  lemma KeyForAttributeObjectAt(opts: Options, ms: Members, i: nat)
    requires i < |Normalize(ms)|
    requires forall j :: i < j < |Normalize(ms)| ==> CaseKey(opts, Normalize(ms)[j].key) != CaseKey(opts, Normalize(ms)[i].key)
    ensures Get(KeyForAttribute(opts, JObj(ms)).members, CaseKey(opts, Normalize(ms)[i].key))
      == Some(CaseNested(opts, Normalize(ms)[i].value))
  {
    KeyForAttributeObject(opts, ms);
  }

  /** When no other key of the object cases like `k`, the cased key holds the
      cased value a read of `k` gives. */
  lemma KeyForAttributeDistinctCasing(opts: Options, ms: Members, k: string)
    requires k in Keys(ms)
    requires forall k' :: k' in Keys(ms) && k' != k ==> CaseKey(opts, k') != CaseKey(opts, k)
    ensures Get(KeyForAttribute(opts, JObj(ms)).members, CaseKey(opts, k))
      == Some(if IsComplexType(Get(ms, k).value) then KeyForAttribute(opts, Get(ms, k).value) else Get(ms, k).value)
  {
    var n := Normalize(ms);
    KeyIndex(n, k);
    var i :| 0 <= i < |n| && n[i].key == k;
    assert forall j :: i < j < |n| ==> CaseKey(opts, n[j].key) != CaseKey(opts, n[i].key) by {
      forall j | i < j < |n| ensures CaseKey(opts, n[j].key) != CaseKey(opts, n[i].key) {
        KeyAt(n, j);
      }
    }
    GetDistinct(n, i);
    assert n[i].value == Get(ms, k).value;
    KeyForAttributeObjectAt(opts, ms, i);
  }

  /** A scalar goes to `opts.keyForAttribute` when it is a function, otherwise
      to the inflector. */
  lemma KeyForAttributeScalar(opts: Options, v: Json)
    requires !IsComplexType(v)
    ensures opts.keyForAttribute.Some? ==> KeyForAttribute(opts, v) == opts.keyForAttribute.value(v)
    ensures opts.keyForAttribute.None? ==> KeyForAttribute(opts, v) == opts.caserize(v)
  {
  }

  // ----- extractAttributes and extractLinks

  /** The attributes part of an object-or-absent `attributes`: the cased
      attribute keys plus `id` exactly when the resource has one; `id` holds
      the raw `from.id`, even over a cased attribute named `id`; every other
      key holds the cased attribute. */
  lemma ExtractAttributesShape(opts: Options, from: Members)
    requires !TruthyOpt(Get(from, "attributes")) || Get(from, "attributes").value.JObj?
    ensures ExtractAttributes(opts, from).Ok?
    ensures
      var raw := Get(from, "attributes");
      var cased := KeyForAttribute(opts, if TruthyOpt(raw) then raw.value else JObj([])).members;
      var d := ExtractAttributes(opts, from).value;
      && Keys(d) == Keys(cased) + (if "id" in Keys(from) then {"id"} else {})
      && ("id" in Keys(from) ==> Get(d, "id") == Get(from, "id"))
      && forall k :: k != "id" ==> Get(d, k) == Get(cased, k)
  {
  }

  /** Without attributes the attributes part is empty, up to `id`. */
  lemma ExtractAttributesWithoutAttributes(opts: Options, from: Members)
    requires !TruthyOpt(Get(from, "attributes"))
    ensures ExtractAttributes(opts, from)
      == Ok(if "id" in Keys(from) then [Member("id", Get(from, "id").value)] else [])
  {
    assert CaseMembers(opts, []) == [];
  }

  /** Absent links give no key at all; an object of links is cased and
      wrapped as `{links: ...}`. */
  lemma ExtractLinksShape(opts: Options, from: Members)
    ensures !TruthyOpt(Get(from, "links")) ==> ExtractLinks(opts, from) == []
    ensures Get(from, "links").Some? && Get(from, "links").value.JObj? ==>
      ExtractLinks(opts, from) == [Member("links", KeyForAttribute(opts, Get(from, "links").value))]
  {
  }

  // ----- findIncluded

  /** Without a truthy `included` table or identifier the target is null. */
  lemma FindIncludedWithoutTable(c: Context, fuel: Fuel, identifier: Json)
    requires !TruthyOpt(c.included) || !Truthy(identifier)
    ensures FindIncluded(c, fuel, identifier) == Ok(JNull)
  {
  }

  /** No element of `included` matches: the target is null. */
  lemma FindIncludedNoMatch(c: Context, fuel: Fuel, identifier: Json)
    requires c.included.Some?
    requires forall j :: 0 <= j < |IncludedItems(c.included.value)| ==>
      !Matches(IncludedItems(c.included.value)[j], identifier)
    ensures FindIncluded(c, fuel, identifier) == Ok(JNull)
  {
  }

  /** The target is the flattening of the FIRST element whose `id` and `type`
      equal the identifier's. A failure of its attributes rejects; a
      rejection of its relationships leaves the promise pending, and any other
      failure of them (one that never settles, diverges, or is not JSON) is
      the target's. */
  lemma FindIncludedFirst(c: Context, fuel: Fuel, identifier: Json, i: nat)
    requires TruthyOpt(c.included) && Truthy(identifier)
    requires i < |IncludedItems(c.included.value)|
    requires Matches(IncludedItems(c.included.value)[i], identifier)
    requires forall j :: 0 <= j < i ==> !Matches(IncludedItems(c.included.value)[j], identifier)
    ensures fuel.Empty? ==> FindIncluded(c, fuel, identifier) == Err(Diverges)
    ensures fuel.More? ==>
      var flat := FlattenResource(c, fuel.rest, IncludedItems(c.included.value)[i].members);
      flat.Ok? ==> FindIncluded(c, fuel, identifier) == Ok(JObj(flat.value))
    ensures fuel.More? ==>
      var attributes := ExtractAttributes(c.opts, IncludedItems(c.included.value)[i].members);
      attributes.Err? ==> FindIncluded(c, fuel, identifier) == Err(attributes.error)
    ensures fuel.More? ==>
      var from := IncludedItems(c.included.value)[i].members;
      var relationships := ExtractRelationships(c, fuel.rest, from);
      ExtractAttributes(c.opts, from).Ok? && relationships.Err? ==>
        FindIncluded(c, fuel, identifier) == Err(if relationships.error == TypeError then Pending else relationships.error)
  {
    FirstMatchIsFirst(IncludedItems(c.included.value), identifier, i);
  }

  /** `_.find` stops at the first match. */
  lemma FirstMatchIsFirst(items: seq<Json>, identifier: Json, i: nat)
    requires i < |items| && Matches(items[i], identifier)
    requires forall j :: 0 <= j < i ==> !Matches(items[j], identifier)
    ensures FirstMatch(items, identifier) == Some(i)
  {
  }

  // ----- getValueForRelationship and extractIncludes

  /** Without a hook for the identifier's type the value is the flattened
      target, null included. */
  lemma ExtractIncludesWithoutHook(c: Context, fuel: Fuel, identifier: Json)
    requires !Truthy(identifier) || HookKey(identifier) !in c.opts.hooks
    ensures ExtractIncludes(c, fuel, identifier) == FindIncluded(c, fuel, identifier)
  {
  }

  /** With a hook for the identifier's type the value is what the hook makes of
      the identifier and the flattened target (null when none was found). */
  lemma ExtractIncludesWithHook(c: Context, fuel: Fuel, identifier: Json, target: Json)
    requires Truthy(identifier) && HookKey(identifier) in c.opts.hooks
    requires FindIncluded(c, fuel, identifier) == Ok(target)
    ensures ExtractIncludes(c, fuel, identifier) == Ok(c.opts.hooks[HookKey(identifier)](identifier, target))
  {
  }

  /** The hook key of an identifier object is its `type` as a string. */
  lemma HookKeyOfTypedIdentifier(ms: Members, t: string)
    requires Get(ms, "type") == Some(JStr(t))
    ensures HookKey(JObj(ms)) == t
  {
  }

  lemma {:induction false} IncludesEachAt(c: Context, fuel: Fuel, ids: seq<Json>)
    ensures forall i :: 0 <= i < |ids| ==> IncludesEach(c, fuel, ids)[i] == ExtractIncludes(c, fuel, ids[i])
  {
    if ids != [] {
      var front := ids[..|ids| - 1];
      var last := ExtractIncludes(c, fuel, ids[|ids| - 1]);
      IncludesEachAt(c, fuel, front);
      var r := IncludesEach(c, fuel, ids);
      assert r == IncludesEach(c, fuel, front) + [last];
      forall i | 0 <= i < |ids| ensures r[i] == ExtractIncludes(c, fuel, ids[i]) {
        if i < |front| {
          assert front[i] == ids[i];
        }
      }
    }
  }

  /** `P.map` resolves to one value per part, in order, exactly the parts'
      values. */
  lemma {:induction false} GatherOk(parts: seq<Outcome<Json>>)
    requires Gather(parts).Ok?
    ensures |Gather(parts).value| == |parts|
    ensures forall i :: 0 <= i < |parts| ==> parts[i] == Ok(Gather(parts).value[i])
  {
    if parts != [] {
      var front := parts[..|parts| - 1];
      GatherOk(front);
      assert forall i :: 0 <= i < |front| ==> front[i] == parts[i];
    }
  }

  /** `P.map` fails with a failure of one of its parts, and with none less
      severe than another part's. */
  lemma {:induction false} GatherErr(parts: seq<Outcome<Json>>)
    requires Gather(parts).Err?
    ensures exists i :: 0 <= i < |parts| && parts[i] == Err(Gather(parts).error)
    ensures forall j :: 0 <= j < |parts| && parts[j].Err? ==> Severity(parts[j].error) <= Severity(Gather(parts).error)
  {
    var front := parts[..|parts| - 1];
    var last := parts[|parts| - 1];
    assert forall i :: 0 <= i < |front| ==> front[i] == parts[i];
    if Gather(front).Err? {
      GatherErr(front);
      var i :| 0 <= i < |front| && front[i] == Err(Gather(front).error);
      assert parts[i] == Err(Gather(front).error);
    } else {
      GatherOk(front);
      assert parts[|parts| - 1] == Err(Gather(parts).error);
    }
  }

  /** The values of a to-many relationship: one per identifier, in order,
      null targets kept. */
  lemma ExtractIncludesAllValues(c: Context, fuel: Fuel, ids: seq<Json>)
    requires ExtractIncludesAll(c, fuel, ids).Ok?
    ensures
      var vs := ExtractIncludesAll(c, fuel, ids).value;
      |vs| == |ids| && forall i :: 0 <= i < |ids| ==> ExtractIncludes(c, fuel, ids[i]) == Ok(vs[i])
  {
    IncludesEachAt(c, fuel, ids);
    GatherOk(IncludesEach(c, fuel, ids));
  }

  /** A failing to-many relationship fails as one of its identifiers does,
      and no identifier fails more severely. */
  lemma ExtractIncludesAllFailure(c: Context, fuel: Fuel, ids: seq<Json>)
    requires ExtractIncludesAll(c, fuel, ids).Err?
    ensures exists i :: 0 <= i < |ids| && ExtractIncludes(c, fuel, ids[i]) == Err(ExtractIncludesAll(c, fuel, ids).error)
    ensures forall j :: 0 <= j < |ids| && ExtractIncludes(c, fuel, ids[j]).Err? ==>
      Severity(ExtractIncludes(c, fuel, ids[j]).error) <= Severity(ExtractIncludesAll(c, fuel, ids).error)
  {
    IncludesEachAt(c, fuel, ids);
    GatherErr(IncludesEach(c, fuel, ids));
  }

  /** One rejecting identifier rejects the relationship, whatever the others
      do, even the ones that never settle. */
  lemma ExtractIncludesAllRejects(c: Context, fuel: Fuel, ids: seq<Json>, i: nat)
    requires i < |ids| && ExtractIncludes(c, fuel, ids[i]) == Err(TypeError)
    ensures ExtractIncludesAll(c, fuel, ids) == Err(TypeError)
  {
    var parts := IncludesEach(c, fuel, ids);
    IncludesEachAt(c, fuel, ids);
    GatherRejects(parts, i);
  }

  lemma GatherRejects(parts: seq<Outcome<Json>>, i: nat)
    requires i < |parts| && parts[i] == Err(TypeError)
    ensures Gather(parts) == Err(TypeError)
  {
    if Gather(parts).Ok? {
      GatherOk(parts);
    } else {
      GatherErr(parts);
    }
  }

  /** A `P.map` that neither rejects nor diverges has no diverging part. */
  lemma GatherWithoutDivergence(parts: seq<Outcome<Json>>)
    requires Gather(parts) != Err(Diverges) && Gather(parts) != Err(TypeError)
    ensures forall i :: 0 <= i < |parts| ==> parts[i] != Err(Diverges)
  {
    if Gather(parts).Ok? {
      GatherOk(parts);
    } else {
      GatherErr(parts);
    }
  }

  /** When every identifier resolves, so does the relationship. */
  lemma ExtractIncludesAllSucceeds(c: Context, fuel: Fuel, ids: seq<Json>)
    requires forall i :: 0 <= i < |ids| ==> ExtractIncludes(c, fuel, ids[i]).Ok?
    ensures ExtractIncludesAll(c, fuel, ids).Ok?
  {
    if ExtractIncludesAll(c, fuel, ids).Err? {
      ExtractIncludesAllFailure(c, fuel, ids);
    }
  }

  // ----- extractRelationships, one relationship at a time

  /** Falsy `data`: the cased key holds null, or `{links: <the relationship's
      links, not cased>}` when the relationship has truthy links. */
  lemma NullDataRelationship(c: Context, fuel: Fuel, dest: Members, key: string, rel: Json)
    requires !rel.JNull? && !TruthyOpt(Prop(rel, "data"))
    ensures AddRelationship(c, fuel, dest, key, rel).Ok?
    ensures
      var ck := CaseKey(c.opts, key);
      var links := Prop(rel, "links");
      var d := AddRelationship(c, fuel, dest, key, rel).value;
      && Keys(d) == Keys(dest) + {ck}
      && Get(d, ck) == Some(if TruthyOpt(links) then JObj([Member("links", links.value)]) else JNull)
      && forall k :: k != ck ==> Get(d, k) == Get(dest, k)
  {
    assert Keys([]) == {};
  }

  /** Array `data`: the cased key holds the array of the identifiers' values
      (the relationship's links are not part of the JSON value). */
  lemma ToManyRelationship(c: Context, fuel: Fuel, dest: Members, key: string, rel: Json)
    requires rel.JObj? && Prop(rel, "data").Some? && Prop(rel, "data").value.JArr?
    ensures
      var values := ExtractIncludesAll(c, fuel, Prop(rel, "data").value.items);
      var ck := CaseKey(c.opts, key);
      && (AddRelationship(c, fuel, dest, key, rel).Ok? <==> values.Ok?)
      && (values.Ok? ==>
        var d := AddRelationship(c, fuel, dest, key, rel).value;
        && Keys(d) == Keys(dest) + {ck}
        && Get(d, ck) == Some(JArr(values.value))
        && forall k :: k != ck ==> Get(d, k) == Get(dest, k))
  {
    ToManyStep(c, fuel, dest, key, rel);
  }

  lemma ToManyStep(c: Context, fuel: Fuel, dest: Members, key: string, rel: Json)
    requires rel.JObj? && Prop(rel, "data").Some? && Prop(rel, "data").value.JArr?
    ensures
      var values := ExtractIncludesAll(c, fuel, Prop(rel, "data").value.items);
      AddRelationship(c, fuel, dest, key, rel)
        == if values.Ok? then Ok(Put(dest, CaseKey(c.opts, key), JArr(values.value))) else Err(values.error)
  {
    var values := ExtractIncludesAll(c, fuel, Prop(rel, "data").value.items);
    if values.Ok? {
      AddLinksOnArray(values.value, Prop(rel, "links"));
    }
  }

  /** `addLinks` on an array only sets a property no JSON value can hold. */
  lemma AddLinksOnArray(xs: seq<Json>, links: Option<Json>)
    ensures TruthyOpt(links) ==> AddLinks(JArr(xs), links.value) == Ok(JArr(xs))
  {
  }

  /** Any other truthy `data` is one identifier. Its value is written only when
      truthy, with the relationship's links added; a falsy value leaves `dest`
      as it was. */
  lemma ToOneRelationship(c: Context, fuel: Fuel, dest: Members, key: string, rel: Json, value: Json)
    requires !rel.JNull? && TruthyOpt(Prop(rel, "data")) && !Prop(rel, "data").value.JArr?
    requires ExtractIncludes(c, fuel, Prop(rel, "data").value) == Ok(value)
    ensures !Truthy(value) ==> AddRelationship(c, fuel, dest, key, rel) == Ok(dest)
    ensures Truthy(value) && !TruthyOpt(Prop(rel, "links")) ==>
      var d := AddRelationship(c, fuel, dest, key, rel);
      && d.Ok?
      && Keys(d.value) == Keys(dest) + {CaseKey(c.opts, key)}
      && Get(d.value, CaseKey(c.opts, key)) == Some(value)
      && forall k :: k != CaseKey(c.opts, key) ==> Get(d.value, k) == Get(dest, k)
    ensures Truthy(value) && TruthyOpt(Prop(rel, "links")) ==>
      var linked := AddLinks(value, Prop(rel, "links").value);
      AddRelationship(c, fuel, dest, key, rel)
        == if linked.Ok? then Ok(Put(dest, CaseKey(c.opts, key), linked.value)) else Err(linked.error)
  {
  }

  /** A to-one relationship whose target is not in `included` and whose type
      has no hook leaves its key absent from the result. */
  lemma UnfoundToOneLeavesKeyAbsent(c: Context, fuel: Fuel, dest: Members, key: string, rel: Json)
    requires rel.JObj? && TruthyOpt(Prop(rel, "data")) && !Prop(rel, "data").value.JArr?
    requires HookKey(Prop(rel, "data").value) !in c.opts.hooks
    requires c.included.Some?
    requires forall j :: 0 <= j < |IncludedItems(c.included.value)| ==>
      !Matches(IncludedItems(c.included.value)[j], Prop(rel, "data").value)
    requires CaseKey(c.opts, key) !in Keys(dest)
    ensures AddRelationship(c, fuel, dest, key, rel) == Ok(dest)
    ensures CaseKey(c.opts, key) !in Keys(AddRelationship(c, fuel, dest, key, rel).value)
  {
    FindIncludedNoMatch(c, fuel, Prop(rel, "data").value);
    ToOneRelationship(c, fuel, dest, key, rel, JNull);
  }

  /** A hook that always answers `x` for type `t` (say the string "REDACTED")
      puts `x` under the key of every to-one relationship of that type, found
      in `included` or not. */
  lemma ConstantHookOverridesToOne(c: Context, fuel: Fuel, dest: Members, key: string, rel: Json, t: string, x: Json)
    requires t in c.opts.hooks && forall a, b :: c.opts.hooks[t](a, b) == x
    requires Truthy(x)
    requires rel.JObj? && !TruthyOpt(Prop(rel, "links"))
    requires Prop(rel, "data").Some? && Prop(rel, "data").value.JObj?
    requires Get(Prop(rel, "data").value.members, "type") == Some(JStr(t))
    requires FindIncluded(c, fuel, Prop(rel, "data").value).Ok?
    ensures AddRelationship(c, fuel, dest, key, rel).Ok?
    ensures Get(AddRelationship(c, fuel, dest, key, rel).value, CaseKey(c.opts, key)) == Some(x)
  {
    var identifier := Prop(rel, "data").value;
    HookKeyOfTypedIdentifier(identifier.members, t);
    ExtractIncludesWithHook(c, fuel, identifier, FindIncluded(c, fuel, identifier).value);
    ToOneRelationship(c, fuel, dest, key, rel, x);
  }

  // ----- addLinks

  /** The value already has a `links` object: the relationship's links are
      extended into it and win on a shared key; no other field changes. */
  lemma AddLinksMerges(ms: Members, linksToAdd: Json, current: Members)
    requires Get(ms, "links") == Some(JObj(current))
    ensures AddLinks(JObj(ms), linksToAdd).Ok? && AddLinks(JObj(ms), linksToAdd).value.JObj?
    ensures
      var r := AddLinks(JObj(ms), linksToAdd).value.members;
      var added := OwnEntries(linksToAdd);
      && Keys(r) == Keys(ms)
      && (forall k :: k != "links" ==> Get(r, k) == Get(ms, k))
      && Get(r, "links").Some? && Get(r, "links").value.JObj?
      && Keys(Get(r, "links").value.members) == Keys(current) + Keys(added)
      && forall k :: Get(Get(r, "links").value.members, k)
           == if k in Keys(added) then Get(added, k) else Get(current, k)
  {
  }

  /** The value has no truthy `links`: the relationship's links object is
      assigned as it is; no other field changes. */
  lemma AddLinksAssigns(ms: Members, linksToAdd: Json)
    requires !TruthyOpt(Get(ms, "links"))
    ensures AddLinks(JObj(ms), linksToAdd).Ok? && AddLinks(JObj(ms), linksToAdd).value.JObj?
    ensures
      var r := AddLinks(JObj(ms), linksToAdd).value.members;
      && Keys(r) == Keys(ms) + {"links"}
      && Get(r, "links") == Some(linksToAdd)
      && forall k :: k != "links" ==> Get(r, k) == Get(ms, k)
  {
  }

  /** Adding links to a primitive value (what a hook may return) is an
      assignment onto a primitive, a TypeError under strict mode. */
  lemma AddLinksOnPrimitive(prop: Json, linksToAdd: Json)
    requires !IsComplexType(prop)
    ensures AddLinks(prop, linksToAdd) == Err(TypeError)
  {
  }

  // ----- perform and flattened included resources

  /** The result is `_.extend(attributes, relationships, links)`: it has the
      keys of all three parts, and on a shared key links win over
      relationships, which win over attributes. */
  lemma FlattenMerge(c: Context, fuel: Fuel, from: Members, attributes: Members, relationships: Members)
    requires ExtractAttributes(c.opts, from) == Ok(attributes)
    requires ExtractRelationships(c, fuel, from) == Ok(relationships)
    ensures FlattenResource(c, fuel, from).Ok?
    ensures
      var d := FlattenResource(c, fuel, from).value;
      var links := ExtractLinks(c.opts, from);
      && Keys(d) == Keys(attributes) + Keys(relationships) + Keys(links)
      && forall k :: Get(d, k) ==
           if k in Keys(links) then Get(links, k)
           else if k in Keys(relationships) then Get(relationships, k)
           else Get(attributes, k)
  {
  }

  /** Absent relationships add no keys, and absent links add no `links` key. */
  lemma FlattenWithoutRelationshipsOrLinks(c: Context, fuel: Fuel, from: Members)
    requires !TruthyOpt(Get(from, "relationships")) && !TruthyOpt(Get(from, "links"))
    ensures FlattenResource(c, fuel, from) == ExtractAttributes(c.opts, from)
  {
    var a := ExtractAttributes(c.opts, from);
    if a.Ok? {
      assert Extend(Extend(a.value, []), []) == a.value;
    }
  }

  /** A resource without attributes, relationships and links flattens to the
      empty object, plus `id` when it has one. */
  lemma FlattenEmptyResource(c: Context, fuel: Fuel, from: Members)
    requires !TruthyOpt(Get(from, "attributes"))
    requires !TruthyOpt(Get(from, "relationships")) && !TruthyOpt(Get(from, "links"))
    ensures FlattenResource(c, fuel, from)
      == Ok(if "id" in Keys(from) then [Member("id", Get(from, "id").value)] else [])
  {
    ExtractAttributesWithoutAttributes(c.opts, from);
    FlattenWithoutRelationshipsOrLinks(c, fuel, from);
  }
}
