/**
 * JSON values as the deserializer handles them once the document is parsed,
 * with the few JavaScript and lodash object operations it relies on:
 * truthiness, property reads, property assignment, `_.extend`,
 * `Object.keys` and the coercion of a value to a property key.
 */
module Json {
  import opened Wrappers

  /** A parsed JSON value. Numbers are integers in this model. An object keeps
      its members in enumeration order; when a key occurs twice the later
      member is the one that counts, as in a JavaScript object literal. */
  datatype Json =
    | JNull
    | JBool(b: bool)
    | JNum(n: int)
    | JStr(s: string)
    | JArr(items: seq<Json>)
    | JObj(members: seq<Member>)

  /** One own enumerable property of an object. */
  datatype Member = Member(key: string, value: Json)

  type Members = seq<Member>

  /** JavaScript truthiness of a JSON value. */
  predicate Truthy(v: Json) {
    match v
    case JNull => false
    case JBool(b) => b
    case JNum(n) => n != 0
    case JStr(s) => s != ""
    case _ => true
  }

  /** Truthiness of a property read, where `None` is `undefined`. */
  predicate TruthyOpt(v: Option<Json>) {
    v.Some? && Truthy(v.value)
  }

  /** The keys an object has (the `in` operator). */
  function Keys(o: Members): set<string> {
    if o == [] then {} else Keys(o[..|o| - 1]) + {o[|o| - 1].key}
  }

  /** Reading `o[k]`: the value of the last member with key `k`. */
  function Get(o: Members, k: string): (r: Option<Json>)
    ensures r.Some? <==> k in Keys(o)
  {
    if o == [] then None
    else if o[|o| - 1].key == k then Some(o[|o| - 1].value)
    else Get(o[..|o| - 1], k)
  }

  /** Overwrites, in place, every member with key `k`. */
  function Replace(o: Members, k: string, v: Json): (r: Members)
    ensures |r| == |o| && forall i :: 0 <= i < |o| ==> r[i].key == o[i].key
    ensures Keys(r) == Keys(o)
    ensures forall k' :: Get(r, k') == if k' == k && k in Keys(o) then Some(v) else Get(o, k')
  {
    if o == [] then []
    else
      var last := o[|o| - 1];
      var front := Replace(o[..|o| - 1], k, v);
      var r := front + [if last.key == k then Member(k, v) else last];
      assert r[..|r| - 1] == front;
      assert Keys(r) == Keys(front) + {last.key};
      r
  }

  /** The assignment `o[k] = v`: an existing key keeps its position, a new key
      goes last. */
  function Put(o: Members, k: string, v: Json): (r: Members)
    ensures Keys(r) == Keys(o) + {k}
    ensures Get(r, k) == Some(v)
    ensures forall k' :: k' != k ==> Get(r, k') == Get(o, k')
    ensures k in Keys(o) ==> |r| == |o| && forall i :: 0 <= i < |o| ==> r[i].key == o[i].key
    ensures k !in Keys(o) ==> r == o + [Member(k, v)]
  {
    if k in Keys(o) then Replace(o, k, v)
    else
      var r := o + [Member(k, v)];
      assert r[..|r| - 1] == o;
      r
  }

  /** `_.extend(a, b)`: the members of `b` assigned onto `a` in order, so that
      on a shared key `b` wins. */
  function Extend(a: Members, b: Members): (r: Members)
    ensures Keys(r) == Keys(a) + Keys(b)
    ensures forall k :: Get(r, k) == if k in Keys(b) then Get(b, k) else Get(a, k)
  {
    if b == [] then a
    else
      var m := b[|b| - 1];
      Put(Extend(a, b[..|b| - 1]), m.key, m.value)
  }

  /** No key occurs twice. */
  predicate DistinctKeys(o: Members) {
    forall i, j :: 0 <= i < j < |o| ==> o[i].key != o[j].key
  }

  lemma {:induction false} KeyAt(o: Members, i: nat)
    requires i < |o|
    ensures o[i].key in Keys(o)
  {
    if i < |o| - 1 {
      assert o[..|o| - 1][i] == o[i];
      KeyAt(o[..|o| - 1], i);
    }
  }

  lemma PutKeepsDistinct(o: Members, k: string, v: Json)
    requires DistinctKeys(o)
    ensures DistinctKeys(Put(o, k, v))
  {
    if k !in Keys(o) {
      forall i | 0 <= i < |o| ensures o[i].key != k {
        KeyAt(o, i);
      }
    }
  }

  /** With distinct keys, every member is what a read of its key gives. */
  lemma {:induction false} GetDistinct(o: Members, i: nat)
    requires DistinctKeys(o) && i < |o|
    ensures Get(o, o[i].key) == Some(o[i].value)
  {
    if i < |o| - 1 {
      assert o[..|o| - 1][i] == o[i];
      GetDistinct(o[..|o| - 1], i);
    }
  }

  /** The object a member list stands for, as JavaScript builds it: each key
      once, at its first position, holding its last value. */
  function Normalize(o: Members): (r: Members)
    ensures DistinctKeys(r)
    ensures Keys(r) == Keys(o)
    ensures forall k :: Get(r, k) == Get(o, k)
  {
    if o == [] then []
    else
      var front := Normalize(o[..|o| - 1]);
      var m := o[|o| - 1];
      PutKeepsDistinct(front, m.key, m.value);
      Put(front, m.key, m.value)
  }

  lemma {:induction false} KeyIndex(o: Members, k: string)
    requires k in Keys(o)
    ensures exists i :: 0 <= i < |o| && o[i].key == k
  {
    if o[|o| - 1].key != k {
      KeyIndex(o[..|o| - 1], k);
      var i :| 0 <= i < |o| - 1 && o[..|o| - 1][i].key == k;
      assert o[i].key == k;
    }
  }

  /** A member list whose keys are already distinct is its own object. */
  lemma {:induction false} NormalizeDistinct(o: Members)
    requires DistinctKeys(o)
    ensures Normalize(o) == o
  {
    if o != [] {
      var front := o[..|o| - 1];
      var m := o[|o| - 1];
      NormalizeDistinct(front);
      assert m.key !in Keys(front) by {
        if m.key in Keys(front) {
          KeyIndex(front, m.key);
        }
      }
      assert front + [m] == o;
    }
  }

  /** The values of an object's members, in order (what `_.find` visits when
      its collection is an object, once normalized). */
  function Values(o: Members): (r: seq<Json>)
    ensures |r| == |o| && forall i :: 0 <= i < |o| ==> r[i] == o[i].value
  {
    if o == [] then [] else Values(o[..|o| - 1]) + [o[|o| - 1].value]
  }

  /** The property read `v.k` on a value that is not null: only an object has
      the properties this model reads. */
  function Prop(v: Json, k: string): (r: Option<Json>)
    ensures r.Some? <==> v.JObj? && k in Keys(v.members)
    ensures v.JObj? ==> r == Get(v.members, k)
  {
    if v.JObj? then Get(v.members, k) else None
  }

  /** `Object.keys(v)` paired with `v[key]`: each key of an object once, with
      the value a read of it gives; an array and a string enumerate their
      indices. */
  function OwnEntries(v: Json): (r: Members)
    ensures v.JObj? ==> DistinctKeys(r) && Keys(r) == Keys(v.members)
    ensures v.JObj? ==> forall i :: 0 <= i < |r| ==> Get(v.members, r[i].key) == Some(r[i].value)
  {
    match v
    case JObj(ms) =>
      var r := Normalize(ms);
      assert forall i :: 0 <= i < |r| ==> Get(r, r[i].key) == Some(r[i].value) by {
        forall i | 0 <= i < |r| ensures Get(r, r[i].key) == Some(r[i].value) {
          GetDistinct(r, i);
        }
      }
      r
    case JArr(xs) => IndexEntries(xs)
    case JStr(s) => CharEntries(s)
    case _ => []
  }

  function IndexEntries(xs: seq<Json>): Members {
    if xs == [] then []
    else IndexEntries(xs[..|xs| - 1]) + [Member(NatToString(|xs| - 1), xs[|xs| - 1])]
  }

  function CharEntries(s: string): Members {
    if s == "" then []
    else CharEntries(s[..|s| - 1]) + [Member(NatToString(|s| - 1), JStr([s[|s| - 1]]))]
  }

  /** Decimal notation of a natural number. */
  function NatToString(n: nat): string {
    if n < 10 then ["0123456789"[n]] else NatToString(n / 10) + ["0123456789"[n % 10]]
  }

  function IntToString(n: int): string {
    if n < 0 then "-" + NatToString(-n) else NatToString(n)
  }

  /** JavaScript's coercion of a value to a property key, `String(v)`. */
  function ToPropertyKey(v: Json): string
    decreases v, 1
  {
    match v
    case JNull => "null"
    case JBool(b) => if b then "true" else "false"
    case JNum(n) => IntToString(n)
    case JStr(s) => s
    case JArr(xs) => JoinItems(xs)
    case JObj(_) => "[object Object]"
  }

  /** `xs.join(",")`, which writes a null element as the empty string. */
  function JoinItems(xs: seq<Json>): string
    decreases xs, 0
  {
    if xs == [] then ""
    else if |xs| == 1 then ItemString(xs[0])
    else JoinItems(xs[..|xs| - 1]) + "," + ItemString(xs[|xs| - 1])
  }

  function ItemString(x: Json): string
    decreases x, 2
  {
    if x.JNull? then "" else ToPropertyKey(x)
  }
}
