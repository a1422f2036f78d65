/** The plain JavaScript objects the analyses use as dictionaries
    (`stats = {}`, `stats[key] = …`, `Object.keys(stats)`), with the order in
    which `Object.keys` lists their keys made explicit: first every key that
    is an array index (a canonical decimal string of a number below 2^32 - 1)
    in ascending numeric order, then every other string key in the order it
    was first assigned. */
module JsObject {
  import opened Text

  /** The largest array index, 2^32 - 2. */
  const MaxArrayIndex: nat := 4294967294

  /** A property key: an array index, or any other string (which is then never
      the canonical decimal form of an array index). */
  datatype PropertyKey = IndexKey(index: nat) | NameKey(name: string)

  /** The key that `obj[n]` uses for a non-negative integer `n`. */
  function NumberKey(n: nat): (k: PropertyKey)
    ensures k.IndexKey? <==> n <= MaxArrayIndex
    ensures KeyString(k) == NatToString(n)
  {
    if n <= MaxArrayIndex then IndexKey(n) else NameKey(NatToString(n))
  }

  /** The string `Object.keys` reports for a key. */
  function KeyString(k: PropertyKey): string {
    match k
    case IndexKey(i) => NatToString(i)
    case NameKey(s) => s
  }

  /** Different numbers use different keys. */
  lemma NumberKeyInjective(a: nat, b: nat)
    ensures NumberKey(a) == NumberKey(b) <==> a == b
  {
    if NumberKey(a) == NumberKey(b) {
      NatToStringInjective(a, b);
    }
  }

  /** `a` is listed before `b` by `Object.keys` whatever the history of the
      object: index keys ascending and before every name key. Two different
      name keys may stand in either order (the order they were created in). */
  predicate Precedes(a: PropertyKey, b: PropertyKey) {
    match a
    case IndexKey(i) => (match b case IndexKey(j) => i < j case NameKey(_) => true)
    case NameKey(x) => (match b case IndexKey(_) => false case NameKey(y) => x != y)
  }

  predicate WellOrdered(order: seq<PropertyKey>) {
    forall i, j :: 0 <= i < j < |order| ==> Precedes(order[i], order[j])
  }

  predicate Distinct(order: seq<PropertyKey>) {
    forall i, j :: 0 <= i < j < |order| ==> order[i] != order[j]
  }

  lemma WellOrderedDistinct(order: seq<PropertyKey>)
    requires WellOrdered(order)
    ensures Distinct(order)
  {
    forall i, j | 0 <= i < j < |order| ensures order[i] != order[j] {
      assert Precedes(order[i], order[j]);
    }
  }

  /** An object whose property values have type `V`: the values by key, and
      the keys in `Object.keys` order. */
  datatype Object<V> = Object(values: map<PropertyKey, V>, order: seq<PropertyKey>)
  {
    predicate Valid() {
      && WellOrdered(order)
      && (forall k :: k in values ==> k in order)
      && (forall k :: k in order ==> k in values)
    }
  }

  function Empty<V>(): (o: Object<V>)
    ensures o.Valid() && o.order == [] && o.values == map[]
  {
    Object(map[], [])
  }

  /** Where a new array index goes among the keys: after every smaller index,
      before every larger index and every name key. */
  function InsertIndex(order: seq<PropertyKey>, n: nat): (r: seq<PropertyKey>)
    requires WellOrdered(order) && IndexKey(n) !in order
    ensures WellOrdered(r)
    ensures forall k :: k in r <==> k in order || k == IndexKey(n)
    ensures |r| == |order| + 1
  {
    if order == [] || Precedes(IndexKey(n), order[0]) then
      var r := [IndexKey(n)] + order;
      assert forall j :: 0 < j < |r| ==> r[j] == order[j - 1];
      r
    else
      var rest := InsertIndex(order[1..], n);
      assert order[0].IndexKey? && order[0].index < n;
      var r := [order[0]] + rest;
      forall i, j | 0 <= i < j < |r| ensures Precedes(r[i], r[j]) {
        if i > 0 {
          assert r[i] == rest[i - 1] && r[j] == rest[j - 1];
        } else {
          assert r[j] == rest[j - 1];
          assert r[j] in order[1..] || r[j] == IndexKey(n);
          if r[j] in order[1..] {
            var m :| 0 <= m < |order[1..]| && order[1..][m] == r[j];
            assert order[1..][m] == order[m + 1];
          }
        }
      }
      r
  }

  /** `obj[k] = v`: the value is replaced; a new key takes its place in the order. */
  function Put<V>(o: Object<V>, k: PropertyKey, v: V): (r: Object<V>)
    requires o.Valid()
    ensures r.Valid()
    ensures r.values == o.values[k := v]
    ensures k in o.values ==> r.order == o.order
    ensures k !in o.values && k.NameKey? ==> r.order == o.order + [k]
  {
    if k in o.values then Object(o.values[k := v], o.order)
    else
      match k
      case NameKey(_) =>
        var order := o.order + [k];
        assert forall i :: 0 <= i < |o.order| ==> order[i] == o.order[i] && order[i] in o.values;
        Object(o.values[k := v], order)
      case IndexKey(n) => Object(o.values[k := v], InsertIndex(o.order, n))
  }

  /** `Object.keys(orig).forEach(k => o[k] = f(o[k]))` after the first `j`
      keys: those hold `f` of their old value, the rest their old value. */
  ghost predicate UpdatedUpTo<V>(o: Object<V>, orig: Object<V>, f: V -> V, j: nat) {
    && o.Valid() && orig.Valid() && o.order == orig.order && o.values.Keys == orig.values.Keys
    && j <= |orig.order|
    && forall x :: 0 <= x < |orig.order| ==>
         o.values[orig.order[x]] == if x < j then f(orig.values[orig.order[x]]) else orig.values[orig.order[x]]
  }

  /** One more key of the loop updated. */
  lemma UpdatedStep<V>(o: Object<V>, orig: Object<V>, f: V -> V, j: nat)
    requires UpdatedUpTo(o, orig, f, j) && j < |orig.order|
    ensures orig.order[j] in o.values
    ensures UpdatedUpTo(Put(o, orig.order[j], f(o.values[orig.order[j]])), orig, f, j + 1)
  {
    WellOrderedDistinct(orig.order);
    var key := orig.order[j];
    var o' := Put(o, key, f(o.values[key]));
    forall x | 0 <= x < |orig.order|
      ensures o'.values[orig.order[x]] == if x < j + 1 then f(orig.values[orig.order[x]]) else orig.values[orig.order[x]]
    {
      if x != j {
        assert orig.order[x] != key;
      }
    }
  }

  /** Once the loop has gone through every key, every value is `f` of its old one. */
  lemma UpdatedAll<V>(o: Object<V>, orig: Object<V>, f: V -> V)
    requires UpdatedUpTo(o, orig, f, |orig.order|)
    ensures o.values.Keys == orig.values.Keys && o.order == orig.order && o.Valid()
    ensures forall k :: k in orig.values ==> o.values[k] == f(orig.values[k])
  {
    forall k | k in orig.values ensures o.values[k] == f(orig.values[k]) {
      var x :| 0 <= x < |orig.order| && orig.order[x] == k;
    }
  }
}
