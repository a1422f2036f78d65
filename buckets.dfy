/** The `{ c, t }` buckets the analyses fill: for each key, how many recorded
    problems fed it and their total time. Each analysis is a fold over the
    results in which every result bumps the bucket of each key it feeds
    (creating the bucket on first use), so its outcome is `Tally` of the keys
    each result feeds; the lemmas here say what any such fold computes. */
module Buckets {
  import opened Text
  import opened JsObject

  /** One stored result: the problem text as shown and the time taken in milliseconds. */
  datatype Result = Result(problem: string, time: real)

  /** `{ c: count, t: total time }` */
  datatype Bucket = Bucket(c: nat, t: real)

  type Stats = Object<Bucket>

  function CountIn(values: map<PropertyKey, Bucket>, k: PropertyKey): nat {
    if k in values then values[k].c else 0
  }

  function TotalIn(values: map<PropertyKey, Bucket>, k: PropertyKey): real {
    if k in values then values[k].t else 0.0
  }

  /** `if (!stats[k]) stats[k] = { c: 0, t: 0 }; stats[k].c++; stats[k].t += time;` */
  function Bump(s: Stats, k: PropertyKey, time: real): (r: Stats)
    requires s.Valid()
    ensures r.Valid()
    ensures r.values.Keys == s.values.Keys + {k}
    ensures CountIn(r.values, k) == CountIn(s.values, k) + 1
    ensures TotalIn(r.values, k) == TotalIn(s.values, k) + time
    ensures forall k' :: k' != k ==> k' in r.values ==> r.values[k'] == s.values[k']
    ensures forall k' :: k' != k ==> CountIn(r.values, k') == CountIn(s.values, k') && TotalIn(r.values, k') == TotalIn(s.values, k')
  {
    var b := if k in s.values then s.values[k] else Bucket(0, 0.0);
    Put(s, k, Bucket(b.c + 1, b.t + time))
  }

  /** Bumping each of `keys` in turn with the same time (`[n1, n2].forEach(…)`). */
  function BumpAll(s: Stats, keys: seq<PropertyKey>, time: real): (r: Stats)
    requires s.Valid()
    ensures r.Valid()
    decreases |keys|
  {
    if keys == [] then s else BumpAll(Bump(s, keys[0], time), keys[1..], time)
  }

  /** The fold of an analysis: start from `init`, and let every result bump
      the buckets of the keys `keysOf` says it feeds. */
  function Tally(init: Stats, rs: seq<Result>, keysOf: Result -> seq<PropertyKey>): (r: Stats)
    requires init.Valid()
    ensures r.Valid()
    decreases |rs|
  {
    if rs == [] then init
    else
      var last := rs[|rs| - 1];
      BumpAll(Tally(init, rs[..|rs| - 1], keysOf), keysOf(last), last.time)
  }

  /** One more result is one more step of the fold. */
  lemma TallyStep(init: Stats, rs: seq<Result>, i: nat, keysOf: Result -> seq<PropertyKey>)
    requires init.Valid() && i < |rs|
    ensures Tally(init, rs[..i + 1], keysOf) == BumpAll(Tally(init, rs[..i], keysOf), keysOf(rs[i]), rs[i].time)
  {
    assert rs[..i + 1][..i] == rs[..i];
  }

  lemma BumpAllOne(s: Stats, a: PropertyKey, time: real)
    requires s.Valid()
    ensures BumpAll(s, [a], time) == Bump(s, a, time)
  {
    assert [a][1..] == [];
  }

  lemma BumpAllPair(s: Stats, a: PropertyKey, b: PropertyKey, time: real)
    requires s.Valid()
    ensures BumpAll(s, [a, b], time) == Bump(Bump(s, a, time), b, time)
  {
    assert [a, b][1..] == [b];
    BumpAllOne(Bump(s, a, time), b, time);
  }

  lemma {:induction false} BumpAllAppend(s: Stats, xs: seq<PropertyKey>, ys: seq<PropertyKey>, time: real)
    requires s.Valid()
    ensures BumpAll(s, xs + ys, time) == BumpAll(BumpAll(s, xs, time), ys, time)
    decreases |xs|
  {
    if xs == [] {
      assert xs + ys == ys;
    } else {
      assert (xs + ys)[1..] == xs[1..] + ys;
      BumpAllAppend(Bump(s, xs[0], time), xs[1..], ys, time);
    }
  }

  /** `m` copies of `time` added up, that is `m * time`. */
  function Repeat(m: nat, time: real): real {
    if m == 0 then 0.0 else Repeat(m - 1, time) + time
  }

  lemma {:induction false} RepeatAdd(a: nat, b: nat, time: real)
    ensures Repeat(a + b, time) == Repeat(a, time) + Repeat(b, time)
    decreases b
  {
    if b > 0 {
      RepeatAdd(a, b - 1, time);
    }
  }

  /** How many increments the results give key `k`. */
  function Occurrences(rs: seq<Result>, keysOf: Result -> seq<PropertyKey>, k: PropertyKey): nat
    decreases |rs|
  {
    if rs == [] then 0
    else Occurrences(rs[..|rs| - 1], keysOf, k) + multiset(keysOf(rs[|rs| - 1]))[k]
  }

  /** The time the results add to key `k`: each result's time once per increment. */
  function TimeAdded(rs: seq<Result>, keysOf: Result -> seq<PropertyKey>, k: PropertyKey): real
    decreases |rs|
  {
    if rs == [] then 0.0
    else
      var last := rs[|rs| - 1];
      TimeAdded(rs[..|rs| - 1], keysOf, k) + Repeat(multiset(keysOf(last))[k], last.time)
  }

  /** How many increments the results give in all. */
  function Increments(rs: seq<Result>, keysOf: Result -> seq<PropertyKey>): nat
    decreases |rs|
  {
    if rs == [] then 0 else Increments(rs[..|rs| - 1], keysOf) + |keysOf(rs[|rs| - 1])|
  }

  /** The time the results add in all. */
  function IncrementTime(rs: seq<Result>, keysOf: Result -> seq<PropertyKey>): real
    decreases |rs|
  {
    if rs == [] then 0.0
    else
      var last := rs[|rs| - 1];
      IncrementTime(rs[..|rs| - 1], keysOf) + Repeat(|keysOf(last)|, last.time)
  }

  lemma BumpAllBuckets(s: Stats, keys: seq<PropertyKey>, time: real, k: PropertyKey)
    requires s.Valid()
    ensures CountIn(BumpAll(s, keys, time).values, k) == CountIn(s.values, k) + multiset(keys)[k]
    ensures TotalIn(BumpAll(s, keys, time).values, k) == TotalIn(s.values, k) + Repeat(multiset(keys)[k], time)
    ensures k in BumpAll(s, keys, time).values <==> k in s.values || k in keys
  {
    BumpAllCount(s, keys, time, k);
    BumpAllTotal(s, keys, time, k);
    BumpAllMembers(s, keys, time, k);
  }

  lemma {:induction false} BumpAllCount(s: Stats, keys: seq<PropertyKey>, time: real, k: PropertyKey)
    requires s.Valid()
    ensures CountIn(BumpAll(s, keys, time).values, k) == CountIn(s.values, k) + multiset(keys)[k]
    decreases |keys|
  {
    if keys != [] {
      BumpAllCount(Bump(s, keys[0], time), keys[1..], time, k);
      HeadOccurrences(keys, k);
    }
  }

  lemma {:induction false} BumpAllTotal(s: Stats, keys: seq<PropertyKey>, time: real, k: PropertyKey)
    requires s.Valid()
    ensures TotalIn(BumpAll(s, keys, time).values, k) == TotalIn(s.values, k) + Repeat(multiset(keys)[k], time)
    decreases |keys|
  {
    if keys != [] {
      BumpAllTotal(Bump(s, keys[0], time), keys[1..], time, k);
      HeadOccurrences(keys, k);
      var later := multiset(keys[1..])[k];
      if keys[0] == k {
        assert Repeat(later + 1, time) == Repeat(later, time) + time;
      }
    }
  }

  lemma {:induction false} BumpAllMembers(s: Stats, keys: seq<PropertyKey>, time: real, k: PropertyKey)
    requires s.Valid()
    ensures k in BumpAll(s, keys, time).values <==> k in s.values || k in keys
    decreases |keys|
  {
    if keys != [] {
      BumpAllMembers(Bump(s, keys[0], time), keys[1..], time, k);
      HeadOccurrences(keys, k);
    }
  }

  /** The first key and the rest of them. */
  lemma HeadOccurrences(keys: seq<PropertyKey>, k: PropertyKey)
    requires keys != []
    ensures multiset(keys)[k] == multiset(keys[1..])[k] + (if keys[0] == k then 1 else 0)
    ensures k in keys <==> keys[0] == k || k in keys[1..]
  {
    assert keys == [keys[0]] + keys[1..];
    assert multiset(keys) == multiset{keys[0]} + multiset(keys[1..]);
  }

  /** What any fold of results into buckets computes, key by key: the count of
      a key grows by the number of increments the results give it, its total
      by their times, and a bucket exists exactly when it existed before or
      some result fed it. */
  lemma {:induction false} TallyBuckets(init: Stats, rs: seq<Result>, keysOf: Result -> seq<PropertyKey>, k: PropertyKey)
    requires init.Valid()
    ensures CountIn(Tally(init, rs, keysOf).values, k) == CountIn(init.values, k) + Occurrences(rs, keysOf, k)
    ensures TotalIn(Tally(init, rs, keysOf).values, k) == TotalIn(init.values, k) + TimeAdded(rs, keysOf, k)
    ensures k in Tally(init, rs, keysOf).values <==> k in init.values || Occurrences(rs, keysOf, k) > 0
    decreases |rs|
  {
    if rs != [] {
      var front, last := rs[..|rs| - 1], rs[|rs| - 1];
      TallyBuckets(init, front, keysOf, k);
      BumpAllBuckets(Tally(init, front, keysOf), keysOf(last), last.time, k);
    }
  }

  // Sums over all buckets, in key order.

  function CountSum(order: seq<PropertyKey>, values: map<PropertyKey, Bucket>): nat {
    if order == [] then 0 else CountIn(values, order[0]) + CountSum(order[1..], values)
  }

  function TotalSum(order: seq<PropertyKey>, values: map<PropertyKey, Bucket>): real {
    if order == [] then 0.0 else TotalIn(values, order[0]) + TotalSum(order[1..], values)
  }

  lemma {:induction false} SumsUpdate(order: seq<PropertyKey>, values: map<PropertyKey, Bucket>, k: PropertyKey, b: Bucket)
    requires Distinct(order)
    ensures k in order ==> CountSum(order, values[k := b]) == CountSum(order, values) - CountIn(values, k) + b.c
    ensures k in order ==> TotalSum(order, values[k := b]) == TotalSum(order, values) - TotalIn(values, k) + b.t
    ensures k !in order ==> CountSum(order, values[k := b]) == CountSum(order, values)
    ensures k !in order ==> TotalSum(order, values[k := b]) == TotalSum(order, values)
  {
    if order != [] {
      assert Distinct(order[1..]) by {
        forall i, j | 0 <= i < j < |order[1..]| ensures order[1..][i] != order[1..][j] {
          assert order[1..][i] == order[i + 1] && order[1..][j] == order[j + 1];
        }
      }
      SumsUpdate(order[1..], values, k, b);
      if order[0] == k {
        assert k !in order[1..] by {
          forall i | 0 <= i < |order[1..]| ensures order[1..][i] != k { assert order[1..][i] == order[i + 1]; }
        }
      }
    }
  }

  lemma {:induction false} SumsAppend(order: seq<PropertyKey>, k: PropertyKey, values: map<PropertyKey, Bucket>)
    ensures CountSum(order + [k], values) == CountSum(order, values) + CountIn(values, k)
    ensures TotalSum(order + [k], values) == TotalSum(order, values) + TotalIn(values, k)
  {
    if order != [] {
      assert (order + [k])[1..] == order[1..] + [k];
      SumsAppend(order[1..], k, values);
    }
  }

  lemma {:induction false} SumsInsert(order: seq<PropertyKey>, n: nat, values: map<PropertyKey, Bucket>)
    requires WellOrdered(order) && IndexKey(n) !in order
    ensures CountSum(InsertIndex(order, n), values) == CountSum(order, values) + CountIn(values, IndexKey(n))
    ensures TotalSum(InsertIndex(order, n), values) == TotalSum(order, values) + TotalIn(values, IndexKey(n))
  {
    if !(order == [] || Precedes(IndexKey(n), order[0])) {
      assert WellOrdered(order[1..]) by {
        forall i, j | 0 <= i < j < |order[1..]| ensures Precedes(order[1..][i], order[1..][j]) {
          assert order[1..][i] == order[i + 1] && order[1..][j] == order[j + 1];
        }
      }
      SumsInsert(order[1..], n, values);
      var r := InsertIndex(order, n);
      assert r == [order[0]] + InsertIndex(order[1..], n);
      assert r[1..] == InsertIndex(order[1..], n);
    } else {
      var r := InsertIndex(order, n);
      assert r[1..] == order;
    }
  }

  lemma BumpSums(s: Stats, k: PropertyKey, time: real)
    requires s.Valid()
    ensures CountSum(Bump(s, k, time).order, Bump(s, k, time).values) == CountSum(s.order, s.values) + 1
    ensures TotalSum(Bump(s, k, time).order, Bump(s, k, time).values) == TotalSum(s.order, s.values) + time
  {
    WellOrderedDistinct(s.order);
    var b := if k in s.values then s.values[k] else Bucket(0, 0.0);
    var nb := Bucket(b.c + 1, b.t + time);
    SumsUpdate(s.order, s.values, k, nb);
    if k !in s.values {
      match k
      case NameKey(_) => SumsAppend(s.order, k, s.values[k := nb]);
      case IndexKey(n) => SumsInsert(s.order, n, s.values[k := nb]);
    }
  }

  lemma {:induction false} BumpAllSums(s: Stats, keys: seq<PropertyKey>, time: real)
    requires s.Valid()
    ensures CountSum(BumpAll(s, keys, time).order, BumpAll(s, keys, time).values) == CountSum(s.order, s.values) + |keys|
    ensures TotalSum(BumpAll(s, keys, time).order, BumpAll(s, keys, time).values) == TotalSum(s.order, s.values) + Repeat(|keys|, time)
    decreases |keys|
  {
    if keys != [] {
      BumpSums(s, keys[0], time);
      BumpAllSums(Bump(s, keys[0], time), keys[1..], time);
    }
  }

  /** Over all buckets together, a fold adds one to the counts per increment and
      each result's time once per increment. */
  lemma {:induction false} TallySums(init: Stats, rs: seq<Result>, keysOf: Result -> seq<PropertyKey>)
    requires init.Valid()
    ensures CountSum(Tally(init, rs, keysOf).order, Tally(init, rs, keysOf).values) == CountSum(init.order, init.values) + Increments(rs, keysOf)
    ensures TotalSum(Tally(init, rs, keysOf).order, Tally(init, rs, keysOf).values) == TotalSum(init.order, init.values) + IncrementTime(rs, keysOf)
    decreases |rs|
  {
    if rs != [] {
      var front, last := rs[..|rs| - 1], rs[|rs| - 1];
      TallySums(init, front, keysOf);
      BumpAllSums(Tally(init, front, keysOf), keysOf(last), last.time);
    }
  }

  // Which keys a fold creates, and in which order.

  /** Every key the results feed, in the order they feed them. */
  function KeyStream(rs: seq<Result>, keysOf: Result -> seq<PropertyKey>): seq<PropertyKey>
    decreases |rs|
  {
    if rs == [] then [] else KeyStream(rs[..|rs| - 1], keysOf) + keysOf(rs[|rs| - 1])
  }

  /** The keys of `xs` in the order of their first appearance. */
  function FirstOccurrences(xs: seq<PropertyKey>): seq<PropertyKey>
    decreases |xs|
  {
    if xs == [] then []
    else
      var front, last := xs[..|xs| - 1], xs[|xs| - 1];
      if last in front then FirstOccurrences(front) else FirstOccurrences(front) + [last]
  }

  /** Each key appears in the first-occurrence order exactly when it appears at all. */
  lemma {:induction false} FirstOccurrencesMembers(xs: seq<PropertyKey>, k: PropertyKey)
    ensures k in FirstOccurrences(xs) <==> k in xs
    decreases |xs|
  {
    if xs != [] {
      var front, last := xs[..|xs| - 1], xs[|xs| - 1];
      assert xs == front + [last];
      FirstOccurrencesMembers(front, k);
    }
  }

  lemma {:induction false} KeyStreamMember(rs: seq<Result>, keysOf: Result -> seq<PropertyKey>, k: PropertyKey)
    ensures k in KeyStream(rs, keysOf) <==> exists i :: 0 <= i < |rs| && k in keysOf(rs[i])
    decreases |rs|
  {
    if rs != [] {
      var front := rs[..|rs| - 1];
      KeyStreamMember(front, keysOf, k);
      if k in keysOf(rs[|rs| - 1]) {
        assert 0 <= |rs| - 1 < |rs| && k in keysOf(rs[|rs| - 1]);
      }
      if exists i :: 0 <= i < |rs| && k in keysOf(rs[i]) {
        var i :| 0 <= i < |rs| && k in keysOf(rs[i]);
        if i < |rs| - 1 {
          assert rs[i] == front[i];
        }
      }
    }
  }

  /** A fold creates exactly the buckets of the keys the results feed. */
  lemma {:induction false} TallyKeys(init: Stats, rs: seq<Result>, keysOf: Result -> seq<PropertyKey>, k: PropertyKey)
    requires init.Valid()
    ensures k in Tally(init, rs, keysOf).values <==> k in init.values || k in KeyStream(rs, keysOf)
    decreases |rs|
  {
    if rs != [] {
      var front, last := rs[..|rs| - 1], rs[|rs| - 1];
      TallyKeys(init, front, keysOf, k);
      BumpAllBuckets(Tally(init, front, keysOf), keysOf(last), last.time, k);
    }
  }

  lemma {:induction false} BumpAllKeepsOrder(s: Stats, keys: seq<PropertyKey>, time: real)
    requires s.Valid()
    requires forall k :: k in keys ==> k in s.values
    ensures BumpAll(s, keys, time).order == s.order
    ensures BumpAll(s, keys, time).values.Keys == s.values.Keys
    decreases |keys|
  {
    if keys != [] {
      BumpAllKeepsOrder(Bump(s, keys[0], time), keys[1..], time);
    }
  }

  /** A fold that only feeds keys it starts with keeps their order. */
  lemma {:induction false} TallyKeepsOrder(init: Stats, rs: seq<Result>, keysOf: Result -> seq<PropertyKey>)
    requires init.Valid()
    requires forall r, k :: k in keysOf(r) ==> k in init.values
    ensures Tally(init, rs, keysOf).order == init.order
    ensures Tally(init, rs, keysOf).values.Keys == init.values.Keys
    decreases |rs|
  {
    if rs != [] {
      var front, last := rs[..|rs| - 1], rs[|rs| - 1];
      TallyKeepsOrder(init, front, keysOf);
      BumpAllKeepsOrder(Tally(init, front, keysOf), keysOf(last), last.time);
    }
  }

  lemma BumpNameOrder(s: Stats, xs: seq<PropertyKey>, k: PropertyKey, time: real)
    requires s.Valid() && s.order == FirstOccurrences(xs) && k.NameKey?
    ensures Bump(s, k, time).order == FirstOccurrences(xs + [k])
  {
    var xs' := xs + [k];
    assert xs'[..|xs'| - 1] == xs;
    FirstOccurrencesMembers(xs, k);
    assert k in s.values <==> k in xs;
    if k in xs {
      assert Bump(s, k, time).order == s.order;
    } else {
      assert Bump(s, k, time).order == s.order + [k];
    }
  }

  lemma {:induction false} BumpAllNameOrder(s: Stats, xs: seq<PropertyKey>, keys: seq<PropertyKey>, time: real)
    requires s.Valid()
    requires s.order == FirstOccurrences(xs)
    requires forall k :: k in keys ==> k.NameKey?
    ensures BumpAll(s, keys, time).order == FirstOccurrences(xs + keys)
    decreases |keys|
  {
    if keys == [] {
      assert xs + keys == xs;
    } else {
      var k, rest := keys[0], keys[1..];
      assert keys == [k] + rest;
      BumpNameOrder(s, xs, k, time);
      BumpAllNameOrder(Bump(s, k, time), xs + [k], rest, time);
      AppendAssociates(xs, k, rest);
    }
  }

  lemma AppendAssociates(xs: seq<PropertyKey>, k: PropertyKey, rest: seq<PropertyKey>)
    ensures (xs + [k]) + rest == xs + ([k] + rest)
  {
  }

  /** A fold from an empty object that feeds only name keys lists them in the
      order results first fed them. */
  lemma {:induction false} TallyNameOrder(rs: seq<Result>, keysOf: Result -> seq<PropertyKey>)
    requires forall r, k :: k in keysOf(r) ==> k.NameKey?
    ensures Tally(Empty(), rs, keysOf).order == FirstOccurrences(KeyStream(rs, keysOf))
    decreases |rs|
  {
    if rs != [] {
      var front, last := rs[..|rs| - 1], rs[|rs| - 1];
      TallyNameOrder(front, keysOf);
      var ks := keysOf(last);
      BumpAllNameOrder(Tally(Empty(), front, keysOf), KeyStream(front, keysOf), ks, last.time);
    }
  }
}
