/** `findSlowest(stats, minOccurrences)`: the bucket with the highest average
    time among those used at least `minOccurrences` times, the first one in
    `Object.keys` order winning a tie. */
module Slowest {
  import opened Text
  import opened JsObject
  import opened Buckets

  /** `{ name, average }` */
  datatype Slowest = Slowest(name: string, average: real)

  /** `minOccurrences || 1`: an absent or zero threshold becomes 1. */
  function Threshold(minOccurrences: Option<nat>): (th: nat)
    ensures th >= 1
    ensures minOccurrences == None || minOccurrences == Some(0) ==> th == 1
    ensures minOccurrences.Some? && minOccurrences.value > 0 ==> th == minOccurrences.value
  {
    match minOccurrences
    case None => 1
    case Some(n) => if n == 0 then 1 else n
  }

  /** The key at position `i` of `Object.keys(stats)` has been seen at least `th >= 1` times. */
  predicate QualifiesAt(stats: Stats, th: nat, i: int) {
    && th >= 1
    && 0 <= i < |stats.order|
    && stats.order[i] in stats.values
    && stats.values[stats.order[i]].c >= th
  }

  /** `item.t / item.c` */
  function AverageAt(stats: Stats, th: nat, i: int): real
    requires QualifiesAt(stats, th, i)
  {
    stats.values[stats.order[i]].t / (stats.values[stats.order[i]].c as real)
  }

  /** Position `i` holds the first highest average among the qualifying
      keys, and that average beats the starting `maxAvg` of -1. */
  predicate FirstSlowestAt(stats: Stats, th: nat, i: int) {
    && QualifiesAt(stats, th, i)
    && AverageAt(stats, th, i) > -1.0
    && (forall j :: 0 <= j < |stats.order| && QualifiesAt(stats, th, j) ==> AverageAt(stats, th, j) <= AverageAt(stats, th, i))
    && (forall j :: 0 <= j < i && QualifiesAt(stats, th, j) ==> AverageAt(stats, th, j) < AverageAt(stats, th, i))
  }

  /** `slowest` is null exactly when no qualifying average exceeds -1, and
      otherwise names the first key with the highest average. */
  ghost predicate IsSlowest(stats: Stats, th: nat, slowest: Option<Slowest>) {
    && (slowest.None? <==> forall i :: QualifiesAt(stats, th, i) ==> AverageAt(stats, th, i) <= -1.0)
    && (slowest.Some? ==>
          exists i :: (FirstSlowestAt(stats, th, i)
            && slowest.value == Slowest(KeyString(stats.order[i]), AverageAt(stats, th, i))))
  }

  /** `findSlowest(stats, minOccurrences)`: null exactly when no qualifying
      average exceeds -1; otherwise the first key with the highest average. */
  method FindSlowest(stats: Stats, minOccurrences: Option<nat>) returns (slowest: Option<Slowest>)
    requires stats.Valid()
    ensures IsSlowest(stats, Threshold(minOccurrences), slowest)
  {
    var th := Threshold(minOccurrences);
    slowest := None;
    var maxAvg := -1.0;
    ghost var w := -1;
    var i := 0;
    while i < |stats.order|
      invariant 0 <= i <= |stats.order|
      invariant slowest.None? ==> w == -1 && maxAvg == -1.0
      invariant forall j :: 0 <= j < i && QualifiesAt(stats, th, j) ==> AverageAt(stats, th, j) <= maxAvg
      invariant slowest.Some? ==>
        && 0 <= w < i && QualifiesAt(stats, th, w)
        && maxAvg == AverageAt(stats, th, w) > -1.0
        && slowest.value == Slowest(KeyString(stats.order[w]), maxAvg)
        && (forall j :: 0 <= j < w && QualifiesAt(stats, th, j) ==> AverageAt(stats, th, j) < maxAvg)
    {
      var key := stats.order[i];
      var item := stats.values[key];
      if item.c >= th {
        var avg := item.t / (item.c as real);
        assert avg == AverageAt(stats, th, i);
        if avg > maxAvg {
          maxAvg := avg;
          slowest := Some(Slowest(KeyString(key), avg));
          w := i;
        }
      }
      i := i + 1;
    }
    if slowest.Some? {
      assert FirstSlowestAt(stats, th, w);
    }
  }

  /** There is at most one first slowest key. */
  lemma FirstSlowestUnique(stats: Stats, th: nat, i: int, j: int)
    requires FirstSlowestAt(stats, th, i) && FirstSlowestAt(stats, th, j)
    ensures i == j
  {
  }

  /** Averages of non-negative times are never at or below -1, so with such
      times a winner exists exactly when some key qualifies. */
  lemma WinnerWhenNonNegative(stats: Stats, th: nat)
    requires forall k :: k in stats.values ==> stats.values[k].t >= 0.0
    ensures (forall i :: QualifiesAt(stats, th, i) ==> AverageAt(stats, th, i) <= -1.0)
      <==> (forall i :: !QualifiesAt(stats, th, i))
  {
    forall i | QualifiesAt(stats, th, i) ensures AverageAt(stats, th, i) >= 0.0 {
      var b := stats.values[stats.order[i]];
      assert b.t / (b.c as real) >= 0.0;
    }
  }
}
