/** Histogram buckets: counting on the way in, cumulating on the way out, and the quantile read from them.

    Observed values and bounds are real numbers. */
module Histograms {

  type Labels = seq<(string, string)>

  const DEFAULT_BOUNDS: seq<real> := [0.001, 0.005, 0.01, 0.025, 0.05, 0.1, 0.25, 0.5, 1.0, 2.0, 5.0]

  datatype Series = Series(name: string, labels: Labels, bounds: seq<real>, counts: seq<nat>, count: nat, sum: real)

  /** One call of Observe. */
  datatype Observation = Observation(name: string, labels: Labels, value: real, bounds: seq<real>)

  ghost predicate Ascending(bounds: seq<real>) {
    forall i, j :: 0 <= i < j < |bounds| ==> bounds[i] < bounds[j]
  }

  function Clamped(value: real): real {
    if value < 0.0 then 0.0 else value
  }

  // ------------------------------------------------------------------ what the buckets stand for

  /** The clamped values observed for one series, in order. */
  function ValuesFor(log: seq<Observation>, name: string, labels: Labels): seq<real> {
    if log == [] then []
    else
      var o := log[|log| - 1];
      ValuesFor(log[..|log| - 1], name, labels)
      + if o.name == name && o.labels == labels then [Clamped(o.value)] else []
  }

  function CountAtMost(values: seq<real>, bound: real): nat {
    if values == [] then 0
    else CountAtMost(values[..|values| - 1], bound) + if values[|values| - 1] <= bound then 1 else 0
  }

  function Sum(values: seq<real>): real {
    if values == [] then 0.0 else Sum(values[..|values| - 1]) + values[|values| - 1]
  }

  function Cumulative(counts: seq<nat>): nat {
    if counts == [] then 0 else Cumulative(counts[..|counts| - 1]) + counts[|counts| - 1]
  }

  /** What is exported for the buckets up to `bounds[k]` is how many values lie at or below it. */
  ghost predicate Refines(s: Series, values: seq<real>) {
    && |s.counts| == |s.bounds|
    && s.count == |values|
    && s.sum == Sum(values)
    && (Ascending(s.bounds) ==>
          forall k :: 0 <= k < |s.bounds| ==> Cumulative(s.counts[..k + 1]) == CountAtMost(values, s.bounds[k]))
  }

  lemma {:induction false} CumulativeOfZeros(n: nat)
    ensures Cumulative(seq(n, _ => 0)) == 0
  {
    if n > 0 {
      assert seq(n, _ => 0)[..n - 1] == seq(n - 1, _ => 0);
      CumulativeOfZeros(n - 1);
    }
  }

  lemma {:induction false} CumulativeIncrement(counts: seq<nat>, i: nat)
    requires i < |counts|
    ensures Cumulative(counts[i := counts[i] + 1]) == Cumulative(counts) + 1
  {
    var n := |counts| - 1;
    if i < n {
      CumulativeIncrement(counts[..n], i);
      assert counts[i := counts[i] + 1][..n] == counts[..n][i := counts[i] + 1];
    } else {
      assert counts[i := counts[i] + 1][..n] == counts[..n];
    }
  }

  lemma CountMore(values: seq<real>, v: real, bound: real)
    ensures CountAtMost(values + [v], bound) == CountAtMost(values, bound) + if v <= bound then 1 else 0
    ensures Sum(values + [v]) == Sum(values) + v
  {
    assert (values + [v])[..|values|] == values;
  }

  /** `first` is the least index whose bound is not below `v`. */
  ghost predicate IsLowerBound(bounds: seq<real>, v: real, first: nat) {
    && first <= |bounds|
    && (forall i :: 0 <= i < first ==> bounds[i] < v)
    && (forall i :: first <= i < |bounds| ==> v <= bounds[i])
  }

  function Observed(s: Series, v: real, first: nat): Series
    requires |s.counts| == |s.bounds|
  {
    s.(count := s.count + 1, sum := s.sum + v,
       counts := if first < |s.counts| then s.counts[first := s.counts[first] + 1] else s.counts)
  }

  lemma ObservedRefines(s: Series, values: seq<real>, v: real, first: nat)
    requires Refines(s, values) && (Ascending(s.bounds) ==> IsLowerBound(s.bounds, v, first))
    ensures Refines(Observed(s, v, first), values + [v])
  {
    var q := Observed(s, v, first);
    CountMore(values, v, 0.0);
    if Ascending(s.bounds) {
      forall k | 0 <= k < |q.bounds| ensures Cumulative(q.counts[..k + 1]) == CountAtMost(values + [v], q.bounds[k]) {
        CountMore(values, v, q.bounds[k]);
        if first <= k {
          CumulativeIncrement(s.counts[..k + 1], first);
          assert q.counts[..k + 1] == s.counts[..k + 1][first := s.counts[first] + 1];
        } else {
          assert q.counts[..k + 1] == s.counts[..k + 1];
        }
      }
    }
  }

  function NewSeries(name: string, labels: Labels, bounds: seq<real>): Series {
    Series(name, labels, bounds, seq(|bounds|, _ => 0), 0, 0.0)
  }

  lemma NewSeriesRefines(name: string, labels: Labels, bounds: seq<real>)
    ensures Refines(NewSeries(name, labels, bounds), [])
  {
    var s := NewSeries(name, labels, bounds);
    forall k | 0 <= k < |s.bounds| ensures Cumulative(s.counts[..k + 1]) == CountAtMost([], s.bounds[k]) {
      CumulativeOfZeros(k + 1);
      assert s.counts[..k + 1] == seq(k + 1, _ => 0);
    }
  }

  // ------------------------------------------------------------------ the registry

  predicate IsFor(s: Series, name: string, labels: Labels) {
    s.name == name && s.labels == labels
  }

  ghost predicate Distinct(all: seq<Series>) {
    forall i, j :: 0 <= i < j < |all| ==> !IsFor(all[i], all[j].name, all[j].labels)
  }

  ghost predicate AllRefine(all: seq<Series>, log: seq<Observation>) {
    forall i :: 0 <= i < |all| ==> Refines(all[i], ValuesFor(log, all[i].name, all[i].labels))
  }

  ghost predicate Registered(all: seq<Series>, name: string, labels: Labels) {
    exists i :: 0 <= i < |all| && IsFor(all[i], name, labels)
  }

  ghost predicate AllRegistered(all: seq<Series>, log: seq<Observation>) {
    forall o :: o in log ==> Registered(all, o.name, o.labels)
  }

  class MetricsRegistry {
    var histograms: seq<Series>
    ghost var log: seq<Observation>

    /** One series for each name and label set, standing for exactly the values observed under them. */
    ghost predicate Valid()
      reads this
    {
      Distinct(histograms) && AllRefine(histograms, log) && AllRegistered(histograms, log)
    }

    constructor ()
      ensures Valid() && histograms == [] && log == []
    {
      histograms, log := [], [];
    }

    /** A value under a name and labels; the bounds given first for them stay. */
    method Observe(name: string, labels: Labels, value: real, bounds: seq<real>)
      requires Valid()
      modifies this
      ensures Valid() && log == old(log) + [Observation(name, labels, value, bounds)]
      ensures OthersStay(old(histograms), histograms, name, labels)
    {
      ghost var before := histograms;
      var target := FindOrCreate(name, labels, bounds);
      var v := if value < 0.0 then 0.0 else value;
      var first := LowerBound(histograms[target].bounds, v);
      ObservedKeeps(before, histograms, log, Observation(name, labels, value, bounds), target, first);
      histograms := histograms[target := Observed(histograms[target], v, first)];
      log := log + [Observation(name, labels, value, bounds)];
    }

    method FindOrCreate(name: string, labels: Labels, bounds: seq<real>) returns (target: nat)
      requires Valid()
      modifies this`histograms
      ensures Valid() && target < |histograms| && IsFor(histograms[target], name, labels)
      ensures old(histograms) <= histograms
      ensures |histograms| > |old(histograms)| ==>
        histograms == old(histograms) + [NewSeries(name, labels, if bounds == [] then DEFAULT_BOUNDS else bounds)]
    {
      target := 0;
      while target < |histograms|
        invariant 0 <= target <= |histograms|
        invariant forall i :: 0 <= i < target ==> !IsFor(histograms[i], name, labels)
      {
        if histograms[target].name == name && histograms[target].labels == labels {
          return;
        }
        target := target + 1;
      }
      var requested := if bounds == [] then DEFAULT_BOUNDS else bounds;
      NewSeriesKeeps(histograms, log, name, labels, requested);
      histograms := histograms + [NewSeries(name, labels, requested)];
    }

    /** The exported buckets of a series: a running total, one number for each bound. */
    method Export(i: nat) returns (buckets: seq<nat>, total: nat)
      requires Valid() && i < |histograms|
      ensures |buckets| == |histograms[i].bounds|
      ensures var values := ValuesFor(log, histograms[i].name, histograms[i].labels);
        && total == |values|
        && (Ascending(histograms[i].bounds) ==>
              forall k :: 0 <= k < |buckets| ==> buckets[k] == CountAtMost(values, histograms[i].bounds[k]))
    {
      var s := histograms[i];
      buckets := [];
      var cumulative, k := 0, 0;
      while k < |s.bounds|
        invariant 0 <= k <= |s.bounds| && |buckets| == k
        invariant cumulative == Cumulative(s.counts[..k])
        invariant forall m :: 0 <= m < k ==> buckets[m] == Cumulative(s.counts[..m + 1])
      {
        assert s.counts[..k + 1][..k] == s.counts[..k];
        cumulative := cumulative + s.counts[k];
        buckets := buckets + [cumulative];
        k := k + 1;
      }
      total := s.count;
    }
  }

  /** Binary search for the first bound not below `v`. */
  method LowerBound(bounds: seq<real>, v: real) returns (first: nat)
    ensures Ascending(bounds) ==> IsLowerBound(bounds, v, first)
  {
    var length := |bounds|;
    first := 0;
    while length > 0
      invariant 0 <= length && first + length <= |bounds|
      invariant Ascending(bounds) ==> forall i :: 0 <= i < first ==> bounds[i] < v
      invariant Ascending(bounds) ==> forall i :: first + length <= i < |bounds| ==> v <= bounds[i]
    {
      var half := length / 2;
      if bounds[first + half] < v {
        first := first + half + 1;
        length := length - half - 1;
      } else {
        length := half;
      }
    }
  }

  lemma {:induction false} NothingObserved(log: seq<Observation>, name: string, labels: Labels)
    requires forall o :: o in log ==> !(o.name == name && o.labels == labels)
    ensures ValuesFor(log, name, labels) == []
  {
    if log != [] {
      NothingObserved(log[..|log| - 1], name, labels);
    }
  }

  lemma ValuesMore(log: seq<Observation>, o: Observation, name: string, labels: Labels)
    ensures ValuesFor(log + [o], name, labels)
      == if o.name == name && o.labels == labels then ValuesFor(log, name, labels) + [Clamped(o.value)]
         else ValuesFor(log, name, labels)
  {
    assert (log + [o])[..|log|] == log;
    assert ValuesFor(log, name, labels) + [] == ValuesFor(log, name, labels);
  }

  /** The observations made of one series, by when they were made. */
  ghost function ObservedOf(log: seq<Observation>, name: string, labels: Labels): set<int> {
    set k | 0 <= k < |log| && log[k].name == name && log[k].labels == labels
  }

  /** Made of that series at or below `bound`; nothing lies below zero, a negative observation neither. */
  predicate IsAtMost(o: Observation, name: string, labels: Labels, bound: real) {
    o.name == name && o.labels == labels && o.value <= bound && 0.0 <= bound
  }

  ghost function ObservedAtMost(log: seq<Observation>, name: string, labels: Labels, bound: real): set<int> {
    set k | 0 <= k < |log| && IsAtMost(log[k], name, labels, bound)
  }

  lemma OneMoreObserved(log: seq<Observation>, o: Observation, name: string, labels: Labels)
    ensures ObservedOf(log + [o], name, labels)
      == ObservedOf(log, name, labels) + if o.name == name && o.labels == labels then {|log|} else {}
    ensures |ObservedOf(log + [o], name, labels)|
      == |ObservedOf(log, name, labels)| + if o.name == name && o.labels == labels then 1 else 0
  {
    var more := log + [o];
    forall k ensures k in ObservedOf(more, name, labels)
                     <==> k in ObservedOf(log, name, labels)
                          + if o.name == name && o.labels == labels then {|log|} else {}
    {
      if 0 <= k < |log| {
        assert more[k] == log[k];
      }
    }
  }

  lemma OneMoreAtMost(log: seq<Observation>, o: Observation, name: string, labels: Labels, bound: real)
    ensures |ObservedAtMost(log + [o], name, labels, bound)|
      == |ObservedAtMost(log, name, labels, bound)| + if IsAtMost(o, name, labels, bound) then 1 else 0
  {
    var more, before := ObservedAtMost(log + [o], name, labels, bound), ObservedAtMost(log, name, labels, bound);
    assert forall k :: 0 <= k < |log| ==> (log + [o])[k] == log[k];
    assert (log + [o])[|log|] == o && |log| !in before;
    if IsAtMost(o, name, labels, bound) {
      assert more == before + {|log|};
    } else {
      assert more == before;
    }
  }

  /** What is counted for a series is how many observations were made of it, and how many at or below `bound`. */
  lemma {:induction false} CountsTheObservations(log: seq<Observation>, name: string, labels: Labels, bound: real)
    ensures var values := ValuesFor(log, name, labels);
      && |values| == |ObservedOf(log, name, labels)|
      && CountAtMost(values, bound) == |ObservedAtMost(log, name, labels, bound)|
    decreases |log|
  {
    if log == [] {
      assert ObservedOf(log, name, labels) == {} && ObservedAtMost(log, name, labels, bound) == {};
    } else {
      var before, o := log[..|log| - 1], log[|log| - 1];
      assert log == before + [o];
      CountsTheObservations(before, name, labels, bound);
      ValuesMore(before, o, name, labels);
      CountMore(ValuesFor(before, name, labels), Clamped(o.value), bound);
      OneMoreObserved(before, o, name, labels);
      OneMoreAtMost(before, o, name, labels, bound);
    }
  }

  /** The sum of a series grows by each positive observation of it and by nothing else. */
  lemma SumsThePositive(log: seq<Observation>, o: Observation, name: string, labels: Labels)
    ensures Sum(ValuesFor(log + [o], name, labels)) == Sum(ValuesFor(log, name, labels))
      + if o.name == name && o.labels == labels && o.value > 0.0 then o.value else 0.0
  {
    ValuesMore(log, o, name, labels);
    CountMore(ValuesFor(log, name, labels), Clamped(o.value), 0.0);
  }

  lemma NewSeriesKeeps(all: seq<Series>, log: seq<Observation>, name: string, labels: Labels, bounds: seq<real>)
    requires Distinct(all) && AllRefine(all, log) && AllRegistered(all, log)
    requires forall i :: 0 <= i < |all| ==> !IsFor(all[i], name, labels)
    ensures var more := all + [NewSeries(name, labels, bounds)];
      Distinct(more) && AllRefine(more, log) && AllRegistered(more, log)
  {
    var more := all + [NewSeries(name, labels, bounds)];
    forall o | o in log ensures !(o.name == name && o.labels == labels) && Registered(more, o.name, o.labels) {
      assert Registered(all, o.name, o.labels);
      var i :| 0 <= i < |all| && IsFor(all[i], o.name, o.labels);
      assert more[i] == all[i];
    }
    NothingObserved(log, name, labels);
    NewSeriesRefines(name, labels, bounds);
  }

  /** The series before are still there under their names and bounds; only the one observed may differ. */
  ghost predicate OthersStay(before: seq<Series>, after: seq<Series>, name: string, labels: Labels) {
    && |before| <= |after|
    && forall i :: 0 <= i < |before| ==>
         && after[i].bounds == before[i].bounds
         && IsFor(after[i], before[i].name, before[i].labels)
         && (!IsFor(before[i], name, labels) ==> after[i] == before[i])
  }

  lemma ObservedKeeps(before: seq<Series>, all: seq<Series>, log: seq<Observation>, o: Observation, target: nat,
                      first: nat)
    requires Distinct(all) && AllRefine(all, log) && AllRegistered(all, log) && before <= all
    requires target < |all| && IsFor(all[target], o.name, o.labels)
    requires Ascending(all[target].bounds) ==> IsLowerBound(all[target].bounds, Clamped(o.value), first)
    ensures |all[target].counts| == |all[target].bounds|
    ensures var after := all[target := Observed(all[target], Clamped(o.value), first)];
      && Distinct(after) && AllRefine(after, log + [o]) && AllRegistered(after, log + [o])
      && OthersStay(before, after, o.name, o.labels)
  {
    assert Refines(all[target], ValuesFor(log, o.name, o.labels));
    var s := Observed(all[target], Clamped(o.value), first);
    ObservedRefines(all[target], ValuesFor(log, o.name, o.labels), Clamped(o.value), first);
    ValuesMore(log, o, o.name, o.labels);
    OneMoreRefines(all, log, o, target, s);
    OneMoreRegistered(all, log, o, target, s);
  }

  lemma OneMoreRefines(all: seq<Series>, log: seq<Observation>, o: Observation, target: nat, s: Series)
    requires Distinct(all) && AllRefine(all, log)
    requires target < |all| && IsFor(all[target], o.name, o.labels) && IsFor(s, o.name, o.labels)
    requires Refines(s, ValuesFor(log + [o], o.name, o.labels))
    ensures AllRefine(all[target := s], log + [o])
  {
    var after := all[target := s];
    forall i | 0 <= i < |after| ensures Refines(after[i], ValuesFor(log + [o], after[i].name, after[i].labels)) {
      if i != target {
        ValuesMore(log, o, all[i].name, all[i].labels);
        assert !IsFor(all[i], o.name, o.labels);
      }
    }
  }

  lemma OneMoreRegistered(all: seq<Series>, log: seq<Observation>, o: Observation, target: nat, s: Series)
    requires AllRegistered(all, log)
    requires target < |all| && IsFor(all[target], o.name, o.labels) && IsFor(s, o.name, o.labels)
    ensures AllRegistered(all[target := s], log + [o])
  {
    var after := all[target := s];
    forall p | p in log + [o] ensures Registered(after, p.name, p.labels) {
      assert Registered(all, p.name, p.labels);
      var i :| 0 <= i < |all| && IsFor(all[i], p.name, p.labels);
      assert IsFor(after[i], p.name, p.labels);
    }
  }

  // ------------------------------------------------------------------ reading a quantile

  datatype Bucket = Bucket(le: real, cumulative: real)

  datatype Quantile = NotANumber | Infinite | Value(v: real)

  function FirstReaching(buckets: seq<Bucket>, target: real): (r: nat)
    ensures r <= |buckets|
    ensures r < |buckets| ==> buckets[r].cumulative >= target
    ensures forall i :: 0 <= i < r ==> buckets[i].cumulative < target
  {
    if buckets == [] then 0
    else if buckets[0].cumulative >= target then 0
    else 1 + FirstReaching(buckets[1..], target)
  }

  function LowerEdge(buckets: seq<Bucket>, i: nat): real
    requires i < |buckets|
  {
    if i == 0 then 0.0 else buckets[i - 1].le
  }

  function CountBefore(buckets: seq<Bucket>, i: nat): real
    requires i < |buckets|
  {
    if i == 0 then 0.0 else buckets[i - 1].cumulative
  }

  function Between(lo: real, hi: real, part: real, whole: real): real {
    if whole <= 0.0 then hi else lo + (hi - lo) * part / whole
  }

  /** The value at a rank. */
  function AtRank(buckets: seq<Bucket>, target: real): Quantile {
    var i := FirstReaching(buckets, target);
    if i == |buckets| then Infinite
    else Value(Between(LowerEdge(buckets, i), buckets[i].le,
                       target - CountBefore(buckets, i), buckets[i].cumulative - CountBefore(buckets, i)))
  }

  function Rank(q: real, total: real): real {
    q * total
  }

  function QuantileOf(buckets: seq<Bucket>, total: real, q: real): Quantile {
    if total <= 0.0 then NotANumber else AtRank(buckets, Rank(q, total))
  }

  method QuantileFromBuckets(buckets: seq<Bucket>, total: real, q: real) returns (r: Quantile)
    ensures r == QuantileOf(buckets, total, q)
  {
    if total <= 0.0 {
      return NotANumber;
    }
    var target := Rank(q, total);
    var previousLe, previousCount := 0.0, 0.0;
    var i := 0;
    while i < |buckets|
      invariant 0 <= i <= |buckets|
      invariant forall k :: 0 <= k < i ==> buckets[k].cumulative < target
      invariant i < |buckets| ==> previousLe == LowerEdge(buckets, i) && previousCount == CountBefore(buckets, i)
    {
      var b := buckets[i];
      if b.cumulative >= target {
        var span := b.cumulative - previousCount;
        if span <= 0.0 {
          return Value(b.le);
        }
        return Value(Between(previousLe, b.le, target - previousCount, span));
      }
      previousLe, previousCount := b.le, b.cumulative;
      i := i + 1;
    }
    return Infinite;
  }

  /** Buckets as the registry exports them: bounds ascending from zero, totals never falling. */
  ghost predicate Exported(buckets: seq<Bucket>) {
    && (forall i :: 0 <= i < |buckets| ==> buckets[i].le >= 0.0 && buckets[i].cumulative >= 0.0)
    && (forall i, j :: 0 <= i < j < |buckets| ==>
          buckets[i].le < buckets[j].le && buckets[i].cumulative <= buckets[j].cumulative)
  }

  lemma Divided(a: real, b: real, w: real)
    requires w > 0.0 && a <= b
    ensures a / w <= b / w
  {
    var x, y := a / w, b / w;
    assert x * w == a && y * w == b;
    assert (y - x) * w >= 0.0;
  }

  lemma Multiplied(a: real, b: real, w: real)
    requires w >= 0.0 && a <= b
    ensures a * w <= b * w
  {
    assert (b - a) * w >= 0.0;
  }

  lemma Shares(d: real, whole: real)
    requires whole > 0.0
    ensures d * whole / whole == d && d * 0.0 / whole == 0.0
  {
  }

  lemma BetweenGrows(lo: real, hi: real, a: real, b: real, whole: real)
    requires lo <= hi && a <= b && whole > 0.0
    ensures Between(lo, hi, a, whole) <= Between(lo, hi, b, whole)
  {
    Multiplied(a, b, hi - lo);
    Divided((hi - lo) * a, (hi - lo) * b, whole);
  }

  lemma BetweenBounds(lo: real, hi: real, part: real, whole: real)
    requires lo <= hi && 0.0 <= part <= whole
    ensures lo <= Between(lo, hi, part, whole) <= hi
  {
    if whole > 0.0 {
      BetweenGrows(lo, hi, 0.0, part, whole);
      BetweenGrows(lo, hi, part, whole, whole);
      Shares(hi - lo, whole);
      assert Between(lo, hi, 0.0, whole) == lo;
      assert Between(lo, hi, whole, whole) == hi;
    }
  }

  lemma RankIsInItsBucket(buckets: seq<Bucket>, target: real)
    requires Exported(buckets) && target >= 0.0
    ensures var i := FirstReaching(buckets, target);
      if i == |buckets| then
        && AtRank(buckets, target) == Infinite
        && forall k :: 0 <= k < |buckets| ==> buckets[k].cumulative < target
      else
        && AtRank(buckets, target).Value?
        && LowerEdge(buckets, i) <= AtRank(buckets, target).v <= buckets[i].le
        && target <= buckets[i].cumulative
        && (i > 0 ==> CountBefore(buckets, i) < target)
  {
    var i := FirstReaching(buckets, target);
    if i < |buckets| {
      BetweenBounds(LowerEdge(buckets, i), buckets[i].le, target - CountBefore(buckets, i),
                    buckets[i].cumulative - CountBefore(buckets, i));
    }
  }

  /** The quantile lies in the bucket that contains its rank: enough observations are at or below the
      bucket's upper bound, too few below the bucket, and the value is between its bounds. Without observations
      there is none. */
  lemma QuantileIsInItsBucket(buckets: seq<Bucket>, total: real, q: real)
    requires Exported(buckets) && 0.0 <= q
    ensures QuantileOf(buckets, total, q) == NotANumber <==> total <= 0.0
    ensures var i := FirstReaching(buckets, Rank(q, total));
      total > 0.0 ==>
        if i == |buckets| then
          && QuantileOf(buckets, total, q) == Infinite
          && forall k :: 0 <= k < |buckets| ==> buckets[k].cumulative < Rank(q, total)
        else
          && QuantileOf(buckets, total, q).Value?
          && LowerEdge(buckets, i) <= QuantileOf(buckets, total, q).v <= buckets[i].le
          && Rank(q, total) <= buckets[i].cumulative
          && (i > 0 ==> CountBefore(buckets, i) < Rank(q, total))
  {
    if total > 0.0 {
      Multiplied(0.0, q, total);
      RankIsInItsBucket(buckets, Rank(q, total));
    }
  }

  /** From `lo` to `hi`, `v` stands as far as `rank` does from `below` to `upTo`; at `hi` if these are level. */
  ghost predicate Stands(v: real, lo: real, hi: real, rank: real, below: real, upTo: real) {
    if upTo > below then (v - lo) * (upTo - below) == (hi - lo) * (rank - below) else v == hi
  }

  lemma ShareStands(lo: real, hi: real, rank: real, below: real, upTo: real)
    requires upTo > below
    ensures Stands(Between(lo, hi, rank - below, upTo - below), lo, hi, rank, below, upTo)
  {
    var x := (hi - lo) * (rank - below) / (upTo - below);
    assert x * (upTo - below) == (hi - lo) * (rank - below);
    assert Between(lo, hi, rank - below, upTo - below) - lo == x;
  }

  /** Within its bucket the quantile is as far from the lower bound, in proportion, as its rank is from the
      observations below the bucket. */
  lemma QuantileIsLinear(buckets: seq<Bucket>, total: real, q: real)
    requires Exported(buckets) && total > 0.0 && 0.0 <= q
    requires FirstReaching(buckets, q * total) < |buckets|
    ensures var i := FirstReaching(buckets, q * total);
      var lo, hi := if i == 0 then 0.0 else buckets[i - 1].le, buckets[i].le;
      var below, upTo := if i == 0 then 0.0 else buckets[i - 1].cumulative, buckets[i].cumulative;
      && QuantileOf(buckets, total, q).Value?
      && Stands(QuantileOf(buckets, total, q).v, lo, hi, q * total, below, upTo)
  {
    var i := FirstReaching(buckets, q * total);
    var lo, hi := LowerEdge(buckets, i), buckets[i].le;
    var below, upTo := CountBefore(buckets, i), buckets[i].cumulative;
    if upTo > below {
      ShareStands(lo, hi, q * total, below, upTo);
    }
  }

  predicate NotAbove(a: Quantile, b: Quantile) {
    b.Infinite? || (a.Value? && b.Value? && a.v <= b.v)
  }

  lemma RankIsMonotone(buckets: seq<Bucket>, s: real, t: real)
    requires Exported(buckets) && 0.0 <= s <= t
    ensures NotAbove(AtRank(buckets, s), AtRank(buckets, t))
  {
    var i, j := FirstReaching(buckets, s), FirstReaching(buckets, t);
    RankIsInItsBucket(buckets, s);
    RankIsInItsBucket(buckets, t);
    if j < |buckets| {
      assert i <= j;
      if i == j {
        SameBucket(buckets, i, s, t);
      } else {
        assert buckets[i].le <= LowerEdge(buckets, j);
      }
    }
  }

  lemma SameBucket(buckets: seq<Bucket>, i: nat, s: real, t: real)
    requires Exported(buckets) && i < |buckets| && s <= t
    ensures var c := CountBefore(buckets, i);
      Between(LowerEdge(buckets, i), buckets[i].le, s - c, buckets[i].cumulative - c)
      <= Between(LowerEdge(buckets, i), buckets[i].le, t - c, buckets[i].cumulative - c)
  {
    var c := CountBefore(buckets, i);
    if buckets[i].cumulative - c > 0.0 {
      BetweenGrows(LowerEdge(buckets, i), buckets[i].le, s - c, t - c, buckets[i].cumulative - c);
    }
  }

  /** A larger q never gives a smaller quantile. */
  lemma QuantileIsMonotone(buckets: seq<Bucket>, total: real, p: real, q: real)
    requires Exported(buckets) && total > 0.0 && 0.0 <= p <= q
    ensures NotAbove(QuantileOf(buckets, total, p), QuantileOf(buckets, total, q))
  {
    Multiplied(0.0, p, total);
    Multiplied(p, q, total);
    RankIsMonotone(buckets, Rank(p, total), Rank(q, total));
  }

  // ------------------------------------------------------------------ from observations to quantiles

  function BucketsOf(bounds: seq<real>, values: seq<real>): (r: seq<Bucket>)
    ensures |r| == |bounds|
    ensures forall k :: 0 <= k < |r| ==> r[k] == Bucket(bounds[k], CountAtMost(values, bounds[k]) as real)
  {
    seq(|bounds|, k requires 0 <= k < |bounds| => Bucket(bounds[k], CountAtMost(values, bounds[k]) as real))
  }

  lemma {:induction false} CountGrows(values: seq<real>, a: real, b: real)
    requires a <= b
    ensures CountAtMost(values, a) <= CountAtMost(values, b) <= |values|
  {
    if values != [] {
      CountGrows(values[..|values| - 1], a, b);
    }
  }

  /** `v` lies between bound `i` and the one before: at or below the upper one there are at least `target` of
      the values, at or below the lower one fewer. */
  predicate LiesIn(bounds: seq<real>, values: seq<real>, target: real, v: real, i: nat)
    requires i < |bounds|
  {
    && v <= bounds[i] && target <= CountAtMost(values, bounds[i]) as real
    && if i == 0 then 0.0 <= v
       else bounds[i - 1] <= v && (CountAtMost(values, bounds[i - 1]) as real) < target
  }

  /** Infinite means that no bound has `target` values at or below it. */
  ghost predicate Brackets(bounds: seq<real>, values: seq<real>, target: real, r: Quantile) {
    match r
    case NotANumber => false
    case Infinite => forall k :: 0 <= k < |bounds| ==> (CountAtMost(values, bounds[k]) as real) < target
    case Value(v) => exists i :: 0 <= i < |bounds| && LiesIn(bounds, values, target, v, i)
  }

  lemma RankBrackets(bounds: seq<real>, values: seq<real>, target: real)
    requires Ascending(bounds) && (forall k :: 0 <= k < |bounds| ==> bounds[k] >= 0.0) && target >= 0.0
    ensures Brackets(bounds, values, target, AtRank(BucketsOf(bounds, values), target))
  {
    var buckets := BucketsOf(bounds, values);
    BucketsAreExported(bounds, values);
    RankIsInItsBucket(buckets, target);
    var i := FirstReaching(buckets, target);
    if i < |bounds| {
      assert LiesIn(bounds, values, target, AtRank(buckets, target).v, i);
    } else {
      assert forall k :: 0 <= k < |bounds| ==> buckets[k].cumulative == CountAtMost(values, bounds[k]) as real;
    }
  }

  /** From the observations to the report: the quantile computed from the exported buckets of any values
      brackets their true quantile of that rank. */
  lemma ReportedQuantileBracketsTheTrueOne(bounds: seq<real>, values: seq<real>, q: real)
    requires Ascending(bounds) && (forall k :: 0 <= k < |bounds| ==> bounds[k] >= 0.0)
    requires values != [] && 0.0 <= q
    ensures var total := |values| as real;
      Brackets(bounds, values, Rank(q, total), QuantileOf(BucketsOf(bounds, values), total, q))
  {
    var total := |values| as real;
    Multiplied(0.0, q, total);
    RankBrackets(bounds, values, Rank(q, total));
  }

  lemma BucketsAreExported(bounds: seq<real>, values: seq<real>)
    requires Ascending(bounds) && forall k :: 0 <= k < |bounds| ==> bounds[k] >= 0.0
    ensures Exported(BucketsOf(bounds, values))
  {
    var buckets := BucketsOf(bounds, values);
    forall i, j | 0 <= i < j < |buckets|
      ensures buckets[i].le < buckets[j].le && buckets[i].cumulative <= buckets[j].cumulative
    {
      CountGrows(values, bounds[i], bounds[j]);
    }
  }
}
