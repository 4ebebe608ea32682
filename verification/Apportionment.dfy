/** Expanding weights into picks: largest-remainder apportionment, and the round-robin
    that keeps the classes from arriving in blocks. Keys are numbered in the order of
    their names, which is the order both the tie-break and the pools use. */
module Apportionment {

  // ---------------------------------------------------------------- sums

  function Sum(xs: seq<real>): real {
    if xs == [] then 0.0 else Sum(xs[..|xs| - 1]) + xs[|xs| - 1]
  }

  function SumInt(xs: seq<int>): int {
    if xs == [] then 0 else SumInt(xs[..|xs| - 1]) + xs[|xs| - 1]
  }

  function Abs(x: real): real { if x < 0.0 then -x else x }

  /** Total absolute deviation of a split from the exact quotas. */
  function Deviation(split: seq<int>, quotas: seq<real>): real
    requires |split| == |quotas|
  {
    if split == [] then 0.0
    else
      var n := |split| - 1;
      Deviation(split[..n], quotas[..n]) + Abs(split[n] as real - quotas[n])
  }

  // ------------------------------------------------------------ the shares

  predicate Positive(weights: seq<real>) {
    forall i :: 0 <= i < |weights| ==> weights[i] > 0.0
  }

  /** A weight's exact share of the count. */
  function Quota(count: real, weight: real, total: real): real
    requires total != 0.0
  {
    count * weight / total
  }

  function Quotas(weights: seq<real>, count: int): seq<real>
    requires Sum(weights) != 0.0 || weights == []
  {
    seq(|weights|, i requires 0 <= i < |weights| => Quota(count as real, weights[i], Sum(weights)))
  }

  function Floors(quotas: seq<real>): seq<int> {
    seq(|quotas|, i requires 0 <= i < |quotas| => quotas[i].Floor)
  }

  function Fraction(quotas: seq<real>, i: nat): real
    requires i < |quotas|
  {
    quotas[i] - quotas[i].Floor as real
  }

  /** The descending order of (fraction, name). */
  predicate Precedes(quotas: seq<real>, i: nat, j: nat)
    requires i < |quotas| && j < |quotas|
  {
    Fraction(quotas, i) > Fraction(quotas, j) || (Fraction(quotas, i) == Fraction(quotas, j) && i > j)
  }

  predicate IsOrder(quotas: seq<real>, order: seq<nat>) {
    && (forall t :: 0 <= t < |order| ==> order[t] < |quotas|)
    && (forall s, t :: 0 <= s < t < |order| ==> Precedes(quotas, order[s], order[t]))
  }

  function Insert(quotas: seq<real>, i: nat, order: seq<nat>): (r: seq<nat>)
    requires IsOrder(quotas, order) && i < |quotas| && i !in order
    ensures IsOrder(quotas, r) && |r| == |order| + 1
    ensures forall k :: k in r <==> k == i || k in order
  {
    if order == [] || Precedes(quotas, i, order[0]) then [i] + order
    else
      assert forall k :: k in order[1..] ==> k in order;
      var rest := Insert(quotas, i, order[1..]);
      assert forall t :: 0 <= t < |rest| ==> rest[t] in rest;
      [order[0]] + rest
  }

  /** The first `n` keys sorted by falling fraction. */
  function ByFraction(quotas: seq<real>, n: nat): (r: seq<nat>)
    requires n <= |quotas|
    ensures IsOrder(quotas, r) && |r| == n
    ensures forall k :: k in r <==> 0 <= k < n
  {
    if n == 0 then [] else Insert(quotas, n - 1, ByFraction(quotas, n - 1))
  }

  function Remainder(quotas: seq<real>, count: int): int { count - SumInt(Floors(quotas)) }

  /** One more for each of the given keys. */
  function Bumped(allocation: seq<int>, picks: seq<nat>): (r: seq<int>)
    requires forall t :: 0 <= t < |picks| ==> picks[t] < |allocation|
    ensures |r| == |allocation|
  {
    if picks == [] then allocation
    else
      var rest := Bumped(allocation, picks[..|picks| - 1]);
      var k := picks[|picks| - 1];
      rest[k := rest[k] + 1]
  }

  /** The keys that are rounded up; the slice is the whole order if it is shorter. */
  function RoundedUp(quotas: seq<real>, count: int): (r: seq<nat>)
    ensures forall t :: 0 <= t < |r| ==> r[t] < |quotas|
  {
    var order, extra := ByFraction(quotas, |quotas|), Remainder(quotas, count);
    if 0 <= extra <= |order| then order[..extra] else order
  }

  function Allocation(quotas: seq<real>, count: int): (r: seq<int>)
    ensures |r| == |quotas|
  {
    Bumped(Floors(quotas), RoundedUp(quotas, count))
  }

  // --------------------------------------------------- the shares are right

  lemma {:induction false} PositiveSum(weights: seq<real>)
    requires Positive(weights)
    ensures Sum(weights) >= 0.0 && (weights != [] ==> Sum(weights) > 0.0)
  {
    if weights != [] {
      PositiveSum(weights[..|weights| - 1]);
    }
  }

  lemma {:induction false} ScaledSum(xs: seq<real>, ys: seq<real>, factor: real)
    requires |xs| == |ys| && forall i :: 0 <= i < |xs| ==> ys[i] == factor * xs[i]
    ensures Sum(ys) == factor * Sum(xs)
  {
    if xs != [] {
      ScaledSum(xs[..|xs| - 1], ys[..|ys| - 1], factor);
    }
  }

  lemma QuotaIsScaledWeight(count: real, weight: real, total: real, factor: real)
    requires total != 0.0 && factor == count / total
    ensures Quota(count, weight, total) == factor * weight
  {
    assert factor * total == count;
    assert count * weight == factor * weight * total;
  }

  lemma QuotaAt(weights: seq<real>, count: int, i: nat, factor: real)
    requires i < |weights| && Sum(weights) != 0.0 && factor == count as real / Sum(weights)
    ensures Quotas(weights, count)[i] == factor * weights[i]
  {
    QuotaIsScaledWeight(count as real, weights[i], Sum(weights), factor);
  }

  lemma FactorTimesTotal(count: real, total: real)
    requires total != 0.0
    ensures count / total * total == count
  {
  }

  /** The exact quotas share out the whole count. */
  lemma QuotasSumToCount(weights: seq<real>, count: int)
    requires Positive(weights) && weights != []
    ensures Sum(weights) > 0.0 && Sum(Quotas(weights, count)) == count as real
  {
    PositiveSum(weights);
    var total := Sum(weights);
    var factor := count as real / total;
    var quotas := Quotas(weights, count);
    forall i | 0 <= i < |weights|
      ensures quotas[i] == factor * weights[i]
    {
      QuotaAt(weights, count, i, factor);
    }
    ScaledSum(weights, quotas, factor);
    FactorTimesTotal(count as real, total);
  }

  /** Rounding down loses less than one per key. */
  lemma {:induction false} FloorsLoseLessThanOneEach(quotas: seq<real>)
    ensures SumInt(Floors(quotas)) as real <= Sum(quotas)
    ensures quotas != [] ==> Sum(quotas) < (SumInt(Floors(quotas)) + |quotas|) as real
  {
    if quotas != [] {
      var n := |quotas| - 1;
      FloorsLoseLessThanOneEach(quotas[..n]);
      assert Floors(quotas)[..n] == Floors(quotas[..n]);
    }
  }

  lemma RemainderInRange(quotas: seq<real>, count: int)
    requires quotas != [] && Sum(quotas) == count as real
    ensures 0 <= Remainder(quotas, count) < |quotas|
  {
    FloorsLoseLessThanOneEach(quotas);
  }

  lemma {:induction false} UpdateSum(xs: seq<int>, k: nat, x: int)
    requires k < |xs|
    ensures SumInt(xs[k := x]) == SumInt(xs) - xs[k] + x
  {
    var n := |xs| - 1;
    if k == n {
      assert xs[k := x][..n] == xs[..n];
    } else {
      assert xs[k := x][..n] == xs[..n][k := x];
      UpdateSum(xs[..n], k, x);
    }
  }

  lemma {:induction false} BumpedValues(allocation: seq<int>, picks: seq<nat>)
    requires forall t :: 0 <= t < |picks| ==> picks[t] < |allocation|
    requires forall s, t :: 0 <= s < t < |picks| ==> picks[s] != picks[t]
    ensures SumInt(Bumped(allocation, picks)) == SumInt(allocation) + |picks|
    ensures forall k :: 0 <= k < |allocation| ==>
              Bumped(allocation, picks)[k] == allocation[k] + if k in picks then 1 else 0
  {
    if picks != [] {
      var n := |picks| - 1;
      BumpedValues(allocation, picks[..n]);
      assert picks[n] !in picks[..n];
      assert picks == picks[..n] + [picks[n]];
      var rest := Bumped(allocation, picks[..n]);
      UpdateSum(rest, picks[n], rest[picks[n]] + 1);
    }
  }

  /** The allocation gives each key its quota rounded down or up, and shares out exactly
      the count; the keys rounded up are those with the largest fractions. */
  lemma AllocationIsAQuotaSplit(quotas: seq<real>, count: int)
    requires quotas != [] && Sum(quotas) == count as real
    ensures var a, up := Allocation(quotas, count), RoundedUp(quotas, count);
      && SumInt(a) == count
      && (forall k :: 0 <= k < |quotas| ==> a[k] == quotas[k].Floor + if k in up then 1 else 0)
      && (forall i, j :: 0 <= i < |quotas| && 0 <= j < |quotas| && i in up && j !in up ==>
            Fraction(quotas, i) >= Fraction(quotas, j))
  {
    RemainderInRange(quotas, count);
    var order, up := ByFraction(quotas, |quotas|), RoundedUp(quotas, count);
    forall s, t | 0 <= s < t < |order|
      ensures order[s] != order[t]
    {
      assert Precedes(quotas, order[s], order[t]);
    }
    BumpedValues(Floors(quotas), up);
    forall i, j | 0 <= i < |quotas| && 0 <= j < |quotas| && i in up && j !in up
      ensures Fraction(quotas, i) >= Fraction(quotas, j)
    {
      var s :| 0 <= s < |up| && order[s] == i;
      assert j in order;
      var t :| 0 <= t < |order| && order[t] == j;
      assert Precedes(quotas, order[s], order[t]);
    }
  }

  /** What is left over goes to the largest fractions, and among equal ones to the last names:
      whoever precedes a key that was rounded up was rounded up too. */
  lemma LargestFractionsThenLastNames(quotas: seq<real>, count: int, i: nat, j: nat)
    requires i < |quotas| && j < |quotas| && j in RoundedUp(quotas, count)
    requires quotas[i] - quotas[i].Floor as real > quotas[j] - quotas[j].Floor as real
          || (quotas[i] - quotas[i].Floor as real == quotas[j] - quotas[j].Floor as real && i > j)
    ensures i in RoundedUp(quotas, count)
  {
    var order, up := ByFraction(quotas, |quotas|), RoundedUp(quotas, count);
    assert i in order;
    var s :| 0 <= s < |order| && order[s] == i;
    var t :| 0 <= t < |up| && up[t] == j;
    assert order[t] == j;
    if t < s {
      assert false;
    }
    assert up[s] == i;
  }

  // ------------------------------------------------------------- optimality

  /** A fraction that separates the keys rounded up from the keys rounded down. */
  function Threshold(quotas: seq<real>, count: int): real {
    var up := RoundedUp(quotas, count);
    if up == [] then 1.0 else Fraction(quotas, up[|up| - 1])
  }

  lemma ThresholdSeparates(quotas: seq<real>, count: int, k: nat)
    requires quotas != [] && Sum(quotas) == count as real && k < |quotas|
    ensures 0.0 <= Threshold(quotas, count) <= 1.0
    ensures if k in RoundedUp(quotas, count) then Fraction(quotas, k) >= Threshold(quotas, count)
            else Fraction(quotas, k) <= Threshold(quotas, count)
  {
    AllocationIsAQuotaSplit(quotas, count);
    RemainderInRange(quotas, count);
    var up := RoundedUp(quotas, count);
    if up != [] {
      assert up[|up| - 1] in up;
      if k in up {
        var t :| 0 <= t < |up| && up[t] == k;
        var order := ByFraction(quotas, |quotas|);
        assert t < |up| - 1 ==> Precedes(quotas, order[t], order[|up| - 1]);
      }
    }
  }

  /** A key's deviation, less what the multiplier pays for each pick. */
  function Priced(s: int, q: real, price: real): real { Abs(s as real - q) - Cost(price, s) }

  function Cost(price: real, picks: int): real { price * picks as real }

  function PricedTotal(split: seq<int>, quotas: seq<real>, price: real): real
    requires |split| == |quotas|
  {
    if split == [] then 0.0
    else
      var n := |split| - 1;
      PricedTotal(split[..n], quotas[..n], price) + Priced(split[n], quotas[n], price)
  }

  lemma {:induction false} PricedTotalIsDeviation(split: seq<int>, quotas: seq<real>, price: real)
    requires |split| == |quotas|
    ensures PricedTotal(split, quotas, price) == Deviation(split, quotas) - Cost(price, SumInt(split))
  {
    if split != [] {
      var n := |split| - 1;
      PricedTotalIsDeviation(split[..n], quotas[..n], price);
      Distribute(price, SumInt(split[..n]), split[n]);
    }
  }

  lemma Distribute(x: real, a: int, b: int)
    ensures Cost(x, a + b) == Cost(x, a) + Cost(x, b)
  {
    assert (a + b) as real == a as real + b as real;
  }

  lemma ProductSign(x: real, y: real)
    requires x >= 0.0
    ensures y >= 0.0 ==> x * y >= 0.0
    ensures y <= 0.0 ==> x * y <= 0.0
  {
  }

  /** With the price 1 - 2 * threshold, rounding by the threshold is the best choice for
      one key alone. */
  lemma BestForOneKey(q: real, threshold: real, chosen: int, s: int)
    requires 0.0 <= threshold <= 1.0
    requires || (chosen == q.Floor && q - q.Floor as real <= threshold)
             || (chosen == q.Floor + 1 && q - q.Floor as real >= threshold)
    ensures Priced(chosen, q, 1.0 - 2.0 * threshold) <= Priced(s, q, 1.0 - 2.0 * threshold)
  {
    var price := 1.0 - 2.0 * threshold;
    var base, gap := q.Floor, s - q.Floor;
    Distribute(price, base, gap);
    Distribute(price, base, 1);
    if gap <= 0 {
      ProductSign(1.0 + price, gap as real);
      assert (1.0 + price) * gap as real == gap as real + Cost(price, gap);
    } else {
      ProductSign(1.0 - price, (gap - 1) as real);
      assert (1.0 - price) * (gap - 1) as real == (gap - 1) as real - Cost(price, gap) + Cost(price, 1);
    }
  }

  /** Every quota is rounded down, or up, according to the threshold. */
  predicate SplitsBy(quotas: seq<real>, threshold: real, chosen: seq<int>)
    requires |chosen| == |quotas|
  {
    forall k :: 0 <= k < |quotas| ==>
      || (chosen[k] == quotas[k].Floor && quotas[k] - quotas[k].Floor as real <= threshold)
      || (chosen[k] == quotas[k].Floor + 1 && quotas[k] - quotas[k].Floor as real >= threshold)
  }

  lemma {:induction false} BestForAllKeys(quotas: seq<real>, threshold: real, chosen: seq<int>, s: seq<int>)
    requires |chosen| == |s| == |quotas|
    requires 0.0 <= threshold <= 1.0
    requires SplitsBy(quotas, threshold, chosen)
    ensures PricedTotal(chosen, quotas, 1.0 - 2.0 * threshold) <= PricedTotal(s, quotas, 1.0 - 2.0 * threshold)
  {
    if quotas != [] {
      var n := |quotas| - 1;
      BestForAllKeys(quotas[..n], threshold, chosen[..n], s[..n]);
      BestForOneKey(quotas[n], threshold, chosen[n], s[n]);
    }
  }

  lemma AllocationSplitsByThreshold(quotas: seq<real>, count: int)
    requires quotas != [] && Sum(quotas) == count as real
    ensures 0.0 <= Threshold(quotas, count) <= 1.0
    ensures SplitsBy(quotas, Threshold(quotas, count), Allocation(quotas, count))
  {
    AllocationIsAQuotaSplit(quotas, count);
    ThresholdSeparates(quotas, count, 0);
    var chosen, threshold := Allocation(quotas, count), Threshold(quotas, count);
    forall k | 0 <= k < |quotas|
      ensures || (chosen[k] == quotas[k].Floor && quotas[k] - quotas[k].Floor as real <= threshold)
              || (chosen[k] == quotas[k].Floor + 1 && quotas[k] - quotas[k].Floor as real >= threshold)
    {
      ThresholdSeparates(quotas, count, k);
    }
  }

  lemma SamePrice(a: seq<int>, b: seq<int>, quotas: seq<real>, price: real)
    requires |a| == |b| == |quotas| && SumInt(a) == SumInt(b)
    requires PricedTotal(a, quotas, price) <= PricedTotal(b, quotas, price)
    ensures Deviation(a, quotas) <= Deviation(b, quotas)
  {
    PricedTotalIsDeviation(a, quotas, price);
    PricedTotalIsDeviation(b, quotas, price);
  }

  /** A split that rounds by a threshold deviates least among all of its size. */
  lemma ThresholdSplitIsOptimal(quotas: seq<real>, threshold: real, chosen: seq<int>, split: seq<int>)
    requires |chosen| == |split| == |quotas| && SumInt(chosen) == SumInt(split)
    requires 0.0 <= threshold <= 1.0 && SplitsBy(quotas, threshold, chosen)
    ensures Deviation(chosen, quotas) <= Deviation(split, quotas)
  {
    BestForAllKeys(quotas, threshold, chosen, split);
    SamePrice(chosen, split, quotas, 1.0 - 2.0 * threshold);
  }

  /** Largest-remainder allocation is optimal for every positive weighting. */
  lemma LargestRemainderIsOptimal(weights: seq<real>, count: int, split: seq<int>)
    requires Positive(weights) && weights != [] && |split| == |weights| && SumInt(split) == count
    ensures Sum(weights) > 0.0
    ensures var quotas := Quotas(weights, count);
      Deviation(Allocation(quotas, count), quotas) <= Deviation(split, quotas)
  {
    QuotasSumToCount(weights, count);
    var quotas := Quotas(weights, count);
    AllocationIsAQuotaSplit(quotas, count);
    AllocationSplitsByThreshold(quotas, count);
    ThresholdSplitIsOptimal(quotas, Threshold(quotas, count), Allocation(quotas, count), split);
  }
}
