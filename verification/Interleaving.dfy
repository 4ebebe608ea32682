/** Draining the pools: one pick from each pool a round, until all are spent. */
module Interleaving {
  import opened Apportionment

  /** The picks still owed to a key. */
  datatype Pool = Pool(key: nat, left: nat)

  predicate Below(pools: seq<Pool>, key: int) { pools == [] || pools[|pools| - 1].key < key }

  /** Pools are never empty, and sorted by key. */
  predicate Pools(pools: seq<Pool>) {
    pools == [] ||
    var n := |pools| - 1;
    pools[n].left > 0 && Below(pools[..n], pools[n].key) && Pools(pools[..n])
  }

  lemma OneMorePool(rest: seq<Pool>, p: Pool)
    requires Pools(rest) && p.left > 0 && Below(rest, p.key)
    ensures Pools(rest + [p])
  {
    assert (rest + [p])[..|rest|] == rest;
  }

  /** One pick from every pool. */
  function Round(pools: seq<Pool>): seq<nat> {
    seq(|pools|, t requires 0 <= t < |pools| => pools[t].key)
  }

  /** What the pools hold after a round, the spent ones dropped. */
  function Popped(pools: seq<Pool>): (r: seq<Pool>)
    requires Pools(pools)
    ensures Pools(r) && (r != [] ==> pools != [] && r[|r| - 1].key <= pools[|pools| - 1].key)
  {
    if pools == [] then []
    else
      var last := pools[|pools| - 1];
      var rest := Popped(pools[..|pools| - 1]);
      if last.left == 1 then rest
      else
        OneMorePool(rest, Pool(last.key, last.left - 1));
        rest + [Pool(last.key, last.left - 1)]
  }

  function Held(pools: seq<Pool>): nat {
    if pools == [] then 0 else Held(pools[..|pools| - 1]) + pools[|pools| - 1].left
  }

  /** One pool more at the end. */
  lemma HeldMore(rest: seq<Pool>, p: Pool)
    ensures Held(rest + [p]) == Held(rest) + p.left
  {
    assert (rest + [p])[..|rest|] == rest;
  }

  lemma {:induction false} RoundTakesOneEach(pools: seq<Pool>)
    requires Pools(pools)
    ensures Held(Popped(pools)) == Held(pools) - |pools|
  {
    if pools != [] {
      var n := |pools| - 1;
      RoundTakesOneEach(pools[..n]);
      HeldMore(Popped(pools[..n]), Pool(pools[n].key, pools[n].left - 1));
    }
  }

  function Drain(pools: seq<Pool>): seq<nat>
    requires Pools(pools)
    decreases Held(pools)
  {
    if pools == [] then []
    else
      RoundTakesOneEach(pools);
      Round(pools) + Drain(Popped(pools))
  }

  /** The pools of an allocation, in the order of the keys. */
  function PoolsOf(allocation: seq<int>): (r: seq<Pool>)
    ensures Pools(r) && Below(r, |allocation|)
  {
    if allocation == [] then []
    else
      var n := |allocation| - 1;
      var rest := PoolsOf(allocation[..n]);
      if allocation[n] <= 0 then rest
      else
        OneMorePool(rest, Pool(n, allocation[n]));
        rest + [Pool(n, allocation[n])]
  }

  // ----------------------------------------------------------- occurrences

  function Occurrences(xs: seq<nat>, k: nat): nat {
    if xs == [] then 0 else Occurrences(xs[..|xs| - 1], k) + if xs[|xs| - 1] == k then 1 else 0
  }

  lemma {:induction false} OccurrencesConcat(xs: seq<nat>, ys: seq<nat>, k: nat)
    ensures Occurrences(xs + ys, k) == Occurrences(xs, k) + Occurrences(ys, k)
  {
    if ys == [] {
      assert xs + ys == xs;
    } else {
      var n := |ys| - 1;
      assert (xs + ys)[..|xs| + n] == xs + ys[..n];
      OccurrencesConcat(xs, ys[..n], k);
    }
  }

  /** How many picks of key `k` the pools hold. */
  function LeftFor(pools: seq<Pool>, k: nat): nat {
    if pools == [] then 0
    else LeftFor(pools[..|pools| - 1], k) + if pools[|pools| - 1].key == k then pools[|pools| - 1].left else 0
  }

  lemma LeftMore(rest: seq<Pool>, p: Pool, k: nat)
    ensures LeftFor(rest + [p], k) == LeftFor(rest, k) + if p.key == k then p.left else 0
  {
    assert (rest + [p])[..|rest|] == rest;
  }

  lemma {:induction false} NothingBeyond(pools: seq<Pool>, k: nat)
    requires Pools(pools) && Below(pools, k)
    ensures LeftFor(pools, k) == 0
  {
    if pools != [] {
      NothingBeyond(pools[..|pools| - 1], k);
    }
  }

  lemma {:induction false} RoundGivesOne(pools: seq<Pool>, k: nat)
    requires Pools(pools)
    ensures Occurrences(Round(pools), k) == if LeftFor(pools, k) > 0 then 1 else 0
  {
    if pools != [] {
      var front, last, round := pools[..|pools| - 1], pools[|pools| - 1], Round(pools);
      RoundGivesOne(front, k);
      assert round[..|front|] == Round(front);
      if last.key == k {
        NothingBeyond(front, k);
      }
    }
  }

  lemma {:induction false} PoppingTakesOne(pools: seq<Pool>, k: nat)
    requires Pools(pools)
    ensures LeftFor(Popped(pools), k) == if LeftFor(pools, k) > 0 then LeftFor(pools, k) - 1 else 0
  {
    if pools != [] {
      var front, last := pools[..|pools| - 1], pools[|pools| - 1];
      PoppingTakesOne(front, k);
      if last.left > 1 {
        LeftMore(Popped(front), Pool(last.key, last.left - 1), k);
      }
      if last.key == k {
        NothingBeyond(front, k);
      }
    }
  }

  /** A round gives one pick to each key that has any left. */
  lemma RoundIsFair(pools: seq<Pool>, k: nat)
    requires Pools(pools)
    ensures Occurrences(Round(pools), k) == if LeftFor(pools, k) > 0 then 1 else 0
    ensures LeftFor(Popped(pools), k) == if LeftFor(pools, k) > 0 then LeftFor(pools, k) - 1 else 0
  {
    RoundGivesOne(pools, k);
    PoppingTakesOne(pools, k);
  }

  /** A part of a round gives at most one pick to a key, and none to a spent one. */
  lemma PartOfARound(pools: seq<Pool>, t: nat, k: nat)
    requires Pools(pools) && t <= |pools|
    ensures Occurrences(Round(pools)[..t], k) <= if LeftFor(pools, k) > 0 then 1 else 0
  {
    RoundIsFair(pools, k);
    OccurrencesConcat(Round(pools)[..t], Round(pools)[t..], k);
    assert Round(pools)[..t] + Round(pools)[t..] == Round(pools);
  }

  lemma DrainByRounds(pools: seq<Pool>)
    requires Pools(pools) && pools != []
    ensures Held(Popped(pools)) < Held(pools)
    ensures Drain(pools) == Round(pools) + Drain(Popped(pools))
  {
    RoundTakesOneEach(pools);
  }

  lemma {:induction false} DrainEmptiesThePools(pools: seq<Pool>)
    requires Pools(pools)
    ensures |Drain(pools)| == Held(pools)
    decreases Held(pools)
  {
    if pools != [] {
      RoundTakesOneEach(pools);
      DrainByRounds(pools);
      DrainEmptiesThePools(Popped(pools));
    }
  }

  /** Draining gives every key exactly what its pool held. */
  lemma {:induction false} DrainGivesEachItsShare(pools: seq<Pool>, k: nat)
    requires Pools(pools)
    ensures Occurrences(Drain(pools), k) == LeftFor(pools, k)
    decreases Held(pools)
  {
    if pools != [] {
      DrainByRounds(pools);
      DrainGivesEachItsShare(Popped(pools), k);
      RoundIsFair(pools, k);
      OccurrencesConcat(Round(pools), Drain(Popped(pools)), k);
    }
  }

  lemma PrefixShare(xs: seq<nat>, n: nat, k: nat)
    requires n <= |xs|
    ensures Occurrences(xs[..n], k) <= Occurrences(xs, k)
  {
    OccurrencesConcat(xs[..n], xs[n..], k);
    assert xs[..n] + xs[n..] == xs;
  }

  /** Key `i` is at most one ahead of `j`, or `j` has had its all. */
  predicate InStep(prefix: seq<nat>, i: nat, j: nat, owed: int) {
    Occurrences(prefix, i) <= Occurrences(prefix, j) + 1 || Occurrences(prefix, j) == owed
  }

  lemma FirstRoundIsInStep(pools: seq<Pool>, n: nat, i: nat, j: nat)
    requires Pools(pools) && n <= |Round(pools)|
    ensures InStep(Round(pools)[..n], i, j, LeftFor(pools, j))
  {
    PartOfARound(pools, n, i);
  }

  lemma LaterRoundsAreInStep(pools: seq<Pool>, rest: seq<nat>, i: nat, j: nat)
    requires Pools(pools) && InStep(rest, i, j, LeftFor(Popped(pools), j))
    requires Occurrences(rest, i) <= LeftFor(Popped(pools), i) && Occurrences(rest, j) <= LeftFor(Popped(pools), j)
    ensures InStep(Round(pools) + rest, i, j, LeftFor(pools, j))
  {
    RoundIsFair(pools, i);
    RoundIsFair(pools, j);
    OccurrencesConcat(Round(pools), rest, i);
    OccurrencesConcat(Round(pools), rest, j);
  }

  lemma PrefixTakesNoMoreThanItsPool(pools: seq<Pool>, m: nat, k: nat)
    requires Pools(pools) && m <= |Drain(pools)|
    ensures Occurrences(Drain(pools)[..m], k) <= LeftFor(pools, k)
  {
    PrefixShare(Drain(pools), m, k);
    DrainGivesEachItsShare(pools, k);
  }

  lemma PrefixAcrossRounds(round: seq<nat>, later: seq<nat>, n: nat)
    requires n <= |round| + |later|
    ensures (round + later)[..n] == if n <= |round| then round[..n] else round + later[..n - |round|]
  {
  }

  /** In every prefix no key is more than one ahead of another whose pool is not spent. */
  lemma {:induction false} DrainIsFair(pools: seq<Pool>, n: nat, i: nat, j: nat)
    requires Pools(pools) && n <= |Drain(pools)|
    ensures InStep(Drain(pools)[..n], i, j, LeftFor(pools, j))
    decreases Held(pools)
  {
    if pools != [] {
      DrainByRounds(pools);
      var round, rest := Round(pools), Popped(pools);
      PrefixAcrossRounds(round, Drain(rest), n);
      if n <= |round| {
        FirstRoundIsInStep(pools, n, i, j);
      } else {
        var m := n - |round|;
        DrainIsFair(rest, m, i, j);
        PrefixTakesNoMoreThanItsPool(rest, m, i);
        PrefixTakesNoMoreThanItsPool(rest, m, j);
        LaterRoundsAreInStep(pools, Drain(rest)[..m], i, j);
      }
    }
  }

  lemma {:induction false} PoolsHoldTheSum(allocation: seq<int>)
    requires forall i :: 0 <= i < |allocation| ==> allocation[i] >= 0
    ensures Held(PoolsOf(allocation)) == SumInt(allocation)
  {
    if allocation != [] {
      var n := |allocation| - 1;
      var front := allocation[..n];
      PoolsHoldTheSum(front);
      if allocation[n] > 0 {
        HeldMore(PoolsOf(front), Pool(n, allocation[n]));
      }
    }
  }

  lemma {:induction false} PoolsHoldEachShare(allocation: seq<int>, k: nat)
    requires forall i :: 0 <= i < |allocation| ==> allocation[i] >= 0
    ensures LeftFor(PoolsOf(allocation), k) == if k < |allocation| then allocation[k] else 0
  {
    if allocation != [] {
      var n := |allocation| - 1;
      var front := allocation[..n];
      PoolsHoldEachShare(front, k);
      if allocation[n] > 0 {
        LeftMore(PoolsOf(front), Pool(n, allocation[n]), k);
      }
    }
  }

  lemma {:induction false} PoolKeysAscend(pools: seq<Pool>, i: nat, j: nat)
    requires Pools(pools) && i < j < |pools|
    ensures pools[i].key < pools[j].key
  {
    var n := |pools| - 1;
    if j < n {
      PoolKeysAscend(pools[..n], i, j);
    } else if i < n - 1 {
      PoolKeysAscend(pools[..n], i, n - 1);
    }
  }

  /** A drain goes round in the order of the names: its first picks are the keys of its pools,
      ascending, and what follows is the drain of what they leave. */
  lemma DrainGoesRoundInOrder(pools: seq<Pool>)
    requires Pools(pools) && pools != []
    ensures |pools| <= |Drain(pools)|
    ensures forall i :: 0 <= i < |pools| ==> Drain(pools)[i] == pools[i].key
    ensures forall i, j :: 0 <= i < j < |pools| ==> Drain(pools)[i] < Drain(pools)[j]
    ensures Drain(pools)[|pools|..] == Drain(Popped(pools))
  {
    DrainByRounds(pools);
    forall i, j | 0 <= i < j < |pools|
      ensures pools[i].key < pools[j].key
    {
      PoolKeysAscend(pools, i, j);
    }
  }

  // ------------------------------------------------------------ the method

  lemma QuotaIsPositive(count: real, weight: real, total: real)
    requires count > 0.0 && weight > 0.0 && total > 0.0
    ensures Quota(count, weight, total) > 0.0
  {
    assert count * weight > 0.0;
  }

  lemma QuotasArePositive(weights: seq<real>, count: int)
    requires Positive(weights) && weights != [] && count > 0
    ensures Sum(weights) > 0.0
    ensures forall k :: 0 <= k < |weights| ==> Quotas(weights, count)[k] > 0.0
  {
    PositiveSum(weights);
    forall k | 0 <= k < |weights|
      ensures Quotas(weights, count)[k] > 0.0
    {
      QuotaIsPositive(count as real, weights[k], Sum(weights));
    }
  }

  lemma SharesAreNotNegative(quotas: seq<real>, count: int)
    requires quotas != [] && Sum(quotas) == count as real
    requires forall k :: 0 <= k < |quotas| ==> quotas[k] > 0.0
    ensures forall k :: 0 <= k < |quotas| ==> Allocation(quotas, count)[k] >= 0
  {
    AllocationIsAQuotaSplit(quotas, count);
  }

  /** The picks a scenario expands into. */
  function Cycle(weights: seq<real>, count: int): seq<nat>
    requires Positive(weights)
  {
    if count <= 0 || weights == [] then []
    else
      QuotasArePositive(weights, count);
      Drain(PoolsOf(Allocation(Quotas(weights, count), count)))
  }

  lemma CycleHasCountPicks(weights: seq<real>, count: int)
    requires Positive(weights) && weights != [] && count > 0
    ensures |Cycle(weights, count)| == count
  {
    QuotasArePositive(weights, count);
    QuotasSumToCount(weights, count);
    var quotas := Quotas(weights, count);
    var allocation := Allocation(quotas, count);
    SharesAreNotNegative(quotas, count);
    AllocationIsAQuotaSplit(quotas, count);
    PoolsHoldTheSum(allocation);
    DrainEmptiesThePools(PoolsOf(allocation));
  }

  method RoundUpLargest(quotas: seq<real>, floors: seq<int>, count: int) returns (allocation: seq<int>)
    requires quotas != [] && floors == Floors(quotas) && Sum(quotas) == count as real
    ensures allocation == Allocation(quotas, count)
  {
    allocation := floors;
    var remainder := count - SumInt(floors);
    RemainderInRange(quotas, count);
    var byFraction := ByFraction(quotas, |quotas|);
    assert RoundedUp(quotas, count) == byFraction[..remainder];
    var t := 0;
    while t < remainder
      invariant 0 <= t <= remainder
      invariant allocation == Bumped(floors, byFraction[..t])
    {
      var key := byFraction[t];
      assert byFraction[..t + 1][..t] == byFraction[..t];
      allocation := allocation[key := allocation[key] + 1];
      t := t + 1;
    }
  }

  /** One round: append a pick from every pool, and drop the spent ones. */
  method DrainRound(pools: seq<Pool>, before: seq<nat>) returns (out: seq<nat>, kept: seq<Pool>)
    requires Pools(pools)
    ensures out == before + Round(pools) && kept == Popped(pools)
  {
    out, kept := before, [];
    var t := 0;
    while t < |pools|
      invariant 0 <= t <= |pools|
      invariant Pools(pools[..t]) && kept == Popped(pools[..t])
      invariant out == before + Round(pools)[..t]
    {
      PrefixIsPools(pools, t + 1);
      assert Round(pools)[..t + 1] == Round(pools)[..t] + [pools[t].key];
      assert pools[..t + 1][..t] == pools[..t];
      out := out + [pools[t].key];
      if pools[t].left > 1 {
        kept := kept + [Pool(pools[t].key, pools[t].left - 1)];
      }
      t := t + 1;
    }
    assert pools[..t] == pools && Round(pools)[..t] == Round(pools);
  }

  lemma {:induction false} PrefixIsPools(pools: seq<Pool>, t: nat)
    requires Pools(pools) && t <= |pools|
    ensures Pools(pools[..t])
  {
    if t == |pools| {
      assert pools[..t] == pools;
    } else {
      assert pools[..|pools| - 1][..t] == pools[..t];
      PrefixIsPools(pools[..|pools| - 1], t);
    }
  }

  /** What was emitted and what the pools still give make up the whole. */
  predicate IsWhole(out: seq<nat>, pools: seq<Pool>, whole: seq<nat>)
    requires Pools(pools)
  {
    out + Drain(pools) == whole
  }

  lemma OneRoundOn(out: seq<nat>, pools: seq<Pool>, whole: seq<nat>)
    requires Pools(pools) && pools != [] && IsWhole(out, pools, whole)
    ensures IsWhole(out + Round(pools), Popped(pools), whole) && Held(Popped(pools)) < Held(pools)
  {
    DrainByRounds(pools);
    ConcatAssociates(out, Round(pools), Drain(Popped(pools)));
  }

  lemma ConcatAssociates(a: seq<nat>, b: seq<nat>, c: seq<nat>)
    ensures a + (b + c) == a + b + c
  {
  }

  method DrainPools(start: seq<Pool>) returns (out: seq<nat>)
    requires Pools(start)
    ensures out == Drain(start)
  {
    out := [];
    var pools := start;
    ghost var whole := Drain(start);
    while pools != []
      invariant Pools(pools) && IsWhole(out, pools, whole)
      decreases Held(pools)
    {
      OneRoundOn(out, pools, whole);
      out, pools := DrainRound(pools, out);
    }
  }

  /** Expand positive weights into `count` picks. */
  method WeightedCycle(weights: seq<real>, count: int) returns (out: seq<nat>)
    requires Positive(weights)
    ensures out == Cycle(weights, count)
  {
    if count <= 0 || weights == [] {
      return [];
    }
    QuotasSumToCount(weights, count);
    CycleHasCountPicks(weights, count);
    var quotas := Quotas(weights, count);
    var allocation := RoundUpLargest(quotas, Floors(quotas), count);
    out := DrainPools(PoolsOf(allocation));
    out := out[..count];
  }

  /** The expansion gives each key its allocation, and in every prefix no key leads
      another by more than one unless the other has had its all. */
  lemma CycleIsFair(weights: seq<real>, count: int, n: nat, i: nat, j: nat)
    requires Positive(weights) && weights != [] && count > 0
    requires n <= count && i < |weights| && j < |weights|
    ensures Sum(weights) > 0.0 && |Cycle(weights, count)| == count
    ensures var allocation, picks := Allocation(Quotas(weights, count), count), Cycle(weights, count);
      && Occurrences(picks, i) == allocation[i]
      && InStep(picks[..n], i, j, allocation[j])
  {
    CycleHasCountPicks(weights, count);
    QuotasArePositive(weights, count);
    QuotasSumToCount(weights, count);
    var quotas := Quotas(weights, count);
    var allocation := Allocation(quotas, count);
    SharesAreNotNegative(quotas, count);
    PoolsHoldEachShare(allocation, i);
    PoolsHoldEachShare(allocation, j);
    DrainGivesEachItsShare(PoolsOf(allocation), i);
    DrainIsFair(PoolsOf(allocation), n, i, j);
  }
}
