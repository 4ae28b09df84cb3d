/** Stake-weighted sampling (server/balancer.rs:119-140).

    The point is drawn below a total that sums the stakes, while the loop accumulates `stake + 1`
    for every consumer. This module counts, exactly, how many draws select each consumer. */
module Sampling {
  import opened Orders
  import opened Records
  import opened Registries

  /** What the loop has accumulated after `k` consumers. */
  function Prefix(stakes: seq<nat>, k: nat): nat
    requires k <= |stakes|
  {
    if k == 0 then 0 else Prefix(stakes, k - 1) + stakes[k - 1] + 1
  }

  /** Random numbers: `draws(i)(n)` is the `i`-th one, drawn below `n`. */
  type Generator = nat -> nat -> nat

  ghost predicate InRange(draws: Generator) {
    forall i, n: nat :: 0 < n ==> draws(i)(n) < n
  }

  /** The accumulating loop: the first consumer whose accumulated sum exceeds the point. */
  method Select(stakes: seq<nat>, point: nat) returns (pick: Option<nat>)
    ensures pick.Some? ==> pick.value < |stakes| && Selects(stakes, point, pick.value)
    ensures pick.None? <==> Prefix(stakes, |stakes|) <= point
  {
    var accumulated := 0;
    for k := 0 to |stakes|
      invariant accumulated == Prefix(stakes, k) <= point
    {
      accumulated := accumulated + stakes[k] + 1;
      if point < accumulated {
        PrefixMonotone(stakes, k + 1, |stakes|);
        return Some(k);
      }
    }
    return None;
  }

  /** Consumer `k` owns the points between the sums accumulated before and after it. */
  predicate Selects(stakes: seq<nat>, point: nat, k: nat)
    requires k < |stakes|
  {
    Prefix(stakes, k) <= point < Prefix(stakes, k + 1)
  }

  /** The draw selects somebody. */
  ghost predicate Hits(stakes: seq<nat>, point: nat) {
    exists k: nat :: k < |stakes| && Selects(stakes, point, k)
  }

  lemma {:induction false} PrefixMonotone(stakes: seq<nat>, j: nat, k: nat)
    requires j <= k <= |stakes|
    ensures Prefix(stakes, j) + (k - j) <= Prefix(stakes, k)
    decreases k
  {
    if j < k { PrefixMonotone(stakes, j, k - 1); }
  }

  /** No point belongs to two consumers, so `Selects` determines the loop's result. */
  lemma SelectionUnique(stakes: seq<nat>, point: nat, j: nat, k: nat)
    requires j < |stakes| && k < |stakes|
    requires Selects(stakes, point, j) && Selects(stakes, point, k)
    ensures j == k
  {
    if j < k { PrefixMonotone(stakes, j + 1, k); }
    if k < j { PrefixMonotone(stakes, k + 1, j); }
  }

  lemma PrefixIsTotal(stakes: seq<nat>)
    ensures Prefix(stakes, |stakes|) == Total(stakes) + |stakes|
  {
    PrefixIsTotalUpTo(stakes, |stakes|);
    assert stakes[..|stakes|] == stakes;
  }

  lemma {:induction false} PrefixIsTotalUpTo(stakes: seq<nat>, k: nat)
    requires k <= |stakes|
    ensures Prefix(stakes, k) == Total(stakes[..k]) + k
  {
    if k > 0 {
      PrefixIsTotalUpTo(stakes, k - 1);
      assert stakes[..k][..k - 1] == stakes[..k - 1];
    }
  }

  /** The draws below `range` that select consumer `k`. */
  function Draws(stakes: seq<nat>, range: nat, k: nat): set<nat>
    requires k < |stakes|
  {
    set point: nat | point < range && Selects(stakes, point, k)
  }

  /** Exactly how many of the `range` equally likely draws select consumer `k`. */
  lemma {:induction false} DrawCount(stakes: seq<nat>, range: nat, k: nat)
    requires k < |stakes|
    ensures |Draws(stakes, range, k)|
         == Min(range, Prefix(stakes, k + 1)) - Min(range, Prefix(stakes, k))
    decreases range
  {
    if range == 0 {
      assert Draws(stakes, range, k) == {};
    } else {
      var p := range - 1;
      DrawCount(stakes, p, k);
      if Selects(stakes, p, k) {
        assert Draws(stakes, range, k) == Draws(stakes, p, k) + {p};
      } else {
        assert Draws(stakes, range, k) == Draws(stakes, p, k);
      }
    }
  }

  ghost function DrawsOfFirst(stakes: seq<nat>, range: nat, k: nat): nat
    requires k <= |stakes|
  {
    if k == 0 then 0 else DrawsOfFirst(stakes, range, k - 1) + |Draws(stakes, range, k - 1)|
  }

  lemma {:induction false} DrawsTelescope(stakes: seq<nat>, range: nat, k: nat)
    requires k <= |stakes|
    ensures DrawsOfFirst(stakes, range, k) == Min(range, Prefix(stakes, k))
  {
    if k > 0 {
      DrawsTelescope(stakes, range, k - 1);
      DrawCount(stakes, range, k - 1);
    }
  }

  /** The consumers share out all the draws, none left over, exactly when the range does not exceed
      the sum of `stake + 1`; this is the exact condition for a draw never to come up empty. */
  lemma DrawsPartition(stakes: seq<nat>, range: nat)
    ensures DrawsOfFirst(stakes, range, |stakes|) == range
            <==> range <= Total(stakes) + |stakes|
    ensures range <= Total(stakes) + |stakes|
            <==> forall point: nat :: point < range ==> Hits(stakes, point)
  {
    DrawsTelescope(stakes, range, |stakes|);
    PrefixIsTotal(stakes);
    if range <= Total(stakes) + |stakes| {
      forall point: nat | point < range
        ensures Hits(stakes, point)
      {
        var k := SelectionExists(stakes, point, |stakes|);
      }
    } else {
      var point := range - 1;
      forall k: nat | k < |stakes| ensures !Selects(stakes, point, k) {
        PrefixMonotone(stakes, k + 1, |stakes|);
      }
      assert !Hits(stakes, point);
    }
  }

  lemma {:induction false} SelectionExists(stakes: seq<nat>, point: nat, n: nat) returns (k: nat)
    requires n <= |stakes| && point < Prefix(stakes, n)
    ensures k < |stakes| && Selects(stakes, point, k)
    decreases n
  {
    if Prefix(stakes, n - 1) <= point {
      k := n - 1;
    } else {
      k := SelectionExists(stakes, point, n - 1);
    }
  }

  /** The range for an up-to-date total never exceeds what the loop can accumulate. */
  lemma FreshTotalAlwaysSelects(stakes: seq<nat>, point: nat)
    requires point < if Total(stakes) > 0 then Total(stakes) else |stakes|
    ensures Hits(stakes, point)
  {
    PrefixIsTotal(stakes);
    var k := SelectionExists(stakes, point, |stakes|);
  }

  /** No draw of the sampler can come up empty. */
  ghost predicate Covers(r: Registry) {
    && r.consumers != map[]
    && (if r.total > 0 then r.total else |r.consumers|) <= StakeSum(r.consumers) + |r.consumers|
  }

  /** Each consumer's share differs from `stake + 1` by less than the number of consumers. */
  lemma DrawShare(stakes: seq<nat>, k: nat)
    requires k < |stakes| && Total(stakes) > 0
    ensures |Draws(stakes, Total(stakes), k)| <= stakes[k] + 1
    ensures |Draws(stakes, Total(stakes), k)| >= stakes[k] + 1 - |stakes|
  {
    DrawCount(stakes, Total(stakes), k);
    PrefixIsTotal(stakes);
    PrefixMonotone(stakes, k + 1, |stakes|);
  }

  /** A total of zero leaves every prefix with nothing but the increments. */
  lemma ZeroTotalPrefix(stakes: seq<nat>, k: nat)
    requires Total(stakes) == 0 && k <= |stakes|
    ensures Prefix(stakes, k) == k
  {
    PrefixIsTotal(stakes);
    PrefixMonotone(stakes, 0, k);
    PrefixMonotone(stakes, k, |stakes|);
  }

  /** With all stakes zero the draw is exactly uniform. */
  lemma ZeroStakesUniform(stakes: seq<nat>, k: nat)
    requires k < |stakes| && Total(stakes) == 0
    ensures |Draws(stakes, |stakes|, k)| == 1
  {
    DrawCount(stakes, |stakes|, k);
    ZeroTotalPrefix(stakes, k);
    ZeroTotalPrefix(stakes, k + 1);
  }

  // The registry's consumers, sampled in an iteration order.

  /** Drawing this point while the map is iterated in this order picks the consumer. */
  ghost predicate Picks(r: Registry, order: seq<Identity>, point: nat, id: Identity) {
    && IsOrder(order, r.consumers.Keys)
    && exists k: nat :: k < |order| && order[k] == id && Selects(Stakes(r.consumers, order), point, k)
  }

  lemma PicksUnique(r: Registry, order: seq<Identity>, point: nat, a: Identity, b: Identity)
    requires Picks(r, order, point, a) && Picks(r, order, point, b)
    ensures a == b
  {
    var stakes := Stakes(r.consumers, order);
    var j: nat :| j < |order| && order[j] == a && Selects(stakes, point, j);
    var k: nat :| k < |order| && order[k] == b && Selects(stakes, point, k);
    SelectionUnique(stakes, point, j, k);
  }

  /** A draw picks nobody exactly when it reaches the sum of `stake + 1`. */
  lemma PicksNobody(r: Registry, order: seq<Identity>, point: nat)
    requires IsOrder(order, r.consumers.Keys)
    ensures (forall id :: !Picks(r, order, point, id)) <==> StakeSum(r.consumers) + |r.consumers| <= point
  {
    var stakes := Stakes(r.consumers, order);
    StakeSumInOrder(r.consumers, order);
    OrderLength(order, r.consumers.Keys);
    PrefixIsTotal(stakes);
    if point < Prefix(stakes, |stakes|) {
      var k := SelectionExists(stakes, point, |stakes|);
      assert Picks(r, order, point, order[k]);
    } else {
      forall k: nat | k < |stakes| ensures !Selects(stakes, point, k) {
        PrefixMonotone(stakes, k + 1, |stakes|);
      }
    }
  }

  /** The `i`-th draw, below the total or, if that is zero, below the number of consumers, picks the consumer. */
  ghost predicate PickedBy(r: Registry, orders: nat -> seq<Identity>, draws: Generator, i: nat, id: Identity) {
    Picks(r, orders(i), draws(i)(if r.total > 0 then r.total else |r.consumers|), id)
  }

  /** The consumers picked by up to `limit` draws; the first draw that picks nobody is the last. */
  ghost predicate Sampled(r: Registry, orders: nat -> seq<Identity>, draws: Generator, limit: nat, ids: seq<Identity>) {
    && |ids| <= limit
    && (forall i :: 0 <= i < |ids| ==> PickedBy(r, orders, draws, i, ids[i]))
    && (|ids| < limit ==> forall id :: !PickedBy(r, orders, draws, |ids|, id))
  }

  lemma SampledLength(r: Registry, orders: nat -> seq<Identity>, draws: Generator, limit: nat,
                      a: seq<Identity>, b: seq<Identity>)
    requires Sampled(r, orders, draws, limit, a) && Sampled(r, orders, draws, limit, b)
    ensures |b| <= |a|
  {
    if |a| < |b| { PicksAt(r, orders, draws, limit, b, |a|); }
  }

  lemma PicksAt(r: Registry, orders: nat -> seq<Identity>, draws: Generator, limit: nat, ids: seq<Identity>, i: nat)
    requires Sampled(r, orders, draws, limit, ids) && i < |ids|
    ensures exists id :: PickedBy(r, orders, draws, i, id)
  {
    assert PickedBy(r, orders, draws, i, ids[i]);
  }

  /** The iteration orders and the numbers drawn determine whom the sampler picks. */
  lemma SampledUnique(r: Registry, orders: nat -> seq<Identity>, draws: Generator, limit: nat,
                      a: seq<Identity>, b: seq<Identity>)
    requires Sampled(r, orders, draws, limit, a) && Sampled(r, orders, draws, limit, b)
    ensures a == b
  {
    SampledLength(r, orders, draws, limit, a, b);
    SampledLength(r, orders, draws, limit, b, a);
    forall i: nat | i < |a| ensures a[i] == b[i] {
      assert PickedBy(r, orders, draws, i, a[i]) && PickedBy(r, orders, draws, i, b[i]);
      PicksUnique(r, orders(i), draws(i)(if r.total > 0 then r.total else |r.consumers|), a[i], b[i]);
    }
  }

  /** What the loop selects is what the draw picks. */
  lemma SelectedIsPicked(r: Registry, order: seq<Identity>, point: nat, k: Option<nat>)
    requires IsOrder(order, r.consumers.Keys)
    requires var stakes := Stakes(r.consumers, order);
             && (k.Some? ==> k.value < |stakes| && Selects(stakes, point, k.value))
             && (k.None? <==> Prefix(stakes, |stakes|) <= point)
    ensures k.None? <==> StakeSum(r.consumers) + |r.consumers| <= point
    ensures forall id :: Picks(r, order, point, id) <==> k.Some? && id == order[k.value]
  {
    PicksNobody(r, order, point);
    StakeSumInOrder(r.consumers, order);
    OrderLength(order, r.consumers.Keys);
    PrefixIsTotal(Stakes(r.consumers, order));
    if k.Some? {
      assert Picks(r, order, point, order[k.value]);
      forall id | Picks(r, order, point, id) ensures id == order[k.value] {
        PicksUnique(r, order, point, id, order[k.value]);
      }
    }
  }

  /** The points below `range` that pick the consumer. */
  ghost function PointsOf(r: Registry, order: seq<Identity>, range: nat, id: Identity): set<nat> {
    set point: nat | point < range && Picks(r, order, point, id)
  }

  lemma PointsAreDraws(r: Registry, order: seq<Identity>, range: nat, k: nat)
    requires IsOrder(order, r.consumers.Keys) && k < |order|
    ensures PointsOf(r, order, range, order[k]) == Draws(Stakes(r.consumers, order), range, k)
  {
  }

  /** Exactly how many of the points that the sampler can draw pick the consumer at position `k`. */
  lemma PickCount(r: Registry, order: seq<Identity>, k: nat)
    requires IsOrder(order, r.consumers.Keys) && k < |order|
    ensures var range := if r.total > 0 then r.total else |r.consumers|;
            var stakes := Stakes(r.consumers, order);
            |PointsOf(r, order, range, order[k])| == Min(range, Prefix(stakes, k + 1)) - Min(range, Prefix(stakes, k))
  {
    var range := if r.total > 0 then r.total else |r.consumers|;
    PointsAreDraws(r, order, range, k);
    DrawCount(Stakes(r.consumers, order), range, k);
  }

  /** With an up-to-date total, the share of a consumer in the points that the sampler can draw: as many
      as its stake plus one, less at most the number of consumers; and one each if all stakes are zero. */
  lemma PickShare(r: Registry, order: seq<Identity>, id: Identity)
    requires id in r.consumers && IsOrder(order, r.consumers.Keys) && r.total == StakeSum(r.consumers)
    ensures var points := PointsOf(r, order, if r.total > 0 then r.total else |r.consumers|, id);
            && (r.total > 0 ==>
                  r.consumers[id].stake + 1 - |r.consumers| <= |points| <= r.consumers[id].stake + 1)
            && (r.total == 0 ==> |points| == 1)
  {
    assert id in order;
    var k: nat :| k < |order| && order[k] == id;
    StakeSumInOrder(r.consumers, order);
    OrderLength(order, r.consumers.Keys);
    PointsAreDraws(r, order, if r.total > 0 then r.total else |r.consumers|, k);
    if r.total > 0 {
      DrawShare(Stakes(r.consumers, order), k);
    } else {
      ZeroStakesUniform(Stakes(r.consumers, order), k);
    }
  }

  /** Some point that the sampler can draw picks this consumer. */
  ghost predicate Reachable(r: Registry, order: seq<Identity>, id: Identity) {
    exists point: nat :: point < r.total && Picks(r, order, point, id)
  }

  /** With an up-to-date, positive total a consumer can be sampled under every iteration order if and
      only if its stake is at least the number of consumers; a smaller one starves when it is last. */
  lemma ReachableInEveryOrder(r: Registry, id: Identity)
    requires id in r.consumers && r.total == StakeSum(r.consumers) > 0
    ensures (forall order :: IsOrder(order, r.consumers.Keys) ==> Reachable(r, order, id))
            <==> r.consumers[id].stake >= |r.consumers|
  {
    if r.consumers[id].stake >= |r.consumers| {
      forall order | IsOrder(order, r.consumers.Keys) ensures Reachable(r, order, id) {
        PickShare(r, order, id);
        var point :| point in PointsOf(r, order, r.total, id);
      }
    } else {
      LastSmallStakeStarves(r, id);
    }
  }

  lemma LastStarves(stakes: seq<nat>)
    requires stakes != [] && stakes[|stakes| - 1] < |stakes|
    ensures Draws(stakes, Total(stakes), |stakes| - 1) == {}
  {
    PrefixIsTotal(stakes);
    DrawCount(stakes, Total(stakes), |stakes| - 1);
  }

  lemma SmallStakeStarvesLast(r: Registry, order: seq<Identity>)
    requires IsOrder(order, r.consumers.Keys) && order != [] && r.total == StakeSum(r.consumers)
    requires var last := order[|order| - 1]; last in r.consumers && r.consumers[last].stake < |r.consumers|
    ensures !Reachable(r, order, order[|order| - 1])
  {
    OrderLength(order, r.consumers.Keys);
    StakeSumInOrder(r.consumers, order);
    LastStarves(Stakes(r.consumers, order));
    PointsAreDraws(r, order, r.total, |order| - 1);
    var last := order[|order| - 1];
    forall point: nat | point < r.total ensures !Picks(r, order, point, last) {
      assert point !in PointsOf(r, order, r.total, last);
    }
  }

  lemma LastSmallStakeStarves(r: Registry, id: Identity)
    requires id in r.consumers && r.consumers[id].stake < |r.consumers| && r.total == StakeSum(r.consumers)
    ensures exists order :: IsOrder(order, r.consumers.Keys) && !Reachable(r, order, id)
  {
    var others := r.consumers.Keys - {id};
    var order := AnyOrder(others) + [id];
    SnocOrder(AnyOrder(others), others, id);
    assert others + {id} == r.consumers.Keys;
    SmallStakeStarvesLast(r, order);
  }

  /** The loop's accumulator stays below the drawn total plus the number of consumers, so it fits a
      64-bit word whenever that bound does. */
  lemma AccumulatorBound(stakes: seq<nat>, k: nat)
    requires k <= |stakes|
    ensures Prefix(stakes, k) <= Total(stakes) + |stakes|
  {
    PrefixMonotone(stakes, k, |stakes|);
    PrefixIsTotal(stakes);
  }
}
