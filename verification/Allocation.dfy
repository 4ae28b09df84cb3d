/** Sharing the leaders' TPUs out among the picked consumers (server/balancer.rs:168-178).

    The list of leaders is cut into chunks of `|leaders| / n`, the last one possibly shorter, and
    chunk `i` goes to the picks at positions `i % n` and `(i + 1) % n`. */
module Allocation {
  import opened Arithmetic
  import opened LabelledCounters
  import opened Orders
  import opened Records

  const N_COPIES: nat := 2

  /** Where copy `j` of the leader with index `t` goes. */
  type Placement = (nat, nat) -> nat

  function RoundRobin(n: nat, chunk: nat): Placement
    requires n > 0 && chunk > 0
  {
    (t: nat, j: nat) => (t / chunk + j) % n
  }

  /** The leader indices, in order of arrival, that position `p` receives from the first `count`. */
  function Received(place: Placement, count: nat, p: nat): seq<nat> {
    if count == 0 then [] else Received(place, count - 1, p) + Copies(place, count - 1, p, N_COPIES)
  }

  /** The copies of leader `t`, among its first `copies`, that position `p` receives. */
  function Copies(place: Placement, t: nat, p: nat, copies: nat): seq<nat> {
    if copies == 0 then []
    else Copies(place, t, p, copies - 1) + if place(t, copies - 1) == p then [t] else []
  }

  function Values<T>(leaders: seq<T>, indices: seq<nat>): (values: seq<T>)
    requires forall i :: 0 <= i < |indices| ==> indices[i] < |leaders|
    ensures |values| == |indices|
  {
    seq(|indices|, i requires 0 <= i < |indices| => leaders[indices[i]])
  }

  lemma {:induction false} CopiesAre(place: Placement, t: nat, p: nat, copies: nat)
    ensures forall x :: x in Copies(place, t, p, copies) ==> x == t
  {
    if copies > 0 { CopiesAre(place, t, p, copies - 1); }
  }

  lemma {:induction false} ReceivedInRange(place: Placement, count: nat, p: nat)
    ensures forall t :: t in Received(place, count, p) ==> t < count
  {
    if count > 0 {
      ReceivedInRange(place, count - 1, p);
      CopiesAre(place, count - 1, p, N_COPIES);
    }
  }

  /** In order, with repetitions, and below a bound. */
  ghost predicate Ascending(s: seq<nat>, bound: nat) {
    && (forall i :: 0 <= i < |s| ==> s[i] < bound)
    && (forall i, j :: 0 <= i < j < |s| ==> s[i] <= s[j])
  }

  lemma AscendingAppend(s: seq<nat>, t: nat, last: seq<nat>)
    requires Ascending(s, t) && forall i :: 0 <= i < |last| ==> last[i] == t
    ensures Ascending(s + last, t + 1)
  {
  }

  /** Leaders arrive in the order in which they are listed. */
  lemma {:induction false} ReceivedInOrder(place: Placement, count: nat, p: nat)
    ensures Ascending(Received(place, count, p), count)
  {
    if count > 0 {
      var last := Copies(place, count - 1, p, N_COPIES);
      ReceivedInOrder(place, count - 1, p);
      CopiesAre(place, count - 1, p, N_COPIES);
      assert forall i :: 0 <= i < |last| ==> last[i] in last;
      AscendingAppend(Received(place, count - 1, p), count - 1, last);
    }
  }

  // How often each position receives one leader.

  function Hit(place: Placement, t: nat, j: nat, p: nat): nat {
    if place(t, j) == p then 1 else 0
  }

  /** How many times `t` occurs in `s`. */
  function Times(s: seq<nat>, t: nat): nat {
    Occurs(s, |s|, t)
  }

  lemma CopiesMultiplicity(place: Placement, t: nat, p: nat)
    ensures |Copies(place, t, p, N_COPIES)| == Hit(place, t, 0, p) + Hit(place, t, 1, p)
    ensures Times(Copies(place, t, p, N_COPIES), t) == Hit(place, t, 0, p) + Hit(place, t, 1, p)
  {
    assert Copies(place, t, p, 0) == [];
    var first: seq<nat> := if place(t, 0) == p then [t] else [];
    assert Copies(place, t, p, 1) == Copies(place, t, p, 0) + first == first;
    var second: seq<nat> := if place(t, 1) == p then [t] else [];
    assert Copies(place, t, p, 2) == first + second;
    OccursAppend(first, second, t);
  }

  lemma OtherCopies(place: Placement, t: nat, p: nat, other: nat)
    requires other != t
    ensures Times(Copies(place, t, p, N_COPIES), other) == 0
  {
    CopiesAre(place, t, p, N_COPIES);
    OccursPositive(Copies(place, t, p, N_COPIES), other);
  }

  lemma NotYetReceived(place: Placement, t: nat, p: nat)
    ensures Times(Received(place, t, p), t) == 0
  {
    ReceivedInRange(place, t, p);
    OccursPositive(Received(place, t, p), t);
  }

  lemma {:induction false} Multiplicity(place: Placement, count: nat, p: nat, t: nat)
    requires t < count
    ensures Times(Received(place, count, p), t) == Hit(place, t, 0, p) + Hit(place, t, 1, p)
    decreases count
  {
    OccursAppend(Received(place, count - 1, p), Copies(place, count - 1, p, N_COPIES), t);
    if t < count - 1 {
      Multiplicity(place, count - 1, p, t);
      OtherCopies(place, count - 1, p, t);
    } else {
      CopiesMultiplicity(place, t, p);
      NotYetReceived(place, t, p);
    }
  }

  /** A position holds a leader exactly when one of the two copies goes there. */
  lemma ReceivedIff(place: Placement, count: nat, p: nat, t: nat)
    requires t < count
    ensures t in Received(place, count, p) <==> p == place(t, 0) || p == place(t, 1)
  {
    Multiplicity(place, count, p, t);
    OccursPositive(Received(place, count, p), t);
  }

  /** Copies of one leader handed to the positions below `n`. */
  function CopiesBelow(place: Placement, count: nat, t: nat, n: nat): nat {
    if n == 0 then 0
    else CopiesBelow(place, count, t, n - 1) + Times(Received(place, count, n - 1), t)
  }

  lemma {:induction false} CopiesBelowIs(place: Placement, count: nat, t: nat, n: nat)
    requires t < count
    ensures CopiesBelow(place, count, t, n)
         == (if place(t, 0) < n then 1 else 0) + (if place(t, 1) < n then 1 else 0)
  {
    if n > 0 {
      CopiesBelowIs(place, count, t, n - 1);
      Multiplicity(place, count, n - 1, t);
    }
  }

  /** Every leader is handed out exactly `N_COPIES` times over all the positions. */
  lemma EveryLeaderTwice(n: nat, chunk: nat, count: nat, t: nat)
    requires n > 0 && chunk > 0 && t < count
    ensures CopiesBelow(RoundRobin(n, chunk), count, t, n) == N_COPIES
  {
    CopiesBelowIs(RoundRobin(n, chunk), count, t, n);
  }

  lemma ResidueUnique(q: nat, r: nat, n: nat)
    requires r < n
    ensures (q * n + r) % n == r
  {
    var x := q * n + r;
    var d := x / n - q;
    assert x == n * (x / n) + x % n;
    assert n * (x / n) == n * q + n * d;
    assert n * d == r - x % n;
    SmallMultiple(n, d);
  }

  lemma SmallMultiple(n: int, d: int)
    requires -n < n * d < n
    ensures d == 0
  {
  }

  lemma NextResidue(a: nat, n: nat)
    requires n > 0
    ensures (a + 1) % n == if a % n == n - 1 then 0 else a % n + 1
  {
    assert a == a / n * n + a % n;
    if a % n == n - 1 {
      assert a + 1 == (a / n + 1) * n + 0;
      ResidueUnique(a / n + 1, 0, n);
    } else {
      ResidueUnique(a / n, a % n + 1, n);
    }
  }

  /** With two or more picks, the two copies go to two different positions, one each. */
  lemma CopiesToDistinctPositions(n: nat, chunk: nat, count: nat, t: nat)
    requires n >= 2 && chunk > 0 && t < count
    ensures var place := RoundRobin(n, chunk);
            && place(t, 0) != place(t, 1) && place(t, 0) < n && place(t, 1) < n
            && forall p :: 0 <= p < n ==>
                 Times(Received(place, count, p), t) == if p in {place(t, 0), place(t, 1)} then 1 else 0
  {
    var place := RoundRobin(n, chunk);
    NextResidue(t / chunk, n);
    forall p | 0 <= p < n
      ensures Times(Received(place, count, p), t) == if p in {place(t, 0), place(t, 1)} then 1 else 0
    {
      Multiplicity(place, count, p, t);
    }
  }

  /** Losing any one position still leaves every leader with another. */
  lemma SurvivesOneLoss(n: nat, chunk: nat, count: nat, t: nat, lost: nat) returns (p: nat)
    requires n >= 2 && chunk > 0 && t < count
    ensures p < n && p != lost && t in Received(RoundRobin(n, chunk), count, p)
  {
    var place := RoundRobin(n, chunk);
    CopiesToDistinctPositions(n, chunk, count, t);
    p := if place(t, 0) == lost then place(t, 1) else place(t, 0);
    ReceivedIff(place, count, p, t);
  }

  // How much each position receives in all.

  /** The leaders among the first `count` whose copy `j` goes to `p`. */
  function Hits(place: Placement, count: nat, j: nat, p: nat): nat {
    if count == 0 then 0 else Hits(place, count - 1, j, p) + Hit(place, count - 1, j, p)
  }

  lemma {:induction false} ReceivedSize(place: Placement, count: nat, p: nat)
    ensures |Received(place, count, p)| == Hits(place, count, 0, p) + Hits(place, count, 1, p)
  {
    if count > 0 {
      ReceivedSize(place, count - 1, p);
      CopiesMultiplicity(place, count - 1, p);
    }
  }

  function Previous(n: nat, p: nat): nat
    requires p < n
  {
    if p == 0 then n - 1 else p - 1
  }

  /** The second copies of a position are the first copies of the position before it. */
  lemma {:induction false} SecondCopies(n: nat, chunk: nat, count: nat, p: nat)
    requires n > 0 && chunk > 0 && p < n
    ensures Hits(RoundRobin(n, chunk), count, 1, p) == Hits(RoundRobin(n, chunk), count, 0, Previous(n, p))
  {
    if count > 0 {
      SecondCopies(n, chunk, count - 1, p);
      NextResidue((count - 1) / chunk, n);
    }
  }

  function Clamp(x: int, hi: nat): (c: nat) {
    if x < 0 then 0 else if x > hi then hi else x
  }

  /** Counting the members of chunk `q`: index `t` adds one exactly when `t / c == q`. */
  lemma ClampStep(t: nat, c: nat, q: nat)
    requires c > 0
    ensures Clamp(t + 1 - q * c, c) == Clamp(t - q * c, c) + if t / c == q then 1 else 0
  {
    QuotientBounds(t, c);
    if t / c < q {
      MulMonotone(t / c + 1, q, c);
    } else if t / c > q {
      MulMonotone(q + 1, t / c, c);
    }
  }

  lemma FirstRoundTarget(n: nat, c: nat, t: nat)
    requires n > 0 && c > 0 && t < n * c
    ensures RoundRobin(n, c)(t, 0) == t / c
  {
    QuotientBelow(t, c, n);
    ResidueUnique(0, t / c, n);
  }

  lemma SecondRoundTarget(n: nat, c: nat, t: nat)
    requires n > 0 && c > 0 && n * c <= t < (n + n) * c
    ensures RoundRobin(n, c)(t, 0) == t / c - n
  {
    QuotientBelow(t, c, n);
    QuotientBelow(t, c, n + n);
    ResidueUnique(1, t / c - n, n);
  }

  lemma {:induction false} FirstRound(n: nat, c: nat, count: nat, q: nat)
    requires n > 0 && c > 0 && q < n && count <= n * c
    ensures Hits(RoundRobin(n, c), count, 0, q) == Clamp(count - q * c, c)
    decreases count
  {
    if count > 0 {
      FirstRound(n, c, count - 1, q);
      ClampStep(count - 1, c, q);
      FirstRoundTarget(n, c, count - 1);
    }
  }

  /** The second round, which the indices enter when they wrap around. */
  lemma {:induction false} SecondRound(n: nat, c: nat, count: nat, q: nat)
    requires n > 0 && c > 0 && q < n && n * c <= count <= (n + n) * c
    ensures Hits(RoundRobin(n, c), count, 0, q) == c + Clamp(count - (n + q) * c, c)
    decreases count
  {
    if count == n * c {
      FirstRound(n, c, count, q);
      MulMonotone(q + 1, n, c);
      MulMonotone(n, n + q, c);
    } else {
      SecondRound(n, c, count - 1, q);
      ClampStep(count - 1, c, n + q);
      SecondRoundTarget(n, c, count - 1);
    }
  }

  lemma ChunkBounds(count: nat, n: nat)
    requires 0 < n <= count
    ensures count / n > 0
    ensures n * (count / n) <= count < (n + n) * (count / n)
  {
  }

  /** Load balance: each position receives between two and four times the chunk length, even when
      the division leaves a remainder and the chunk indices wrap around. */
  lemma LoadBounds(n: nat, count: nat, p: nat)
    requires 0 < n <= count && p < n
    ensures count / n > 0
    ensures 2 * (count / n) <= |Received(RoundRobin(n, count / n), count, p)| <= 4 * (count / n)
  {
    var c := count / n;
    ChunkBounds(count, n);
    ReceivedSize(RoundRobin(n, c), count, p);
    SecondCopies(n, c, count, p);
    SecondRound(n, c, count, p);
    SecondRound(n, c, count, Previous(n, p));
  }

  // The loop itself.

  datatype Pick<T> = Pick(identity: Identity, tpus: seq<T>)

  /** Cutting a list into chunks of length zero panics. */
  datatype Outcome<T> = Panic | Done(picks: seq<Pick<T>>)

  /** What position `p` has received after `t` leaders and `copies` copies of the next one. */
  function Share<T>(leaders: seq<T>, place: Placement, t: nat, copies: nat, p: nat): seq<T>
    requires t <= |leaders| && (copies > 0 ==> t < |leaders|)
  {
    ReceivedInRange(place, t, p);
    CopiesAre(place, t, p, copies);
    var indices := Received(place, t, p) + Copies(place, t, p, copies);
    assert forall i :: 0 <= i < |indices| ==> indices[i] in indices;
    Values(leaders, indices)
  }

  lemma ShareCopy<T>(leaders: seq<T>, place: Placement, t: nat, copies: nat, p: nat)
    requires t < |leaders|
    ensures Share(leaders, place, t, copies + 1, p)
         == Share(leaders, place, t, copies, p) + if place(t, copies) == p then [leaders[t]] else []
  {
  }

  /** The picks carry what they had before followed by their share. */
  ghost predicate Progress<T>(before: seq<Pick<T>>, now: seq<Pick<T>>, leaders: seq<T>,
                              place: Placement, t: nat, copies: nat)
    requires t <= |leaders| && (copies > 0 ==> t < |leaders|)
  {
    && |now| == |before|
    && forall p :: 0 <= p < |now| ==>
         && now[p].identity == before[p].identity
         && now[p].tpus == before[p].tpus + Share(leaders, place, t, copies, p)
  }

  lemma ProgressNext<T>(before: seq<Pick<T>>, now: seq<Pick<T>>, leaders: seq<T>, place: Placement, t: nat)
    requires t < |leaders| && Progress(before, now, leaders, place, t, N_COPIES)
    ensures Progress(before, now, leaders, place, t + 1, 0)
  {
  }

  /** Pushing one copy of one leader. */
  method PushCopy<T>(ghost before: seq<Pick<T>>, now: seq<Pick<T>>, leaders: seq<T>,
                     n: nat, chunk: nat, i: nat, t: nat, j: nat)
    returns (next: seq<Pick<T>>)
    requires n == |now| > 0 && chunk > 0 && t < |leaders| && t / chunk == i
    requires Progress(before, now, leaders, RoundRobin(n, chunk), t, j)
    ensures Progress(before, next, leaders, RoundRobin(n, chunk), t, j + 1)
  {
    var p := (i + j) % n;
    next := now[p := now[p].(tpus := now[p].tpus + [leaders[t]])];
    forall q | 0 <= q < n
      ensures next[q].tpus == before[q].tpus + Share(leaders, RoundRobin(n, chunk), t, j + 1, q)
    {
      ShareCopy(leaders, RoundRobin(n, chunk), t, j, q);
    }
  }

  /** Pushing every copy of one leader. */
  method PushCopies<T>(ghost before: seq<Pick<T>>, now: seq<Pick<T>>, leaders: seq<T>,
                       n: nat, chunk: nat, i: nat, t: nat)
    returns (next: seq<Pick<T>>)
    requires n == |now| > 0 && chunk > 0 && t < |leaders| && t / chunk == i
    requires Progress(before, now, leaders, RoundRobin(n, chunk), t, 0)
    ensures Progress(before, next, leaders, RoundRobin(n, chunk), t + 1, 0)
  {
    next := now;
    for j := 0 to N_COPIES
      invariant Progress(before, next, leaders, RoundRobin(n, chunk), t, j)
    {
      next := PushCopy(before, next, leaders, n, chunk, i, t, j);
    }
    ProgressNext(before, next, leaders, RoundRobin(n, chunk), t);
  }

  lemma InChunk(c: nat, i: nat, t: nat)
    requires c > 0 && i * c <= t < i * c + c
    ensures t / c == i
  {
    QuotientBelow(t, c, i + 1);
    QuotientBelow(t, c, i);
  }

  /** Pushing one chunk. */
  method PushChunk<T>(ghost before: seq<Pick<T>>, now: seq<Pick<T>>, leaders: seq<T>,
                      n: nat, chunk: nat, i: nat, start: nat, end: nat)
    returns (next: seq<Pick<T>>)
    requires n == |now| > 0 && chunk > 0 && start == i * chunk <= end <= start + chunk && end <= |leaders|
    requires Progress(before, now, leaders, RoundRobin(n, chunk), start, 0)
    ensures Progress(before, next, leaders, RoundRobin(n, chunk), end, 0)
  {
    next := now;
    for t := start to end
      invariant Progress(before, next, leaders, RoundRobin(n, chunk), t, 0)
    {
      InChunk(chunk, i, t);
      next := PushCopies(before, next, leaders, n, chunk, i, t);
    }
  }

  /** Pushing one chunk after the other. */
  method PushChunks<T>(leaders: seq<T>, picks: seq<Pick<T>>, chunk: nat) returns (now: seq<Pick<T>>)
    requires picks != [] && chunk > 0
    ensures Progress(picks, now, leaders, RoundRobin(|picks|, chunk), |leaders|, 0)
  {
    now := picks;
    var i, start := 0, 0;
    while start < |leaders|
      invariant start == i * chunk
      invariant Progress(picks, now, leaders, RoundRobin(|picks|, chunk), Min(start, |leaders|), 0)
    {
      now := PushChunk(picks, now, leaders, |picks|, chunk, i, start, Min(start + chunk, |leaders|));
      assert (i + 1) * chunk == start + chunk;
      i, start := i + 1, start + chunk;
    }
  }

  /** The outcome of the loop: unchanged without leaders, a panic when there are fewer leaders than
      picks, and otherwise each pick followed by its round-robin share of the leaders. */
  ghost predicate Distributed<T>(leaders: seq<T>, picks: seq<Pick<T>>, r: Outcome<T>) {
    && (picks == [] || leaders == [] ==> r == Done(picks))
    && (r.Panic? <==> 0 < |leaders| < |picks|)
    && (0 < |picks| <= |leaders| ==>
          && |leaders| / |picks| > 0
          && Progress(picks, r.picks, leaders, RoundRobin(|picks|, |leaders| / |picks|), |leaders|, 0))
  }

  /** How much longer each pick's list becomes. */
  lemma PickLoad<T>(leaders: seq<T>, picks: seq<Pick<T>>, r: Outcome<T>, p: nat)
    requires Distributed(leaders, picks, r) && p < |picks| <= |leaders|
    ensures var chunk := |leaders| / |picks|;
            2 * chunk <= |r.picks[p].tpus| - |picks[p].tpus| <= 4 * chunk
  {
    LoadBounds(|picks|, |leaders|, p);
    assert Copies(RoundRobin(|picks|, |leaders| / |picks|), |leaders|, p, 0) == [];
  }

  method Distribute<T>(leaders: seq<T>, picks: seq<Pick<T>>) returns (r: Outcome<T>)
    ensures Distributed(leaders, picks, r)
    ensures 0 < |picks| <= |leaders| ==>
              var chunk := |leaders| / |picks|;
              forall p :: 0 <= p < |picks| ==> 2 * chunk <= |r.picks[p].tpus| - |picks[p].tpus| <= 4 * chunk
  {
    var n := |picks|;
    if n == 0 || leaders == [] {
      return Done(picks);
    }
    var chunk := |leaders| / n;
    QuotientBelow(|leaders|, n, 1);
    if chunk == 0 {
      return Panic;
    }
    var now := PushChunks(leaders, picks, chunk);
    r := Done(now);
    forall p: nat | p < n {
      PickLoad(leaders, picks, r, p);
    }
  }

  /** What a pick carries in the end: what it had before, and the leaders with a copy placed there. */
  lemma CarriedIff<T(!new)>(leaders: seq<T>, picks: seq<Pick<T>>, r: Outcome<T>, x: T, p: nat)
    requires Distributed(leaders, picks, r) && p < |picks| <= |leaders|
    ensures |r.picks| == |picks|
    ensures x in r.picks[p].tpus
            <==> || x in picks[p].tpus
                 || exists t: nat :: t < |leaders| && leaders[t] == x && PlacedAt(leaders, picks, t, p)
  {
    var place := RoundRobin(|picks|, |leaders| / |picks|);
    var indices := Received(place, |leaders|, p);
    var share := Share(leaders, place, |leaders|, 0, p);
    ReceivedInRange(place, |leaders|, p);
    assert forall i :: 0 <= i < |indices| ==> indices[i] in indices;
    assert indices + Copies(place, |leaders|, p, 0) == indices;
    assert share == Values(leaders, indices);
    if x in share {
      var i :| 0 <= i < |indices| && leaders[indices[i]] == x;
      assert indices[i] in indices;
      ReceivedIff(place, |leaders|, p, indices[i]);
    }
    forall t: nat | t < |leaders| && leaders[t] == x && PlacedAt(leaders, picks, t, p) ensures x in share {
      ReceivedIff(place, |leaders|, p, t);
      var i :| 0 <= i < |indices| && indices[i] == t;
      assert share[i] == x;
    }
  }

  /** A copy of leader `t` is placed at position `p`. */
  predicate PlacedAt<T>(leaders: seq<T>, picks: seq<Pick<T>>, t: nat, p: nat)
    requires 0 < |picks| <= |leaders| && |leaders| / |picks| > 0
  {
    var place := RoundRobin(|picks|, |leaders| / |picks|);
    p == place(t, 0) || p == place(t, 1)
  }

  /** After the loss of any one pick, every leader is still carried by another pick. */
  lemma EveryLeaderSurvives<T(!new)>(leaders: seq<T>, picks: seq<Pick<T>>, r: Outcome<T>, t: nat, lost: nat)
    returns (p: nat)
    requires Distributed(leaders, picks, r) && 2 <= |picks| <= |leaders| && t < |leaders|
    ensures r.Done? && p < |r.picks| == |picks| && p != lost && leaders[t] in r.picks[p].tpus
  {
    var chunk := |leaders| / |picks|;
    p := SurvivesOneLoss(|picks|, chunk, |leaders|, t, lost);
    ReceivedIff(RoundRobin(|picks|, chunk), |leaders|, p, t);
    assert PlacedAt(leaders, picks, t, p);
    CarriedIff(leaders, picks, r, leaders[t], p);
  }
}
