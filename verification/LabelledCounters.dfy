/** Labelled metric counters; a label that was never incremented reads zero. */
module LabelledCounters {

  type Counter<K> = map<K, nat>

  function Read<K>(c: Counter<K>, k: K): nat {
    if k in c then c[k] else 0
  }

  function Inc<K>(c: Counter<K>, k: K): Counter<K> {
    c[k := Read(c, k) + 1]
  }

  lemma IncReads<K>(c: Counter<K>, k: K, other: K)
    ensures Read(Inc(c, k), other) == Read(c, other) + if k == other then 1 else 0
  {
  }

  /** One increment for each of the first `n` keys. */
  function IncEach<K>(c: Counter<K>, ks: seq<K>, n: nat): Counter<K>
    requires n <= |ks|
  {
    if n == 0 then c else Inc(IncEach(c, ks, n - 1), ks[n - 1])
  }

  /** How many of the first `n` keys are `k`. */
  function Occurs<K(==)>(ks: seq<K>, n: nat, k: K): nat
    requires n <= |ks|
  {
    if n == 0 then 0 else Occurs(ks, n - 1, k) + if ks[n - 1] == k then 1 else 0
  }

  lemma {:induction false} OccursPrefix<K>(a: seq<K>, b: seq<K>, n: nat, k: K)
    requires n <= |a|
    ensures Occurs(a + b, n, k) == Occurs(a, n, k)
  {
    if n > 0 { OccursPrefix(a, b, n - 1, k); }
  }

  lemma {:induction false} OccursSuffix<K>(a: seq<K>, b: seq<K>, n: nat, k: K)
    requires n <= |b|
    ensures Occurs(a + b, |a| + n, k) == Occurs(a, |a|, k) + Occurs(b, n, k)
  {
    if n == 0 {
      OccursPrefix(a, b, |a|, k);
    } else {
      OccursSuffix(a, b, n - 1, k);
    }
  }

  lemma OccursAppend<K>(a: seq<K>, b: seq<K>, k: K)
    ensures Occurs(a + b, |a + b|, k) == Occurs(a, |a|, k) + Occurs(b, |b|, k)
  {
    OccursSuffix(a, b, |b|, k);
  }

  lemma {:induction false} OccursBelow<K>(ks: seq<K>, n: nat, k: K)
    requires n <= |ks|
    ensures Occurs(ks, n, k) > 0 <==> exists i :: 0 <= i < n && ks[i] == k
  {
    if n > 0 { OccursBelow(ks, n - 1, k); }
  }

  lemma OccursPositive<K>(ks: seq<K>, k: K)
    ensures Occurs(ks, |ks|, k) > 0 <==> k in ks
  {
    OccursBelow(ks, |ks|, k);
  }

  lemma {:induction false} OccursMonotone<K>(ks: seq<K>, n: nat, m: nat, k: K)
    requires n <= m <= |ks|
    ensures Occurs(ks, n, k) <= Occurs(ks, m, k)
    decreases m
  {
    if n < m { OccursMonotone(ks, n, m - 1, k); }
  }

  function IncAll<K>(c: Counter<K>, ks: seq<K>): Counter<K> {
    IncEach(c, ks, |ks|)
  }

  lemma IncAllOne<K>(c: Counter<K>, k: K)
    ensures IncAll(c, [k]) == Inc(c, k)
  {
    assert IncEach(c, [k], 0) == c;
  }

  lemma {:induction false} IncEachPrefix<K>(c: Counter<K>, a: seq<K>, b: seq<K>, n: nat)
    requires n <= |a|
    ensures IncEach(c, a + b, n) == IncEach(c, a, n)
  {
    if n > 0 { IncEachPrefix(c, a, b, n - 1); }
  }

  lemma {:induction false} IncEachSuffix<K>(c: Counter<K>, a: seq<K>, b: seq<K>, n: nat)
    requires n <= |b|
    ensures IncEach(c, a + b, |a| + n) == IncEach(IncAll(c, a), b, n)
  {
    if n == 0 {
      IncEachPrefix(c, a, b, |a|);
    } else {
      IncEachSuffix(c, a, b, n - 1);
    }
  }

  lemma IncAllAppend<K>(c: Counter<K>, a: seq<K>, b: seq<K>)
    ensures IncAll(c, a + b) == IncAll(IncAll(c, a), b)
  {
    IncEachSuffix(c, a, b, |b|);
  }

  lemma {:induction false} IncEachReads<K>(c: Counter<K>, ks: seq<K>, n: nat, k: K)
    requires n <= |ks|
    ensures Read(IncEach(c, ks, n), k) == Read(c, k) + Occurs(ks, n, k)
  {
    if n > 0 {
      IncEachReads(c, ks, n - 1, k);
      IncReads(IncEach(c, ks, n - 1), ks[n - 1], k);
    }
  }
}
