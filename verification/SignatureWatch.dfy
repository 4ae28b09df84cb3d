/** The signature watcher's queue (server/solana_service.rs:147-201).

    Records are stamped when they are received and queued; on every tick the records that have aged
    enough leave the front of the queue in bundles of bounded size. The clock is any sequence of
    non-decreasing readings. */
module SignatureWatch {
  import opened Orders
  import opened Records

  /** Ten seconds, in milliseconds. */
  const CHECK_AFTER: nat := 10_000
  const MAX_BUNDLE_SIZE: nat := 250

  predicate Aged(r: SignatureRecord, now: nat) {
    now - r.createdAt > CHECK_AFTER
  }

  /** Oldest first. */
  ghost predicate Sorted(queue: seq<SignatureRecord>) {
    forall i, j :: 0 <= i < j < |queue| ==> queue[i].createdAt <= queue[j].createdAt
  }

  ghost predicate BundleOk(bundle: seq<SignatureRecord>, now: nat) {
    && 1 <= |bundle| <= MAX_BUNDLE_SIZE
    && forall i :: 0 <= i < |bundle| ==> Aged(bundle[i], now)
  }

  /** Bundle `k` could not have been larger when it was spawned: it is full, or it took everything there
      was, or the record after it had not aged. */
  ghost predicate Filled(received: seq<SignatureRecord>, bundles: seq<seq<SignatureRecord>>, at: seq<nat>, k: nat)
    requires k < |bundles| == |at|
  {
    var end := |Joined(bundles, k + 1)|;
    && end <= |received|
    && (|bundles[k]| == 250 || end == |received| || at[k] - received[end].createdAt <= 10_000)
  }

  ghost predicate BundlesOk(received: seq<SignatureRecord>, bundles: seq<seq<SignatureRecord>>,
                            at: seq<nat>, now: nat) {
    && |at| == |bundles|
    && (forall k :: 0 <= k < |bundles| ==> at[k] <= now && BundleOk(bundles[k], at[k]))
    && (forall k :: 0 <= k < |bundles| ==> Filled(received, bundles, at, k))
  }

  /** A record that arrives later has not aged by the time of an earlier bundle. */
  lemma BundlesReceive(received: seq<SignatureRecord>, bundles: seq<seq<SignatureRecord>>, at: seq<nat>,
                       now: nat, r: SignatureRecord)
    requires BundlesOk(received, bundles, at, now) && r.createdAt >= now
    ensures BundlesOk(received + [r], bundles, at, r.createdAt)
  {
    forall k | 0 <= k < |bundles| ensures Filled(received + [r], bundles, at, k) {
      assert Filled(received, bundles, at, k);
    }
  }

  lemma FilledBefore(received: seq<SignatureRecord>, bundles: seq<seq<SignatureRecord>>,
                     bundle: seq<SignatureRecord>, at: seq<nat>, now: nat, k: nat)
    requires k < |bundles| == |at| && Filled(received, bundles, at, k)
    ensures Filled(received, bundles + [bundle], at + [now], k)
  {
    JoinedPrefix(bundles, [bundle], k + 1);
  }

  lemma BundlesSpawn(received: seq<SignatureRecord>, bundles: seq<seq<SignatureRecord>>, at: seq<nat>,
                     now: nat, queue: seq<SignatureRecord>, count: nat)
    requires BundlesOk(received, bundles, at, now) && received == Flatten(bundles) + queue
    requires 0 < count <= |queue| && BundleOk(queue[..count], now)
    requires count == MAX_BUNDLE_SIZE || count == |queue| || !Aged(queue[count], now)
    ensures BundlesOk(received, bundles + [queue[..count]], at + [now], now)
  {
    var more := bundles + [queue[..count]];
    FlattenSnoc(bundles, queue[..count]);
    forall k: nat | k < |bundles| ensures Filled(received, more, at + [now], k) {
      assert Filled(received, bundles, at, k);
      FilledBefore(received, bundles, queue[..count], at, now, k);
    }
    assert Filled(received, more, at + [now], |bundles|);
  }

  /** Moving a prefix of the queue into a new bundle keeps the overall order of records. */
  lemma FlattenMoves<T>(bundles: seq<seq<T>>, queue: seq<T>, n: nat)
    requires n <= |queue|
    ensures Flatten(bundles + [queue[..n]]) + queue[n..] == Flatten(bundles) + queue
  {
    FlattenSnoc(bundles, queue[..n]);
    assert queue[..n] + queue[n..] == queue;
  }

  /** A queue whose head has not aged holds no aged record. */
  lemma YoungHead(queue: seq<SignatureRecord>, now: nat)
    requires Sorted(queue) && (queue != [] ==> !Aged(queue[0], now))
    ensures forall i :: 0 <= i < |queue| ==> !Aged(queue[i], now)
  {
  }

  /** The bundles and the queue hold what was received, in order; the queue is sorted by age. */
  ghost predicate InOrder(received: seq<SignatureRecord>, bundles: seq<seq<SignatureRecord>>, at: seq<nat>,
                          queue: seq<SignatureRecord>, now: nat) {
    && Flatten(bundles) + queue == received
    && Sorted(queue)
    && (forall i :: 0 <= i < |queue| ==> queue[i].createdAt <= now)
    && BundlesOk(received, bundles, at, now)
  }

  class Watcher {
    var queue: seq<SignatureRecord>
    var spawned: seq<seq<SignatureRecord>>
    /** The last clock reading. */
    var now: nat
    /** Everything received so far, as stamped. */
    ghost var received: seq<SignatureRecord>
    /** The clock reading at which each bundle was spawned. */
    ghost var spawnedAt: seq<nat>

    ghost predicate Valid()
      reads this
    {
      InOrder(received, spawned, spawnedAt, queue, now)
    }

    constructor ()
      ensures Valid() && queue == [] && spawned == [] && received == []
    {
      queue, spawned, now, received, spawnedAt := [], [], 0, [], [];
    }

    method ReadClock() returns (t: nat)
      requires Valid()
      modifies this`now
      ensures Valid() && t == now >= old(now)
    {
      var later: nat :| later >= now;
      now := later;
      t := later;
    }

    method Receive(record: SignatureRecord)
      requires Valid()
      modifies this
      ensures Valid() && now >= old(now)
      ensures received == old(received) + [record.(createdAt := now)] && spawnedAt == old(spawnedAt)
      ensures queue == old(queue) + [record.(createdAt := now)] && spawned == old(spawned)
    {
      var t := ReadClock();
      var stamped := record.(createdAt := t);
      BundlesReceive(received, spawned, spawnedAt, now, stamped);
      assert Flatten(spawned) + (queue + [stamped]) == Flatten(spawned) + queue + [stamped];
      queue := queue + [stamped];
      received := received + [stamped];
    }

    /** Counts the aged records at the front, up to the bundle size; the clock is read for each. */
    method CountAged() returns (count: nat)
      requires Valid()
      modifies this`now
      ensures Valid() && now >= old(now)
      ensures count <= |queue| && count <= MAX_BUNDLE_SIZE
      ensures forall i :: 0 <= i < count ==> Aged(queue[i], now)
      ensures count == |queue| || count == MAX_BUNDLE_SIZE || !Aged(queue[count], now)
    {
      count := 0;
      while count < |queue|
        invariant Valid() && now >= old(now)
        invariant count <= |queue| && count <= MAX_BUNDLE_SIZE
        invariant forall i :: 0 <= i < count ==> Aged(queue[i], now)
      {
        var t := ReadClock();
        if t - queue[count].createdAt > CHECK_AFTER && count < MAX_BUNDLE_SIZE {
          count := count + 1;
        } else {
          break;
        }
      }
    }

    /** Moves the first `count` records into a bundle of their own. */
    method SpawnBundle(count: nat)
      requires Valid() && 0 < count <= |queue| && count <= MAX_BUNDLE_SIZE
      requires forall i :: 0 <= i < count ==> Aged(queue[i], now)
      requires count == |queue| || count == MAX_BUNDLE_SIZE || !Aged(queue[count], now)
      modifies this`queue, this`spawned, this`spawnedAt
      ensures Valid()
      ensures spawned == old(spawned) + [old(queue)[..count]] && queue == old(queue)[count..]
      ensures spawnedAt == old(spawnedAt) + [now]
    {
      FlattenMoves(spawned, queue, count);
      BundlesSpawn(received, spawned, spawnedAt, now, queue, count);
      spawned := spawned + [queue[..count]];
      spawnedAt := spawnedAt + [now];
      queue := queue[count..];
    }

    /** Spawns bundles until no aged record is at the front. */
    method SpawnAged()
      requires Valid()
      modifies this`now, this`queue, this`spawned, this`spawnedAt
      ensures Valid() && now >= old(now)
      ensures old(spawned) <= spawned && old(spawnedAt) <= spawnedAt
      ensures old(queue) == Flatten(spawned[|old(spawned)|..]) + queue
      ensures forall k :: |old(spawned)| <= k < |spawned| ==> old(now) <= spawnedAt[k]
      ensures queue != [] ==> !Aged(queue[0], now)
    {
      while true
        invariant Valid() && now >= old(now)
        invariant old(spawned) <= spawned && old(spawnedAt) <= spawnedAt
        invariant old(queue) == Flatten(spawned[|old(spawned)|..]) + queue
        invariant forall k :: |old(spawned)| <= k < |spawned| ==> old(now) <= spawnedAt[k]
        decreases |queue|
      {
        var count := CountAged();
        if count == 0 {
          break;
        }
        FlattenMoves(spawned[|old(spawned)|..], queue, count);
        ghost var before := spawned;
        SpawnBundle(count);
        assert spawned[|old(spawned)|..] == before[|old(spawned)|..] + [spawned[|before|]];
      }
    }

    /** Conserves the records in order, spawns only bundles of aged records, each as large as it could be,
        and leaves no record that was aged at the last clock reading. */
    method Tick()
      requires Valid()
      modifies this`now, this`queue, this`spawned, this`spawnedAt
      ensures Valid() && now >= old(now)
      ensures old(spawned) <= spawned && old(spawnedAt) <= spawnedAt
      ensures old(queue) == Flatten(spawned[|old(spawned)|..]) + queue
      ensures forall k :: |old(spawned)| <= k < |spawned| ==>
                && old(now) <= spawnedAt[k] <= now
                && 1 <= |spawned[k]| <= 250
                && (forall i :: 0 <= i < |spawned[k]| ==> spawnedAt[k] - spawned[k][i].createdAt > 10_000)
      ensures forall k :: |old(spawned)| <= k < |spawned| ==> Filled(received, spawned, spawnedAt, k)
      ensures forall i :: 0 <= i < |queue| ==> now - queue[i].createdAt <= 10_000
    {
      SpawnAged();
      YoungHead(queue, now);
    }
  }
}
