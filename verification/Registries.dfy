/** The balancer's registry of connected consumers as a value, with the operations that change it
    (server/balancer.rs). The mutable `Balancing.Balancer` is proved to perform exactly these
    operations; the session protocol in `Sessions` interleaves them. */
module Registries {
  import opened Orders
  import opened Records

  type Token = string
  /** Names one connection: the channel endpoints a consumer record owns belong to this session. */
  type SessionId = nat

  datatype Consumer = Consumer(
    identity: Identity, stake: nat, token: Token, session: SessionId, flagged: bool)

  /** `gauge` is the exported count of connected consumers; `signalled` collects the sessions whose
      consumer record was dropped, which is what fires their unsubscribe signal; `summedWith` remembers
      the weights in force when the total was last computed. */
  datatype Registry = Registry(
    consumers: map<Identity, Consumer>,
    weights: map<Identity, nat>,
    total: nat,
    gauge: nat,
    signalled: set<SessionId>,
    summedWith: map<Identity, nat>)

  const INITIAL := Registry(map[], map[], 0, 0, {}, map[])

  /** An identity without a published weight counts as one. */
  function StakeOf(weights: map<Identity, nat>, id: Identity): nat {
    if id in weights then weights[id] else 1
  }

  ghost function StakeSum(m: map<Identity, Consumer>): nat {
    if m == map[] then 0
    else
      var id :| id in m;
      m[id].stake + StakeSum(m - {id})
  }

  /** The sum does not depend on the order in which the entries are visited. */
  lemma {:induction false} StakeSumRemove(m: map<Identity, Consumer>, id: Identity)
    requires id in m
    ensures StakeSum(m) == m[id].stake + StakeSum(m - {id})
    decreases |m|
  {
    var first :| first in m && StakeSum(m) == m[first].stake + StakeSum(m - {first});
    if first != id {
      StakeSumRemove(m - {first}, id);
      StakeSumRemove(m - {id}, first);
      assert m - {first} - {id} == m - {id} - {first};
    }
  }

  /** The consumers with their stakes taken from `weights`. */
  function Restaked(m: map<Identity, Consumer>, weights: map<Identity, nat>): map<Identity, Consumer> {
    map id | id in m :: m[id].(stake := StakeOf(weights, id))
  }

  ghost function Recalculated(r: Registry): Registry {
    r.(total := StakeSum(r.consumers), gauge := |r.consumers|, summedWith := r.weights)
  }

  /** Inserting over an existing entry drops the old record, which signals its session. */
  ghost function Subscribe(r: Registry, id: Identity, token: Token, session: SessionId): Registry {
    var dropped := if id in r.consumers then {r.consumers[id].session} else {};
    var c := Consumer(id, StakeOf(r.weights, id), token, session, false);
    Recalculated(r.(consumers := r.consumers[id := c], signalled := r.signalled + dropped))
  }

  /** Removal is guarded by the token of the caller. */
  ghost function Unsubscribe(r: Registry, id: Identity, token: Token): Registry {
    if id in r.consumers && r.consumers[id].token == token then
      Recalculated(r.(consumers := r.consumers - {id},
                      signalled := r.signalled + {r.consumers[id].session}))
    else r
  }

  function UpdateWeights(r: Registry, weights: map<Identity, nat>): Registry {
    r.(weights := weights, consumers := Restaked(r.consumers, weights))
  }

  /** A send to the consumer's channel failed. */
  function Flag(r: Registry, id: Identity): Registry {
    if id in r.consumers then
      r.(consumers := r.consumers[id := r.consumers[id].(flagged := true)])
    else r
  }

  function FlaggedIds(m: map<Identity, Consumer>): set<Identity> {
    set id | id in m && m[id].flagged
  }

  function SessionsOf(m: map<Identity, Consumer>, ids: set<Identity>): set<SessionId> {
    set id | id in m && id in ids :: m[id].session
  }

  /** Removing several consumers, each one signalled; the total is recomputed only if there is one. */
  ghost function RemoveAll(r: Registry, ids: set<Identity>): Registry {
    if ids == {} then r
    else Recalculated(r.(consumers := r.consumers - ids,
                         signalled := r.signalled + SessionsOf(r.consumers, ids)))
  }

  /** Flushing removes exactly the consumers with a failed send. */
  ghost function Flush(r: Registry): Registry {
    RemoveAll(r, FlaggedIds(r.consumers))
  }

  lemma RemovalEffect(r: Registry, ids: set<Identity>)
    ensures RemoveAll(r, ids).consumers == r.consumers - ids
    ensures RemoveAll(r, ids).signalled == r.signalled + SessionsOf(r.consumers, ids)
    ensures RemoveAll(r, ids).weights == r.weights
  {
    if ids == {} {
      assert r.consumers - ids == r.consumers;
      assert SessionsOf(r.consumers, ids) == {};
    }
  }

  lemma SessionsOfOneMore(m: map<Identity, Consumer>, ids: set<Identity>, id: Identity)
    requires id in m
    ensures SessionsOf(m, ids + {id}) == SessionsOf(m, ids) + {m[id].session}
  {
  }

  /** Only the consumers, the weights and the signals survive a recomputation. */
  lemma RecalculatedFrom(a: Registry, b: Registry)
    requires a.consumers == b.consumers && a.weights == b.weights && a.signalled == b.signalled
    ensures Recalculated(a) == Recalculated(b)
  {
  }

  /** Unsubscribing consumers one after the other, each with its own token, removes them all. */
  lemma RemoveOneMore(r: Registry, ids: set<Identity>, id: Identity)
    requires id in r.consumers && id !in ids
    ensures Unsubscribe(RemoveAll(r, ids), id, r.consumers[id].token) == RemoveAll(r, ids + {id})
  {
    var mid := RemoveAll(r, ids);
    RemovalEffect(r, ids);
    SessionsOfOneMore(r.consumers, ids, id);
    assert mid.consumers - {id} == r.consumers - (ids + {id});
    assert r.signalled + SessionsOf(r.consumers, ids + {id}) == mid.signalled + {r.consumers[id].session};
    RecalculatedFrom(
      mid.(consumers := mid.consumers - {id}, signalled := mid.signalled + {r.consumers[id].session}),
      r.(consumers := r.consumers - (ids + {id}), signalled := r.signalled + SessionsOf(r.consumers, ids + {id})));
  }

  /** The stakes of the consumers in iteration order. */
  function Stakes(m: map<Identity, Consumer>, order: seq<Identity>): (s: seq<nat>)
    requires forall id :: id in order ==> id in m
    ensures |s| == |order|
  {
    seq(|order|, i requires 0 <= i < |order| => m[order[i]].stake)
  }

  lemma {:induction false} StakeSumInOrder(m: map<Identity, Consumer>, order: seq<Identity>)
    requires IsOrder(order, m.Keys)
    ensures Total(Stakes(m, order)) == StakeSum(m)
    decreases |order|
  {
    if order == [] {
      assert m.Keys == {};
    } else {
      var n := |order| - 1;
      var id := order[n];
      FrontOrder(order, m.Keys);
      assert (m - {id}).Keys == m.Keys - {id};
      StakeSumInOrder(m - {id}, order[..n]);
      assert Stakes(m, order)[..n] == Stakes(m - {id}, order[..n]);
      StakeSumRemove(m, id);
    }
  }
}
