/** The mutable objects carry out runs of the machines, so what is proved of every run holds of them. */
module Refinement {
  import opened Orders
  import opened Runs
  import opened LabelledCounters
  import opened Records
  import opened Registries
  import opened Balancing
  import opened Allocation
  import opened SignatureWatch
  import Accounting = SignatureAccounting
  import Sampling
  import Sessions

  // The balancer and its sessions.

  /** The failed sends of a publish, in pick order, as events of the session protocol. */
  function FailedSends(picks: seq<LeaderPick>, sent: nat -> bool, n: nat): (events: seq<Sessions.Event>)
    requires n <= |picks|
  {
    if n == 0 then []
    else if sent(n - 1) then FailedSends(picks, sent, n - 1)
    else FailedSends(picks, sent, n - 1) + [Sessions.SendFailed(picks[n - 1].identity)]
  }

  function WithConsumers(st: Sessions.State, m: map<Identity, Consumer>): Sessions.State {
    st.(registry := st.registry.(consumers := m))
  }

  lemma FailedSend(st: Sessions.State, m: map<Identity, Consumer>, id: Identity)
    requires id in m
    ensures Sessions.Next(WithConsumers(st, m), Sessions.SendFailed(id))
         == Some(WithConsumers(st, m[id := m[id].(flagged := true)]))
  {
  }

  /** Publishing is one step of the session protocol for each failed send. */
  lemma {:induction false} PublishIsRun(st: Sessions.State, picks: seq<LeaderPick>, sent: nat -> bool, n: nat)
    requires n <= |picks| && forall i :: 0 <= i < |picks| ==> picks[i].identity in st.registry.consumers
    ensures Exec(Sessions.Next, st, FailedSends(picks, sent, n))
         == Some(WithConsumers(st, FlagEach(st.registry.consumers, picks, sent, n)))
  {
    if n > 0 {
      PublishIsRun(st, picks, sent, n - 1);
      if !sent(n - 1) {
        FailedSend(st, FlagEach(st.registry.consumers, picks, sent, n - 1), picks[n - 1].identity);
        ExecSnoc(Sessions.Next, st, FailedSends(picks, sent, n - 1), Sessions.SendFailed(picks[n - 1].identity));
      }
    }
  }

  lemma SendsExtendRun(run: seq<Sessions.Event>, picks: seq<LeaderPick>, sent: nat -> bool)
    requires Sessions.IsRun(run)
    requires forall i :: 0 <= i < |picks| ==> picks[i].identity in Sessions.After(run).registry.consumers
    ensures var st, events := Sessions.After(run), FailedSends(picks, sent, |picks|);
            && Sessions.IsRun(run + events)
            && Sessions.After(run + events)
               == WithConsumers(st, FlagEach(st.registry.consumers, picks, sent, |picks|))
  {
    PublishIsRun(Sessions.After(run), picks, sent, |picks|);
    ExecConcat(Sessions.Next, Sessions.START, run, FailedSends(picks, sent, |picks|));
  }

  /** What a publish changes in the registry, and under which label it is watched. */
  method PublishFlags(b: Balancer, session: SignatureRecord, data: string, orders: nat -> seq<Identity>,
                      draws: Sampling.Generator, sent: nat -> bool, inboxOpen: bool)
    returns (result: PublishResult, ghost picks: seq<LeaderPick>)
    requires b.Valid() && Sampling.InRange(draws) && forall i :: IsOrder(orders(i), b.consumers.Keys)
    modifies b
    ensures b.Valid()
    ensures !result.Published? ==> b.State() == old(b.State())
    ensures result.Published? ==>
              && (forall i :: 0 <= i < |picks| ==> picks[i].identity in old(b.consumers))
              && b.State() == old(b.State()).(consumers := FlagEach(old(b.consumers), picks, sent, |picks|))
    ensures result.Published? && inboxOpen ==>
              && |b.inbox| == |old(b.inbox)| + 1
              && Accounting.LabelOf(b.inbox[|old(b.inbox)|]) == Accounting.Label(session.partner, session.mode)
  {
    ghost var base;
    result, base, picks := b.Publish(session, session.signature, data, orders, draws, sent, inboxOpen);
  }

  /** The server: the balancer together with the run of the session protocol it has carried out. */
  class Server {
    const balancer: Balancer
    /** The number of the next session. */
    var next: nat
    ghost var run: seq<Sessions.Event>

    ghost predicate Valid()
      reads this, balancer
    {
      && balancer.Valid()
      && Sessions.IsRun(run)
      && balancer.State() == Sessions.After(run).registry
      && next == |Sessions.After(run).sessions|
    }

    constructor ()
      ensures Valid() && run == [] && fresh(balancer)
    {
      balancer := new Balancer();
      next, run := 0, [];
    }

    method Connect(id: Identity, token: Token) returns (s: SessionId)
      requires Valid()
      modifies this, balancer
      ensures Valid() && s == old(next) && run == old(run) + [Sessions.Connect(id, token)]
    {
      Sessions.Snoc(run, Sessions.Connect(id, token));
      s := next;
      balancer.Subscribe(id, token, s);
      next := next + 1;
      run := run + [Sessions.Connect(id, token)];
    }

    /** The loop of a session ends; the balancer is not involved. */
    ghost method Exit(e: Sessions.Event)
      requires Valid() && (e.Evict? || e.Leave?) && Sessions.Enabled(Sessions.After(run), e)
      modifies this`run
      ensures Valid() && run == old(run) + [e]
    {
      Sessions.Snoc(run, e);
      run := run + [e];
    }

    /** The session unsubscribes with the identity and the token it was opened with. */
    method Cleanup(s: SessionId, id: Identity, token: Token)
      requires Valid() && Sessions.Enabled(Sessions.After(run), Sessions.Cleanup(s))
      requires id == Sessions.After(run).sessions[s].identity && token == Sessions.After(run).sessions[s].token
      modifies this`run, balancer
      ensures Valid() && run == old(run) + [Sessions.Cleanup(s)]
    {
      Sessions.Snoc(run, Sessions.Cleanup(s));
      balancer.Unsubscribe(id, token);
      run := run + [Sessions.Cleanup(s)];
    }

    method UpdateStakeWeights(weights: map<Identity, nat>)
      requires Valid()
      modifies this`run, balancer
      ensures Valid() && run == old(run) + [Sessions.NewWeights(weights)]
    {
      Sessions.Snoc(run, Sessions.NewWeights(weights));
      balancer.UpdateStakeWeights(weights);
      run := run + [Sessions.NewWeights(weights)];
    }

    method UpdateLeaders(plain: set<Identity>, infos: map<Identity, LeaderInfo>, gossip: map<Identity, string>,
                         parses: Identity -> bool)
      returns (alive: bool)
      requires Valid()
      modifies this`run, balancer
      ensures Valid() && run == old(run) + if alive then [Sessions.FlushFlagged] else []
    {
      Sessions.Snoc(run, Sessions.FlushFlagged);
      alive := balancer.UpdateLeaders(plain, infos, gossip, parses);
      if alive {
        run := run + [Sessions.FlushFlagged];
      }
    }

    method Publish(session: SignatureRecord, data: string, orders: nat -> seq<Identity>, draws: Sampling.Generator,
                   sent: nat -> bool, inboxOpen: bool)
      returns (result: PublishResult, ghost picks: seq<LeaderPick>)
      requires Valid() && Sampling.InRange(draws) && forall i :: IsOrder(orders(i), balancer.consumers.Keys)
      modifies this`run, balancer
      ensures Valid()
      ensures result.Published? && inboxOpen ==>
                && |balancer.inbox| == |old(balancer.inbox)| + 1
                && Accounting.LabelOf(balancer.inbox[|old(balancer.inbox)|])
                   == Accounting.Label(session.partner, session.mode)
      ensures run == old(run) + if result.Published? then FailedSends(picks, sent, |picks|) else []
    {
      result, picks := PublishFlags(balancer, session, data, orders, draws, sent, inboxOpen);
      if result.Published? {
        SendsExtendRun(run, picks, sent);
        run := run + FailedSends(picks, sent, |picks|);
      }
    }
  }

  // The watcher and its checkers.

  /** The machine holds the same records in the same places as the watcher. */
  ghost predicate Tracks(st: Accounting.State, received: seq<SignatureRecord>, queue: seq<SignatureRecord>,
                         spawned: seq<seq<SignatureRecord>>) {
    && st.received == received && st.queue == queue && |st.checkers| == |spawned|
    && forall k :: 0 <= k < |spawned| ==> st.checkers[k].bundle == spawned[k]
  }

  /** One spawn for each bundle. */
  function Spawns(bundles: seq<seq<SignatureRecord>>): (events: seq<Accounting.Event>)
    ensures |events| == |bundles|
  {
    seq(|bundles|, i requires 0 <= i < |bundles| => Accounting.Spawn(|bundles[i]|))
  }

  function Asking(bundles: seq<seq<SignatureRecord>>): (checkers: seq<Accounting.Checker>)
    ensures |checkers| == |bundles|
  {
    seq(|bundles|, i requires 0 <= i < |bundles| => Accounting.Asking(bundles[i]))
  }

  lemma {:induction false} JoinedGrows<T>(pieces: seq<seq<T>>, n: nat, m: nat)
    requires n <= m <= |pieces|
    ensures Joined(pieces, n) <= Joined(pieces, m)
    decreases m
  {
    if n < m { JoinedGrows(pieces, n, m - 1); }
  }

  /** What is left of the queue after `n` bundles begins with the next one. */
  lemma NextBundle(queue: seq<SignatureRecord>, bundles: seq<seq<SignatureRecord>>, n: nat)
    requires n < |bundles| && Flatten(bundles) <= queue
    ensures |Joined(bundles, n)| + |bundles[n]| == |Joined(bundles, n + 1)| <= |queue|
    ensures queue[|Joined(bundles, n)|..][..|bundles[n]|] == bundles[n]
  {
    JoinedGrows(bundles, n + 1, |bundles|);
    assert Joined(bundles, n + 1) == queue[..|Joined(bundles, n + 1)|];
  }

  /** The state after spawning the first `n` bundles. */
  ghost function AfterSpawns(st: Accounting.State, bundles: seq<seq<SignatureRecord>>, n: nat): Accounting.State
    requires n <= |bundles| && Flatten(bundles) <= st.queue
  {
    JoinedGrows(bundles, n, |bundles|);
    st.(queue := st.queue[|Joined(bundles, n)|..], checkers := st.checkers + Asking(bundles[..n]))
  }

  lemma SpawnOne(st: Accounting.State, bundles: seq<seq<SignatureRecord>>, n: nat)
    requires n < |bundles| && Flatten(bundles) <= st.queue && bundles[n] != []
    ensures Accounting.Next(AfterSpawns(st, bundles, n), Accounting.Spawn(|bundles[n]|))
         == Some(AfterSpawns(st, bundles, n + 1))
  {
    NextBundle(st.queue, bundles, n);
    var a, b := |Joined(bundles, n)|, |Joined(bundles, n + 1)|;
    assert st.queue[a..][|bundles[n]|..] == st.queue[b..];
    assert Asking(bundles[..n + 1]) == Asking(bundles[..n]) + [Accounting.Asking(bundles[n])];
    assert st.checkers + Asking(bundles[..n]) + [Accounting.Asking(bundles[n])]
        == st.checkers + (Asking(bundles[..n]) + [Accounting.Asking(bundles[n])]);
  }

  lemma AllSpawned(st: Accounting.State, bundles: seq<seq<SignatureRecord>>)
    requires Flatten(bundles) <= st.queue
    ensures AfterSpawns(st, bundles, 0) == st
    ensures AfterSpawns(st, bundles, |bundles|)
         == st.(queue := st.queue[|Flatten(bundles)|..], checkers := st.checkers + Asking(bundles))
  {
    assert Asking(bundles[..0]) == [] && st.checkers + [] == st.checkers;
    assert bundles[..|bundles|] == bundles;
  }

  /** Spawning bundles that are cut off the front of the queue is one `Spawn` event for each. */
  lemma SpawnsRun(st: Accounting.State, bundles: seq<seq<SignatureRecord>>)
    requires Flatten(bundles) <= st.queue && forall k :: 0 <= k < |bundles| ==> bundles[k] != []
    ensures Exec(Accounting.Next, st, Spawns(bundles)) == Some(AfterSpawns(st, bundles, |bundles|))
  {
    var states := seq(|bundles| + 1, n requires 0 <= n <= |bundles| => AfterSpawns(st, bundles, n));
    forall n: nat | n < |bundles| {
      SpawnOne(st, bundles, n);
    }
    AllSpawned(st, bundles);
    Chain(Accounting.Next, Spawns(bundles), states);
  }

  /** Appending a record to the queue is a `Receive` event. */
  lemma ReceiveIsRun(run: seq<Accounting.Event>, st: Accounting.State, received: seq<SignatureRecord>,
                     queue: seq<SignatureRecord>, spawned: seq<seq<SignatureRecord>>, r: SignatureRecord)
    requires Exec(Accounting.Next, Accounting.START, run) == Some(st) && Tracks(st, received, queue, spawned)
    ensures var st' := st.(received := received + [r], queue := queue + [r]);
            && Exec(Accounting.Next, Accounting.START, run + [Accounting.Receive(r)]) == Some(st')
            && Tracks(st', received + [r], queue + [r], spawned)
  {
    ExecSnoc(Accounting.Next, Accounting.START, run, Accounting.Receive(r));
  }

  /** A tick of the watcher is a run of spawns. */
  lemma TickIsRun(st: Accounting.State, received: seq<SignatureRecord>, queue: seq<SignatureRecord>,
                  spawned: seq<seq<SignatureRecord>>, bundles: seq<seq<SignatureRecord>>, rest: seq<SignatureRecord>)
    requires Tracks(st, received, queue, spawned) && queue == Flatten(bundles) + rest
    requires forall k :: 0 <= k < |bundles| ==> bundles[k] != []
    ensures var st' := Exec(Accounting.Next, st, Spawns(bundles));
            && st'.Some? && st'.value.counters == st.counters
            && Tracks(st'.value, received, rest, spawned + bundles)
  {
    SpawnsRun(st, bundles);
    AllSpawned(st, bundles);
  }

  /** The increments of checker `i` with nothing in between. */
  function Counts(i: nat, n: nat): (events: seq<Accounting.Event>)
    ensures |events| == n
  {
    seq(n, _ => Accounting.CountNext(i))
  }

  /** The state after the first `n` of them. */
  ghost function AfterCounts(st: Accounting.State, i: nat, n: nat): Accounting.State
    requires i < |st.checkers| && st.checkers[i].Counting? && |st.checkers[i].ips| == |st.checkers[i].bundle|
    requires n <= |Accounting.ScriptOf(st.checkers[i])|
  {
    st.(checkers := st.checkers[i := st.checkers[i].(next := n)],
        counters := IncEach(st.counters, Accounting.ScriptOf(st.checkers[i]), n))
  }

  lemma CountOne(st: Accounting.State, i: nat, n: nat)
    requires i < |st.checkers| && st.checkers[i].Counting? && |st.checkers[i].ips| == |st.checkers[i].bundle|
    requires n < |Accounting.ScriptOf(st.checkers[i])|
    ensures Accounting.Next(AfterCounts(st, i, n), Accounting.CountNext(i)) == Some(AfterCounts(st, i, n + 1))
  {
    var c := st.checkers[i];
    assert st.checkers[i := c.(next := n)][i := c.(next := n + 1)] == st.checkers[i := c.(next := n + 1)];
  }

  /** An undisturbed checker is a run of single increments. */
  lemma CheckerIsRun(st: Accounting.State, i: nat)
    requires i < |st.checkers| && st.checkers[i].Counting? && |st.checkers[i].ips| == |st.checkers[i].bundle|
    requires st.checkers[i].next == 0
    ensures var n := |Accounting.ScriptOf(st.checkers[i])|;
            Exec(Accounting.Next, st, Counts(i, n)) == Some(AfterCounts(st, i, n))
  {
    var n := |Accounting.ScriptOf(st.checkers[i])|;
    var states := seq(n + 1, k requires 0 <= k <= n => AfterCounts(st, i, k));
    forall k: nat | k < n {
      CountOne(st, i, k);
    }
    assert st.checkers[i := st.checkers[i]] == st.checkers;
    Chain(Accounting.Next, Counts(i, n), states);
  }

  /** The watcher's task and the metrics its checkers share, with the run they have carried out. */
  class Watching {
    const watcher: Watcher
    const metrics: Accounting.Metrics
    ghost var run: seq<Accounting.Event>
    ghost var st: Accounting.State

    ghost predicate Valid()
      reads this, watcher, metrics
    {
      && watcher.Valid()
      && Exec(Accounting.Next, Accounting.START, run) == Some(st)
      && Tracks(st, watcher.received, watcher.queue, watcher.spawned)
      && metrics.counters == st.counters
    }

    constructor ()
      ensures Valid() && run == [] && fresh(watcher) && fresh(metrics)
    {
      watcher := new Watcher();
      metrics := new Accounting.Metrics();
      run, st := [], Accounting.START;
    }

    method Receive(record: SignatureRecord)
      requires Valid()
      modifies this, watcher
      ensures Valid() && run == old(run) + [Accounting.Receive(record.(createdAt := watcher.now))]
      ensures watcher.received == old(watcher.received) + [record.(createdAt := watcher.now)]
    {
      watcher.Receive(record);
      ghost var stamped := record.(createdAt := watcher.now);
      ReceiveIsRun(run, st, old(watcher.received), old(watcher.queue), old(watcher.spawned), stamped);
      run := run + [Accounting.Receive(stamped)];
      st := st.(received := watcher.received, queue := watcher.queue);
    }

    method Tick()
      requires Valid()
      modifies this, watcher
      ensures Valid() && old(watcher.spawned) <= watcher.spawned
      ensures var bundles := watcher.spawned[|old(watcher.spawned)|..];
              run == old(run) + Spawns(bundles)
    {
      watcher.Tick();
      ghost var bundles := watcher.spawned[|old(watcher.spawned)|..];
      ghost var events := Spawns(bundles);
      assert forall k :: 0 <= k < |bundles| ==> bundles[k] == watcher.spawned[|old(watcher.spawned)| + k];
      TickIsRun(st, watcher.received, old(watcher.queue), old(watcher.spawned), bundles, watcher.queue);
      assert old(watcher.spawned) + bundles == watcher.spawned;
      ExecConcat(Accounting.Next, Accounting.START, run, events);
      run, st := run + events, Exec(Accounting.Next, st, events).value;
    }

    /** The response to checker `i` arrives. */
    ghost method Respond(i: nat, response: Accounting.Response, ips: seq<seq<string>>)
      requires Valid() && Accounting.Enabled(st, Accounting.Respond(i, response, ips))
      modifies this
      ensures Valid() && run == old(run) + [Accounting.Respond(i, response, ips)]
    {
      ghost var e := Accounting.Respond(i, response, ips);
      ExecSnoc(Accounting.Next, Accounting.START, run, e);
      run, st := run + [e], Accounting.Apply(st, e);
    }

    /** Checker `i` carries out its next increment, whatever the others do before and after. */
    method CountNext(i: nat, s: Accounting.Series)
      requires Valid() && Accounting.Enabled(st, Accounting.CountNext(i))
      requires s == Accounting.ScriptOf(st.checkers[i])[st.checkers[i].next]
      modifies this, metrics
      ensures Valid() && run == old(run) + [Accounting.CountNext(i)]
    {
      ghost var e := Accounting.CountNext(i);
      ExecSnoc(Accounting.Next, Accounting.START, run, e);
      metrics.Count(s);
      run, st := run + [e], Accounting.Apply(st, e);
    }

    /** Checker `i`, if nothing comes in between once it has its response. */
    method Check(i: nat, response: Accounting.Response, ips: seq<seq<string>>)
      requires Valid() && i < |st.checkers|
      requires st.checkers[i] == Accounting.Counting(watcher.spawned[i], response, ips, 0)
      requires Accounting.OrdersOk(watcher.spawned[i], ips)
      modifies this, metrics
      ensures Valid()
      ensures var script := Accounting.Script(watcher.spawned[i], response, ips);
              run == old(run) + Counts(i, |script|)
    {
      metrics.SignatureChecker(watcher.spawned[i], response, ips);
      ghost var n := |Accounting.ScriptOf(st.checkers[i])|;
      CheckerIsRun(st, i);
      ExecConcat(Accounting.Next, Accounting.START, run, Counts(i, n));
      run, st := run + Counts(i, n), Exec(Accounting.Next, st, Counts(i, n)).value;
    }
  }

  /** A request from the balancer to the accounts: whoever is picked and however the sends go, the watcher
      receives one record, and accounts for it under the partner and the mode of the request. */
  method PublishAndWatch(server: Server, watching: Watching, session: SignatureRecord, data: string,
                         orders: nat -> seq<Identity>, draws: Sampling.Generator, sent: nat -> bool)
    returns (result: PublishResult)
    requires server.Valid() && watching.Valid()
    requires Sampling.InRange(draws) && forall i :: IsOrder(orders(i), server.balancer.consumers.Keys)
    modifies server, server.balancer, watching, watching.watcher
    ensures server.Valid() && watching.Valid()
    ensures !result.Published? ==> watching.run == old(watching.run)
    ensures result.Published? ==>
              && |watching.watcher.received| == |old(watching.watcher.received)| + 1
              && watching.watcher.received[..|old(watching.watcher.received)|] == old(watching.watcher.received)
              && Accounting.LabelOf(watching.watcher.received[|old(watching.watcher.received)|])
                 == Accounting.Label(session.partner, session.mode)
  {
    ghost var picks;
    result, picks := server.Publish(session, data, orders, draws, sent, true);
    if result.Published? {
      watching.Receive(server.balancer.inbox[|server.balancer.inbox| - 1]);
    }
  }
}
