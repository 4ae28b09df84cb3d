/** The session protocol (server/grpc_server.rs:184-238 over server/balancer.rs).

    Every connection runs a task that subscribes, loops until it is evicted or disconnected, and then
    cleans up after itself. The tasks of one identity race: a newer connection replaces the older
    one's record, and the older one's cleanup may come at any later time. A run is any interleaving
    of the steps; each registry operation happens under the write lock and is one step. */
module Sessions {
  import opened Orders
  import opened Records
  import opened Registries
  import opened Runs
  import Sampling

  datatype Phase = Running | Exited | Finished

  datatype Session = Session(identity: Identity, token: Token, phase: Phase)

  datatype State = State(registry: Registry, sessions: seq<Session>)

  datatype Event =
    | Connect(id: Identity, token: Token)
    | Evict(s: SessionId)
    | Leave(s: SessionId)
    | Cleanup(s: SessionId)
    | SendFailed(id: Identity)
    | FlushFlagged
    | NewWeights(weights: map<Identity, nat>)

  /** The loop ends because the session's signal fired (Evict) or because the stream ended, a ping
      could not be sent or the channel closed (Leave). A send fails while the registry is read-locked,
      so its consumer is still registered. */
  predicate Enabled(st: State, e: Event) {
    match e
    case Connect(_, _) => true
    case Evict(s) => s < |st.sessions| && st.sessions[s].phase == Running && s in st.registry.signalled
    case Leave(s) => s < |st.sessions| && st.sessions[s].phase == Running
    case Cleanup(s) => s < |st.sessions| && st.sessions[s].phase == Exited
    case SendFailed(id) => id in st.registry.consumers
    case FlushFlagged => true
    case NewWeights(_) => true
  }

  function WithPhase(st: State, s: SessionId, phase: Phase): State
    requires s < |st.sessions|
  {
    st.(sessions := st.sessions[s := st.sessions[s].(phase := phase)])
  }

  ghost function Apply(st: State, e: Event): State
    requires Enabled(st, e)
  {
    match e
    case Connect(id, token) =>
      State(Subscribe(st.registry, id, token, |st.sessions|),
            st.sessions + [Session(id, token, Running)])
    case Evict(s) => WithPhase(st, s, Exited)
    case Leave(s) => WithPhase(st, s, Exited)
    case Cleanup(s) =>
      var me := st.sessions[s];
      WithPhase(st, s, Finished).(registry := Unsubscribe(st.registry, me.identity, me.token))
    case SendFailed(id) => st.(registry := Flag(st.registry, id))
    case FlushFlagged => st.(registry := Flush(st.registry))
    case NewWeights(weights) => st.(registry := UpdateWeights(st.registry, weights))
  }

  const START := State(INITIAL, [])

  ghost function Next(st: State, e: Event): Option<State> {
    if Enabled(st, e) then Some(Apply(st, e)) else None
  }

  ghost predicate IsRun(run: seq<Event>) {
    Exec(Next, START, run).Some?
  }

  ghost function After(run: seq<Event>): State
    requires IsRun(run)
  {
    Exec(Next, START, run).value
  }

  // What the events alone say, without looking at any state.

  function Connections(run: seq<Event>): nat {
    if run == [] then 0 else Connections(Front(run)) + if Last(run).Connect? then 1 else 0
  }

  /** The most recent connection of an identity. */
  function Latest(run: seq<Event>, id: Identity): Option<SessionId> {
    if run == [] then None
    else if Last(run).Connect? && Last(run).id == id then Some(Connections(Front(run)))
    else Latest(Front(run), id)
  }

  /** A send to the identity has failed since its most recent connection. */
  predicate FailedSinceConnect(run: seq<Event>, id: Identity) {
    if run == [] then false
    else match Last(run)
      case Connect(id', _) => id' != id && FailedSinceConnect(Front(run), id)
      case SendFailed(id') => id' == id || FailedSinceConnect(Front(run), id)
      case _ => FailedSinceConnect(Front(run), id)
  }

  // The invariant.

  /** The record of session `s` is in the registry. */
  predicate Registered(st: State, s: SessionId)
    requires s < |st.sessions|
  {
    var id := st.sessions[s].identity;
    id in st.registry.consumers && st.registry.consumers[id].session == s
  }

  /** Each entry belongs to the latest session of its identity, which has not cleaned up. */
  ghost predicate EntryOk(run: seq<Event>, st: State, id: Identity)
    requires id in st.registry.consumers
  {
    var c := st.registry.consumers[id];
    && c.identity == id
    && Latest(run, id) == Some(c.session)
    && c.session < |st.sessions|
    && st.sessions[c.session].identity == id
    && st.sessions[c.session].token == c.token
    && st.sessions[c.session].phase != Finished
    && c.stake == StakeOf(st.registry.weights, id)
    && (c.flagged <==> FailedSinceConnect(run, id))
  }

  ghost predicate EntriesOk(run: seq<Event>, st: State) {
    && |st.sessions| == Connections(run)
    && forall id :: id in st.registry.consumers ==> EntryOk(run, st, id)
  }

  /** Exactly the sessions without an entry have been signalled. */
  ghost predicate SignalsOk(st: State) {
    && (forall s :: s in st.registry.signalled ==> s < |st.sessions|)
    && (forall s :: 0 <= s < |st.sessions| ==> (s in st.registry.signalled <==> !Registered(st, s)))
  }

  ghost predicate TotalsOk(st: State) {
    && st.registry.gauge == |st.registry.consumers|
    && st.registry.total == StakeSum(Restaked(st.registry.consumers, st.registry.summedWith))
  }

  ghost predicate Inv(run: seq<Event>, st: State) {
    EntriesOk(run, st) && SignalsOk(st) && TotalsOk(st)
  }

  lemma {:induction false} SameStakesSameSum(a: map<Identity, Consumer>, b: map<Identity, Consumer>)
    requires a.Keys == b.Keys && forall id :: id in a ==> a[id].stake == b[id].stake
    ensures StakeSum(a) == StakeSum(b)
    decreases |a|
  {
    if a != map[] {
      var id :| id in a;
      StakeSumRemove(a, id);
      StakeSumRemove(b, id);
      SameStakesSameSum(a - {id}, b - {id});
    } else {
      assert b == map[];
    }
  }

  /** While the entries carry the current weights, a freshly computed total is summed with them. */
  lemma FreshTotal(run: seq<Event>, st: State)
    requires EntriesOk(run, st)
    requires st.registry == Recalculated(st.registry)
    ensures TotalsOk(st)
  {
    var m := st.registry.consumers;
    forall id | id in m ensures m[id].stake == StakeOf(st.registry.summedWith, id) {
      assert EntryOk(run, st, id);
    }
    SameStakesSameSum(m, Restaked(m, st.registry.summedWith));
  }

  ghost predicate Step(run: seq<Event>, st: State, e: Event) {
    Inv(run, st) && Enabled(st, e)
  }

  lemma Extend(run: seq<Event>, e: Event)
    ensures Front(run + [e]) == run && Last(run + [e]) == e
  {
  }

  lemma KeepConnect(run: seq<Event>, st: State, e: Event)
    requires Step(run, st, e) && e.Connect?
    ensures Inv(run + [e], Apply(st, e))
  {
    var st' := Apply(st, e);
    Extend(run, e);
    forall id | id in st'.registry.consumers ensures EntryOk(run + [e], st', id) {
      if id != e.id { assert EntryOk(run, st, id); }
    }
    FreshTotal(run + [e], st');
    ConnectSignals(run, st, e);
  }

  /** A connection takes over the entry of its identity, which signals the session that had it. */
  lemma ConnectSignals(run: seq<Event>, st: State, e: Event)
    requires Step(run, st, e) && e.Connect?
    ensures SignalsOk(Apply(st, e))
  {
  }

  lemma KeepExit(run: seq<Event>, st: State, e: Event)
    requires Step(run, st, e) && (e.Evict? || e.Leave?)
    ensures Inv(run + [e], Apply(st, e))
  {
    var st' := Apply(st, e);
    Extend(run, e);
    forall id | id in st'.registry.consumers ensures EntryOk(run + [e], st', id) {
      assert EntryOk(run, st, id);
    }
    forall s | 0 <= s < |st.sessions| ensures Registered(st', s) <==> Registered(st, s) {}
  }

  /** Removing entries, in any operation that recomputes the total. */
  lemma KeepRemoval(run: seq<Event>, st: State, st': State, e: Event, ids: set<Identity>)
    requires Inv(run, st) && ids <= st.registry.consumers.Keys
    requires !e.Connect? && !e.SendFailed?
    requires st'.registry == RemoveAll(st.registry, ids)
    requires |st'.sessions| == |st.sessions|
    requires forall s :: 0 <= s < |st.sessions| ==>
               && st'.sessions[s].identity == st.sessions[s].identity
               && st'.sessions[s].token == st.sessions[s].token
    requires forall id :: id in st.registry.consumers && id !in ids ==>
               st'.sessions[st.registry.consumers[id].session].phase != Finished
    ensures Inv(run + [e], st')
  {
    var m, m' := st.registry.consumers, st'.registry.consumers;
    Extend(run, e);
    forall id | id in m' ensures EntryOk(run + [e], st', id) {
      assert EntryOk(run, st, id);
    }
    RemovalSignals(run, st, st', ids);
    if ids != {} { FreshTotal(run + [e], st'); }
  }

  lemma RemovalSignals(run: seq<Event>, st: State, st': State, ids: set<Identity>)
    requires Inv(run, st) && ids <= st.registry.consumers.Keys
    requires st'.registry == RemoveAll(st.registry, ids)
    requires |st'.sessions| == |st.sessions|
    requires forall s :: 0 <= s < |st.sessions| ==> st'.sessions[s].identity == st.sessions[s].identity
    ensures SignalsOk(st')
  {
    RemovalEffect(st.registry, ids);
    forall s | s in st'.registry.signalled ensures s < |st'.sessions| {
      if s !in st.registry.signalled { OwnerOfRemoved(run, st, ids, s); }
    }
    forall s | 0 <= s < |st'.sessions|
      ensures s in st'.registry.signalled <==> !Registered(st', s)
    {
      OwnerOfRemoved(run, st, ids, s);
    }
  }

  /** The removed sessions are the registered ones of the removed identities. */
  lemma OwnerOfRemoved(run: seq<Event>, st: State, ids: set<Identity>, s: SessionId)
    requires Inv(run, st) && ids <= st.registry.consumers.Keys
    ensures s in SessionsOf(st.registry.consumers, ids)
            <==> s < |st.sessions| && Registered(st, s) && st.sessions[s].identity in ids
  {
  }

  /** What a cleanup with this identity and token removes. */
  function Removed(r: Registry, id: Identity, token: Token): (ids: set<Identity>)
    ensures ids <= r.consumers.Keys
  {
    if id in r.consumers && r.consumers[id].token == token then {id} else {}
  }

  lemma UnsubscribeRemoves(r: Registry, id: Identity, token: Token)
    ensures Unsubscribe(r, id, token) == RemoveAll(r, Removed(r, id, token))
    ensures Unsubscribe(r, id, token) == r <==> Removed(r, id, token) == {}
  {
    if Removed(r, id, token) != {} {
      RemoveOneMore(r, {}, id);
      assert {} + {id} == {id};
      assert id !in Unsubscribe(r, id, token).consumers;
    }
  }

  lemma KeepCleanup(run: seq<Event>, st: State, e: Event)
    requires Step(run, st, e) && e.Cleanup?
    ensures Inv(run + [e], Apply(st, e))
  {
    var me, st' := st.sessions[e.s], Apply(st, e);
    CleanupSparesOthers(run, st, e);
    SessionsGrow(st, e);
    UnsubscribeRemoves(st.registry, me.identity, me.token);
    KeepRemoval(run, st, st', e, Removed(st.registry, me.identity, me.token));
  }

  /** The entries a cleanup leaves belong to sessions that stay unfinished. */
  lemma CleanupSparesOthers(run: seq<Event>, st: State, e: Event)
    requires Step(run, st, e) && e.Cleanup?
    ensures var r, me := st.registry, st.sessions[e.s];
            forall id :: id in r.consumers && id !in Removed(r, me.identity, me.token) ==>
              && r.consumers[id].session < |st.sessions|
              && Apply(st, e).sessions[r.consumers[id].session].phase != Finished
  {
  }

  lemma KeepFlush(run: seq<Event>, st: State, e: Event)
    requires Step(run, st, e) && e.FlushFlagged?
    ensures Inv(run + [e], Apply(st, e))
  {
    var ids := FlaggedIds(st.registry.consumers);
    forall id | id in st.registry.consumers && id !in ids
      ensures st.sessions[st.registry.consumers[id].session].phase != Finished
    {
      assert EntryOk(run, st, id);
    }
    KeepRemoval(run, st, Apply(st, e), e, ids);
  }

  /** Changing flags or stakes in place. */
  lemma KeepInPlace(run: seq<Event>, st: State, st': State)
    requires Inv(run, st) && st'.sessions == st.sessions
    requires var m, m' := st.registry.consumers, st'.registry.consumers;
             && m'.Keys == m.Keys && forall id :: id in m ==> m'[id].session == m[id].session
    requires st'.registry == st.registry.(consumers := st'.registry.consumers, weights := st'.registry.weights)
    ensures SignalsOk(st') && TotalsOk(st')
  {
    forall s | 0 <= s < |st.sessions| ensures Registered(st', s) <==> Registered(st, s) {}
    SameStakesSameSum(Restaked(st.registry.consumers, st.registry.summedWith),
                      Restaked(st'.registry.consumers, st.registry.summedWith));
    assert |st'.registry.consumers.Keys| == |st.registry.consumers.Keys|;
  }

  lemma KeepSendFailed(run: seq<Event>, st: State, e: Event)
    requires Step(run, st, e) && e.SendFailed?
    ensures Inv(run + [e], Apply(st, e))
  {
    var st' := Apply(st, e);
    Extend(run, e);
    forall id | id in st'.registry.consumers ensures EntryOk(run + [e], st', id) {
      assert EntryOk(run, st, id);
    }
    KeepInPlace(run, st, st');
  }

  lemma KeepNewWeights(run: seq<Event>, st: State, e: Event)
    requires Step(run, st, e) && e.NewWeights?
    ensures Inv(run + [e], Apply(st, e))
  {
    var st' := Apply(st, e);
    Extend(run, e);
    forall id | id in st'.registry.consumers ensures EntryOk(run + [e], st', id) {
      assert EntryOk(run, st, id);
    }
    KeepInPlace(run, st, st');
  }

  lemma Keep(run: seq<Event>, st: State, e: Event)
    requires Step(run, st, e)
    ensures Inv(run + [e], Apply(st, e))
  {
    match e {
      case Connect(_, _) => KeepConnect(run, st, e);
      case Evict(_) => KeepExit(run, st, e);
      case Leave(_) => KeepExit(run, st, e);
      case Cleanup(_) => KeepCleanup(run, st, e);
      case SendFailed(_) => KeepSendFailed(run, st, e);
      case FlushFlagged => KeepFlush(run, st, e);
      case NewWeights(_) => KeepNewWeights(run, st, e);
    }
  }

  /** The invariant holds after every run. */
  lemma {:induction false} Invariant(run: seq<Event>)
    requires IsRun(run)
    ensures Inv(run, After(run))
  {
    if run == [] {
      assert Restaked(map[], map[]) == map[];
    } else {
      Invariant(Front(run));
      Keep(Front(run), After(Front(run)), Last(run));
      assert Front(run) + [Last(run)] == run;
    }
  }

  // What follows for every run.

  /** `latest` is the last session of the identity. */
  ghost predicate IsLatest(sessions: seq<Session>, id: Identity, latest: Option<SessionId>) {
    match latest
    case None => forall t :: 0 <= t < |sessions| ==> sessions[t].identity != id
    case Some(s) =>
      && s < |sessions| && sessions[s].identity == id
      && forall t :: 0 <= t < |sessions| && sessions[t].identity == id ==> t <= s
  }

  lemma SessionsGrow(st: State, e: Event)
    requires Enabled(st, e)
    ensures e.Connect? ==> Apply(st, e).sessions == st.sessions + [Session(e.id, e.token, Running)]
    ensures !e.Connect? ==> |Apply(st, e).sessions| == |st.sessions|
    ensures forall t :: 0 <= t < |st.sessions| ==>
              && Apply(st, e).sessions[t].identity == st.sessions[t].identity
              && Apply(st, e).sessions[t].token == st.sessions[t].token
  {
  }

  lemma LatestStep(st: State, e: Event, id: Identity, latest: Option<SessionId>)
    requires Enabled(st, e) && IsLatest(st.sessions, id, latest)
    ensures IsLatest(Apply(st, e).sessions, id, if e.Connect? && e.id == id then Some(|st.sessions|) else latest)
  {
    SessionsGrow(st, e);
  }

  lemma {:induction false} LatestSession(run: seq<Event>, id: Identity)
    requires IsRun(run)
    ensures |After(run).sessions| == Connections(run)
    ensures IsLatest(After(run).sessions, id, Latest(run, id))
  {
    if run != [] {
      var st := After(Front(run));
      LatestSession(Front(run), id);
      SessionsGrow(st, Last(run));
      LatestStep(st, Last(run), id, Latest(Front(run), id));
    }
  }

  /** The entry of an identity is its most recently connected session, and that session has not
      cleaned up. */
  lemma EntryIsLatestSession(run: seq<Event>, id: Identity)
    requires IsRun(run) && id in After(run).registry.consumers
    ensures var st := After(run);
            var c := st.registry.consumers[id];
            && c.session < |st.sessions|
            && st.sessions[c.session].identity == id
            && st.sessions[c.session].token == c.token
            && st.sessions[c.session].phase != Finished
            && forall t :: 0 <= t < |st.sessions| && st.sessions[t].identity == id ==> t <= c.session
  {
    Invariant(run);
    assert EntryOk(run, After(run), id);
    LatestSession(run, id);
  }

  /** No session is left waiting for nothing: an unfinished session without an entry has been
      signalled, so a running one can leave its loop. A session with an entry has not been. */
  lemma MissingSessionsAreSignalled(run: seq<Event>, s: SessionId)
    requires IsRun(run) && s < |After(run).sessions|
    ensures s in After(run).registry.signalled <==> !Registered(After(run), s)
    ensures !Registered(After(run), s) && After(run).sessions[s].phase == Running ==> Enabled(After(run), Evict(s))
    ensures After(run).sessions[s].phase == Finished ==> !Registered(After(run), s)
  {
    Invariant(run);
    if Registered(After(run), s) {
      assert EntryOk(run, After(run), After(run).sessions[s].identity);
    }
  }

  ghost predicate AllFinished(st: State) {
    forall s :: 0 <= s < |st.sessions| ==> st.sessions[s].phase == Finished
  }

  /** Once every session has finished, nobody is registered and the total is zero. */
  lemma AllFinishedIsEmpty(run: seq<Event>)
    requires IsRun(run) && AllFinished(After(run))
    ensures After(run).registry.consumers == map[]
    ensures After(run).registry.total == 0 && After(run).registry.gauge == 0
  {
    Invariant(run);
    assert Restaked(map[], After(run).registry.summedWith) == map[];
  }

  /** Sessions of one identity carry different tokens. */
  ghost predicate TokensDistinct(st: State) {
    forall s, t :: 0 <= s < t < |st.sessions| && st.sessions[s].identity == st.sessions[t].identity ==>
      st.sessions[s].token != st.sessions[t].token
  }

  /** A cleanup takes away another session's entry exactly when that session reuses its token. */
  lemma CleanupRemovesOther(run: seq<Event>, s: SessionId)
    requires IsRun(run) && Enabled(After(run), Cleanup(s)) && !Registered(After(run), s)
    ensures var st := After(run);
            var id := st.sessions[s].identity;
            Apply(st, Cleanup(s)).registry != st.registry
            <==> exists t :: 0 <= t < |st.sessions| && t != s && Registered(st, t)
                   && st.sessions[t].identity == id && st.sessions[t].token == st.sessions[s].token
  {
    var st := After(run);
    var id := st.sessions[s].identity;
    Invariant(run);
    UnsubscribeRemoves(st.registry, id, st.sessions[s].token);
    if id in st.registry.consumers {
      assert EntryOk(run, st, id);
      var t := st.registry.consumers[id].session;
      assert Registered(st, t);
    }
  }

  /** With distinct tokens, a session's cleanup removes its own entry if it still has one, and
      otherwise changes nothing: it never removes its successor. */
  lemma CleanupRemovesOnlyItself(run: seq<Event>, s: SessionId)
    requires IsRun(run) && Enabled(After(run), Cleanup(s)) && TokensDistinct(After(run))
    ensures var st := After(run);
            Apply(st, Cleanup(s)).registry
            == RemoveAll(st.registry, if Registered(st, s) then {st.sessions[s].identity} else {})
  {
    var st := After(run);
    var id := st.sessions[s].identity;
    Invariant(run);
    UnsubscribeRemoves(st.registry, id, st.sessions[s].token);
    if id in st.registry.consumers {
      assert EntryOk(run, st, id);
    }
  }

  lemma Snoc(run: seq<Event>, e: Event)
    requires IsRun(run) && Enabled(After(run), e)
    ensures IsRun(run + [e]) && After(run + [e]) == Apply(After(run), e)
  {
    ExecSnoc(Next, START, run, e);
  }

  lemma TwoConnections(id: Identity, token: Token) returns (run: seq<Event>)
    ensures IsRun(run) && After(run).sessions == [Session(id, token, Running), Session(id, token, Running)]
    ensures id in After(run).registry.consumers && After(run).registry.consumers[id].token == token
  {
    var connect := Connect(id, token);
    Snoc([], connect);
    Snoc([connect], connect);
    run := [connect] + [connect];
  }

  /** Reusing a token does break it: the first session's late cleanup evicts the second. */
  lemma ReusedTokenEvictsSuccessor(id: Identity, token: Token) returns (run: seq<Event>)
    ensures IsRun(run) && |After(run).sessions| == 2
    ensures After(run).sessions[1] == Session(id, token, Running)
    ensures !Registered(After(run), 1) && id !in After(run).registry.consumers
  {
    run := TwoConnections(id, token);
    Snoc(run, Leave(0));
    run := run + [Leave(0)];
    Snoc(run, Cleanup(0));
    run := run + [Cleanup(0)];
  }

  // Bringing sessions to their end.

  /** Only steps that the sessions take by themselves once they are signalled; `leaving` allows clients
      to go away as well. */
  ghost predicate Ending(events: seq<Event>, leaving: bool) {
    forall i :: 0 <= i < |events| ==> events[i].Evict? || events[i].Cleanup? || (leaving && events[i].Leave?)
  }

  /** The first `n` sessions have finished or, unless everybody leaves, still have their entry. */
  ghost predicate SettledBelow(st: State, leaving: bool, n: nat) {
    && n <= |st.sessions|
    && forall t :: 0 <= t < n ==> st.sessions[t].phase == Finished || (!leaving && Registered(st, t))
  }

  /** The sessions and, with distinct tokens, the registry are as before, except that the sessions
      without an entry may have moved on. */
  ghost predicate Spared(st: State, st': State) {
    && |st'.sessions| == |st.sessions|
    && (forall t :: 0 <= t < |st.sessions| ==>
          st'.sessions[t] == st.sessions[t].(phase := st'.sessions[t].phase))
    && (TokensDistinct(st) ==>
          && st'.registry == st.registry
          && forall t :: 0 <= t < |st.sessions| && Registered(st, t) ==> st'.sessions[t] == st.sessions[t])
  }

  lemma SparedTwice(a: State, b: State, c: State)
    requires Spared(a, b) && Spared(b, c)
    ensures Spared(a, c)
  {
  }

  /** A cleanup can take the entry of a later session of its identity, never of an earlier one. */
  lemma CleanStep(run: seq<Event>, leaving: bool, s: SessionId)
    requires IsRun(run) && SettledBelow(After(run), leaving, s) && Enabled(After(run), Cleanup(s))
    ensures IsRun(run + [Cleanup(s)]) && SettledBelow(After(run + [Cleanup(s)]), leaving, s + 1)
    ensures |After(run + [Cleanup(s)]).sessions| == |After(run).sessions|
    ensures !Registered(After(run), s) ==> Spared(After(run), After(run + [Cleanup(s)]))
  {
    var st, id := After(run), After(run).sessions[s].identity;
    Snoc(run, Cleanup(s));
    if id in st.registry.consumers { EntryIsLatestSession(run, id); }
    if TokensDistinct(st) { CleanupRemovesOnlyItself(run, s); }
  }

  /** The loop ends: by the signal if the entry is gone, because the client leaves otherwise. */
  function Exit(st: State, s: SessionId): Event
    requires s < |st.sessions|
  {
    if Registered(st, s) then Leave(s) else Evict(s)
  }

  lemma ExitStep(run: seq<Event>, leaving: bool, s: SessionId)
    requires IsRun(run) && SettledBelow(After(run), leaving, s)
    requires s < |After(run).sessions| && After(run).sessions[s].phase == Running
    ensures var e := Exit(After(run), s);
            && IsRun(run + [e]) && SettledBelow(After(run + [e]), leaving, s)
            && Enabled(After(run + [e]), Cleanup(s)) && |After(run + [e]).sessions| == |After(run).sessions|
            && After(run + [e]).registry == After(run).registry
            && (!Registered(After(run), s) ==> !Registered(After(run + [e]), s) && Spared(After(run), After(run + [e])))
  {
    MissingSessionsAreSignalled(run, s);
    Snoc(run, Exit(After(run), s));
  }

  lemma ExitAndClean(run: seq<Event>, leaving: bool, s: SessionId)
    requires IsRun(run) && SettledBelow(After(run), leaving, s)
    requires s < |After(run).sessions| && After(run).sessions[s].phase == Running
    ensures var rest := [Exit(After(run), s), Cleanup(s)];
            && IsRun(run + rest) && SettledBelow(After(run + rest), leaving, s + 1)
            && |After(run + rest).sessions| == |After(run).sessions|
            && (!Registered(After(run), s) ==> Spared(After(run), After(run + rest)))
  {
    var e := Exit(After(run), s);
    ExitStep(run, leaving, s);
    CleanStep(run + [e], leaving, s);
    assert run + [e] + [Cleanup(s)] == run + [e, Cleanup(s)];
    if !Registered(After(run), s) {
      SparedTwice(After(run), After(run + [e]), After(run + [e] + [Cleanup(s)]));
    }
  }

  lemma SettleOne(run: seq<Event>, leaving: bool, s: SessionId) returns (rest: seq<Event>)
    requires IsRun(run) && SettledBelow(After(run), leaving, s) && s < |After(run).sessions|
    ensures IsRun(run + rest) && Ending(rest, leaving) && SettledBelow(After(run + rest), leaving, s + 1)
    ensures |After(run + rest).sessions| == |After(run).sessions|
    ensures !leaving ==> Spared(After(run), After(run + rest))
  {
    var st := After(run);
    if st.sessions[s].phase == Finished || (!leaving && Registered(st, s)) {
      rest := [];
      assert run + [] == run;
    } else if st.sessions[s].phase == Exited {
      CleanStep(run, leaving, s);
      rest := [Cleanup(s)];
    } else {
      ExitAndClean(run, leaving, s);
      rest := [Exit(st, s), Cleanup(s)];
    }
  }

  lemma {:induction false} SettleFrom(run: seq<Event>, leaving: bool, s: SessionId) returns (rest: seq<Event>)
    requires IsRun(run) && SettledBelow(After(run), leaving, s)
    ensures IsRun(run + rest) && Ending(rest, leaving)
    ensures SettledBelow(After(run + rest), leaving, |After(run + rest).sessions|)
    ensures !leaving ==> Spared(After(run), After(run + rest))
    decreases |After(run).sessions| - s
  {
    if s == |After(run).sessions| {
      rest := [];
      assert run + [] == run;
    } else {
      var one := SettleOne(run, leaving, s);
      var more := SettleFrom(run + one, leaving, s + 1);
      rest := one + more;
      assert run + one + more == run + rest;
      if !leaving { SparedTwice(After(run), After(run + one), After(run + rest)); }
    }
  }

  /** From every reachable state the signals alone bring every session without an entry to its end;
      no client has to go away for it. With distinct tokens this touches neither the registry nor any
      session that has an entry. */
  lemma SignalsEndStaleSessions(run: seq<Event>) returns (rest: seq<Event>)
    requires IsRun(run)
    ensures forall i :: 0 <= i < |rest| ==> rest[i].Evict? || rest[i].Cleanup?
    ensures IsRun(run + rest)
    ensures var st := After(run + rest);
            forall s :: 0 <= s < |st.sessions| && !Registered(st, s) ==> st.sessions[s].phase == Finished
    ensures Spared(After(run), After(run + rest))
  {
    rest := SettleFrom(run, false, 0);
  }

  /** If the clients of the other sessions go away too, every session ends, which empties the registry:
      nothing is leaked. */
  lemma Drain(run: seq<Event>) returns (rest: seq<Event>)
    requires IsRun(run)
    ensures IsRun(run + rest) && AllFinished(After(run + rest)) && Ending(rest, true)
    ensures After(run + rest).registry.consumers == map[] && After(run + rest).registry.total == 0
  {
    rest := SettleFrom(run, true, 0);
    AllFinishedIsEmpty(run + rest);
  }

  /** A flush leaves exactly the consumers without a failed send since they connected, unchanged. */
  lemma FlushKeepsUnfailed(run: seq<Event>, id: Identity)
    requires IsRun(run)
    ensures var before, after := After(run).registry.consumers, Flush(After(run).registry).consumers;
            && (id in after <==> id in before && !FailedSinceConnect(run, id))
            && (id in after ==> after[id] == before[id])
  {
    var r := After(run).registry;
    Invariant(run);
    RemovalEffect(r, FlaggedIds(r.consumers));
    if id in r.consumers {
      assert EntryOk(run, After(run), id);
    }
  }

  // The weights, the total, and what depends on them.

  /** The weights that arrived last. */
  function LastWeights(run: seq<Event>): map<Identity, nat> {
    if run == [] then map[]
    else if Last(run).NewWeights? then Last(run).weights
    else LastWeights(Front(run))
  }

  lemma {:induction false} WeightsAreLast(run: seq<Event>)
    requires IsRun(run)
    ensures After(run).registry.weights == LastWeights(run)
  {
    if run != [] { WeightsAreLast(Front(run)); }
  }

  /** Judging by the events alone: each consumer carries its weight in the list that arrived last, whether
      it connected before or after, and one if that list lacks it. */
  lemma StakeIsLastWeight(run: seq<Event>, id: Identity)
    requires IsRun(run) && id in After(run).registry.consumers
    ensures After(run).registry.consumers[id].stake
         == if id in LastWeights(run) then LastWeights(run)[id] else 1
  {
    Invariant(run);
    WeightsAreLast(run);
    assert EntryOk(run, After(run), id);
  }

  /** Judging by the events: no new weights have arrived since the total was last computed, that is,
      since the last connection or the last cleanup or flush that removed somebody. */
  ghost predicate Fresh(run: seq<Event>)
    requires IsRun(run)
  {
    run == [] ||
    match Last(run)
    case NewWeights(_) => false
    case Connect(_, _) => true
    case _ => Fresh(Front(run)) || After(run).registry.consumers.Keys != After(Front(run)).registry.consumers.Keys
  }

  lemma {:induction false} FreshSum(run: seq<Event>)
    requires IsRun(run) && Fresh(run)
    ensures After(run).registry.summedWith == After(run).registry.weights
  {
    if run != [] && Fresh(Front(run)) { FreshSum(Front(run)); }
  }

  lemma CurrentStakes(run: seq<Event>, st: State)
    requires EntriesOk(run, st)
    ensures Restaked(st.registry.consumers, st.registry.weights) == st.registry.consumers
  {
  }

  /** The total always sums the weights in force when it was last computed, so it is the sum of the
      current stakes until new weights arrive; each consumer carries its current weight. */
  lemma TotalIsUpToDate(run: seq<Event>)
    requires IsRun(run)
    ensures var r := After(run).registry;
            && r.total == StakeSum(Restaked(r.consumers, r.summedWith))
            && Restaked(r.consumers, r.weights) == r.consumers
    ensures Fresh(run) ==> After(run).registry.total == StakeSum(After(run).registry.consumers)
  {
    Invariant(run);
    CurrentStakes(run, After(run));
    if Fresh(run) { FreshSum(run); }
  }

  /** After new weights the total can be stale: this consumer was counted with `was`, and the total
      still says so although its stake is `now`. */
  lemma StaleTotal(id: Identity, token: Token, was: nat, now: nat) returns (run: seq<Event>)
    ensures IsRun(run) && id in After(run).registry.consumers && |After(run).registry.consumers| == 1
    ensures After(run).registry.total == was
    ensures StakeSum(After(run).registry.consumers) == now
  {
    var w, w' := NewWeights(map[id := was]), NewWeights(map[id := now]);
    Snoc([], w);
    Snoc([w], Connect(id, token));
    assert [w] + [Connect(id, token)] == [w, Connect(id, token)];
    Snoc([w, Connect(id, token)], w');
    run := [w, Connect(id, token)] + [w'];
    SingleSum(After([w, Connect(id, token)]).registry.consumers, id);
    SingleSum(After(run).registry.consumers, id);
  }

  /** Until new weights arrive, somebody is picked by every draw. */
  lemma UpToDateTotalAlwaysPicks(run: seq<Event>, order: seq<Identity>, point: nat)
    requires IsRun(run) && Fresh(run) && IsOrder(order, After(run).registry.consumers.Keys)
    requires var r := After(run).registry; point < if r.total > 0 then r.total else |r.consumers|
    ensures exists id :: Sampling.Picks(After(run).registry, order, point, id)
  {
    TotalIsUpToDate(run);
    Sampling.PicksNobody(After(run).registry, order, point);
  }

  /** With a stale total a draw can pick nobody although a consumer is connected. */
  lemma StaleTotalCanMiss(id: Identity, token: Token, was: nat, now: nat) returns (run: seq<Event>)
    requires was > now + 1
    ensures IsRun(run) && IsOrder([id], After(run).registry.consumers.Keys)
    ensures After(run).registry.total == was
    ensures var point := was - 1; forall other :: !Sampling.Picks(After(run).registry, [id], point, other)
  {
    run := StaleTotal(id, token, was, now);
    OnlyKey(After(run).registry.consumers, id);
    Sampling.PicksNobody(After(run).registry, [id], was - 1);
  }

  lemma OnlyKey(m: map<Identity, Consumer>, id: Identity)
    requires id in m && |m| == 1
    ensures m.Keys == {id}
  {
    assert |m.Keys - {id}| == 0;
  }

  lemma SingleSum(m: map<Identity, Consumer>, id: Identity)
    requires m.Keys == {id}
    ensures StakeSum(m) == m[id].stake
  {
  }

  datatype Health = Healthy | Unavailable(code: nat)

  /** The health endpoint looks only at the exported gauge (server/rpc_server.rs:225-240). */
  function GetHealth(gauge: nat): Health {
    if gauge == 0 then Unavailable(503) else Healthy
  }

  lemma HealthyExactlyWhenConnected(run: seq<Event>)
    requires IsRun(run)
    ensures GetHealth(After(run).registry.gauge) == Healthy <==> After(run).registry.consumers != map[]
  {
    Invariant(run);
  }
}
