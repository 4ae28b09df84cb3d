/** The balancer (server/balancer.rs): a mutable registry of consumers shared by all sessions.

    Every method that changes the registry is proved to perform the corresponding operation of
    `Registries`. Hash maps are iterated in an arbitrary order, random draws are arbitrary values in
    their range, and the results of channel sends are supplied by the caller. */
module Balancing {
  import opened Orders
  import opened Registries
  import opened Allocation
  import opened Records
  import Sampling
  import RunningMean

  const N_CONSUMERS: nat := 3

  type LeaderPick = Pick<LeaderInfo>

  datatype PublishResult = Crashed | NoClients | Published

  /** `values` lists the values of a map in this iteration order. */
  ghost predicate ListsInOrder<K(!new), V>(values: seq<V>, m: map<K, V>, order: seq<K>) {
    && IsOrder(order, m.Keys) && |order| == |values|
    && forall i :: 0 <= i < |order| ==> values[i] == m[order[i]]
  }

  ghost predicate ListsValues<K(!new), V>(values: seq<V>, m: map<K, V>) {
    exists order :: ListsInOrder(values, m, order)
  }

  lemma ListedValues<K(!new), V>(values: seq<V>, m: map<K, V>)
    requires ListsValues(values, m)
    ensures |values| == |m|
    ensures forall k :: k in m ==> m[k] in values
  {
    var order :| ListsInOrder(values, m, order);
    OrderLength(order, m.Keys);
    forall k | k in m ensures m[k] in values {
      assert k in order;
      var i :| 0 <= i < |order| && order[i] == k;
      assert values[i] == m[k];
    }
  }

  /** The positions among the first `n` whose send succeeded. */
  function SentAt(sent: nat -> bool, n: nat): (at: seq<nat>)
    ensures forall j :: 0 <= j < |at| ==> at[j] < n
  {
    if n == 0 then []
    else if sent(n - 1) then SentAt(sent, n - 1) + [n - 1]
    else SentAt(sent, n - 1)
  }

  /** Exactly those, each once and in order. */
  lemma {:induction false} SentInOrder(sent: nat -> bool, n: nat)
    ensures forall i: nat :: i < n ==> (i in SentAt(sent, n) <==> sent(i))
    ensures forall j, k :: 0 <= j < k < |SentAt(sent, n)| ==> SentAt(sent, n)[j] < SentAt(sent, n)[k]
  {
    if n > 0 { SentInOrder(sent, n - 1); }
  }

  /** The identities whose send succeeded, in pick order. */
  function Delivered(picks: seq<LeaderPick>, sent: nat -> bool, n: nat): seq<Identity>
    requires n <= |picks|
  {
    if n == 0 then []
    else Delivered(picks, sent, n - 1) + if sent(n - 1) then [picks[n - 1].identity] else []
  }

  lemma {:induction false} DeliveredInOrder(picks: seq<LeaderPick>, sent: nat -> bool, n: nat)
    requires n <= |picks|
    ensures var ids, at := Delivered(picks, sent, n), SentAt(sent, n);
            |ids| == |at| && forall j :: 0 <= j < |at| ==> ids[j] == picks[at[j]].identity
  {
    if n > 0 { DeliveredInOrder(picks, sent, n - 1); }
  }

  function IpsOf(infos: seq<LeaderInfo>): set<string> {
    set i | 0 <= i < |infos| :: IpOf(infos[i].tpu)
  }

  /** The TPU addresses carried by the successful sends. */
  function DeliveredIps(picks: seq<LeaderPick>, sent: nat -> bool, n: nat): set<string>
    requires n <= |picks|
  {
    set i, ip | 0 <= i < n && sent(i) && ip in IpsOf(picks[i].tpus) :: ip
  }

  lemma SentOne(picks: seq<LeaderPick>, sent: nat -> bool, i: nat)
    requires i < |picks|
    ensures DeliveredIps(picks, sent, i + 1)
         == DeliveredIps(picks, sent, i) + if sent(i) then IpsOf(picks[i].tpus) else {}
  {
  }

  /** The consumers after the failed sends among the first `n` have set their flags. */
  function FlagEach(m: map<Identity, Consumer>, picks: seq<LeaderPick>, sent: nat -> bool, n: nat)
    : (r: map<Identity, Consumer>)
    requires n <= |picks| && forall i :: 0 <= i < |picks| ==> picks[i].identity in m
    ensures r.Keys == m.Keys
  {
    if n == 0 then m
    else
      var before, id := FlagEach(m, picks, sent, n - 1), picks[n - 1].identity;
      if sent(n - 1) then before else before[id := before[id].(flagged := true)]
  }

  /** A send to this consumer, among the first `n`, has failed. */
  ghost predicate FailedTo(picks: seq<LeaderPick>, sent: nat -> bool, n: nat, id: Identity)
    requires n <= |picks|
  {
    exists i: nat :: i < n && !sent(i) && picks[i].identity == id
  }

  lemma FailedToOneMore(picks: seq<LeaderPick>, sent: nat -> bool, n: nat, id: Identity)
    requires n < |picks|
    ensures FailedTo(picks, sent, n + 1, id) <==> FailedTo(picks, sent, n, id) || (!sent(n) && picks[n].identity == id)
  {
  }

  /** Exactly the consumers with a failed send are flagged, besides those that were; nothing else changes. */
  lemma {:induction false} FlagsFailed(m: map<Identity, Consumer>, picks: seq<LeaderPick>, sent: nat -> bool,
                                       n: nat, id: Identity)
    requires n <= |picks| && id in m && forall i :: 0 <= i < |picks| ==> picks[i].identity in m
    ensures FlagEach(m, picks, sent, n)[id] == m[id].(flagged := m[id].flagged || FailedTo(picks, sent, n, id))
  {
    if n > 0 {
      FlagsFailed(m, picks, sent, n - 1, id);
      FailedToOneMore(picks, sent, n - 1, id);
    }
  }

  /** What is sent to one pick: the transaction and the addresses to forward it to. */
  datatype Envelope = Envelope(session: SessionId, signature: string, data: string, tpus: set<string>)

  function TpusOf(infos: seq<LeaderInfo>): set<string> {
    set i | 0 <= i < |infos| :: infos[i].tpu
  }

  function EnvelopeFor(m: map<Identity, Consumer>, pick: LeaderPick, signature: string, data: string): Envelope
    requires pick.identity in m
  {
    Envelope(m[pick.identity].session, signature, data, TpusOf(pick.tpus))
  }

  /** The transaction and the addresses of the pick, to the session by which its consumer is connected. */
  ghost predicate Carries(e: Envelope, m: map<Identity, Consumer>, pick: LeaderPick, signature: string, data: string)
    requires pick.identity in m
  {
    && e.session == m[pick.identity].session && e.signature == signature && e.data == data
    && forall tpu :: tpu in e.tpus <==> exists info :: info in pick.tpus && info.tpu == tpu
  }

  lemma EnvelopeCarries(m: map<Identity, Consumer>, pick: LeaderPick, signature: string, data: string)
    requires pick.identity in m
    ensures Carries(EnvelopeFor(m, pick, signature, data), m, pick, signature, data)
  {
    forall i | 0 <= i < |pick.tpus| ensures pick.tpus[i] in pick.tpus {}
  }

  /** The envelopes of the successful sends, in pick order. */
  function Envelopes(m: map<Identity, Consumer>, picks: seq<LeaderPick>, sent: nat -> bool, n: nat,
                     signature: string, data: string): seq<Envelope>
    requires n <= |picks| && forall i :: 0 <= i < |picks| ==> picks[i].identity in m
  {
    if n == 0 then []
    else
      var earlier := Envelopes(m, picks, sent, n - 1, signature, data);
      if sent(n - 1) then earlier + [EnvelopeFor(m, picks[n - 1], signature, data)] else earlier
  }

  /** Each successful send delivers its own envelope, and a failed one nothing. */
  lemma {:induction false} EnvelopesInOrder(m: map<Identity, Consumer>, picks: seq<LeaderPick>, sent: nat -> bool,
                                            n: nat, signature: string, data: string)
    requires n <= |picks| && forall i :: 0 <= i < |picks| ==> picks[i].identity in m
    ensures var envelopes, at := Envelopes(m, picks, sent, n, signature, data), SentAt(sent, n);
            && |envelopes| == |at|
            && forall j :: 0 <= j < |at| ==> Carries(envelopes[j], m, picks[at[j]], signature, data)
  {
    if n > 0 {
      EnvelopesInOrder(m, picks, sent, n - 1, signature, data);
      EnvelopeCarries(m, picks[n - 1], signature, data);
    }
  }

  /** The record after the sends to the first `n` picks. */
  function RecordAfter(session: SignatureRecord, picks: seq<LeaderPick>, sent: nat -> bool, n: nat): SignatureRecord
    requires n <= |picks|
  {
    session.(consumers := session.consumers + Delivered(picks, sent, n),
             tpuIps := session.tpuIps + DeliveredIps(picks, sent, n))
  }

  lemma RecordOneMore(session: SignatureRecord, picks: seq<LeaderPick>, sent: nat -> bool, i: nat)
    requires i < |picks|
    ensures var r := RecordAfter(session, picks, sent, i);
            RecordAfter(session, picks, sent, i + 1)
            == if !sent(i) then r
               else r.(consumers := r.consumers + [picks[i].identity], tpuIps := r.tpuIps + IpsOf(picks[i].tpus))
  {
    SentOne(picks, sent, i);
  }

  /** Redundancy end to end: with at least as many leaders as picks and at least two picks, the
      address of every leader is delivered even if the send to any one pick fails. */
  lemma OneFailedSendLosesNoLeader(leaders: seq<LeaderInfo>, base: seq<LeaderPick>, picks: seq<LeaderPick>,
                                   sent: nat -> bool, lost: nat)
    requires 2 <= |base| <= |leaders| && Distributed(leaders, base, Done(picks))
    requires forall i: nat :: i < |picks| && i != lost ==> sent(i)
    ensures |picks| == |base|
    ensures IpsOf(leaders) <= DeliveredIps(picks, sent, |picks|)
  {
    forall ip | ip in IpsOf(leaders) ensures ip in DeliveredIps(picks, sent, |picks|) {
      var t :| 0 <= t < |leaders| && IpOf(leaders[t].tpu) == ip;
      var p := EveryLeaderSurvives(leaders, base, Done(picks), t, lost);
      var j :| 0 <= j < |picks[p].tpus| && picks[p].tpus[j] == leaders[t];
      assert ip in IpsOf(picks[p].tpus);
    }
  }

  /** The picks that are sent to when every send to consumer `lost`, and no other, fails. */
  function SparesOthers(picks: seq<LeaderPick>, lost: Identity): nat -> bool {
    (i: nat) => i < |picks| && picks[i].identity != lost
  }

  /** A pick of another consumer carries this leader. */
  ghost predicate CarriedByAnother(picks: seq<LeaderPick>, lost: Identity, info: LeaderInfo) {
    exists p: nat :: p < |picks| && picks[p].identity != lost && info in picks[p].tpus
  }

  /** Picks are sampled with replacement, so one consumer can hold both copies of a leader. Losing a
      consumer loses exactly the leaders whose two positions both belong to it, except those that
      another pick came with. */
  lemma LosingOneConsumer(leaders: seq<LeaderInfo>, base: seq<LeaderPick>, picks: seq<LeaderPick>,
                          lost: Identity, info: LeaderInfo)
    requires 0 < |base| <= |leaders| && Distributed(leaders, base, Done(picks))
    ensures CarriedByAnother(picks, lost, info)
            <==> || CarriedByAnother(base, lost, info)
                 || exists t: nat :: t < |leaders| && leaders[t] == info && HeldByAnother(leaders, base, t, lost)
  {
    forall p: nat | p < |base| {
      CarriedIff(leaders, base, Done(picks), info, p);
    }
  }

  /** What is delivered when every send to one consumer, and no other, fails. */
  lemma DeliveredByOthers(picks: seq<LeaderPick>, lost: Identity, ip: string)
    ensures ip in DeliveredIps(picks, SparesOthers(picks, lost), |picks|)
            <==> exists info :: CarriedByAnother(picks, lost, info) && IpOf(info.tpu) == ip
  {
    var sent := SparesOthers(picks, lost);
    if ip in DeliveredIps(picks, sent, |picks|) {
      var p: nat :| p < |picks| && sent(p) && ip in IpsOf(picks[p].tpus);
      var i :| 0 <= i < |picks[p].tpus| && IpOf(picks[p].tpus[i].tpu) == ip;
      assert CarriedByAnother(picks, lost, picks[p].tpus[i]);
    }
    forall info | CarriedByAnother(picks, lost, info) && IpOf(info.tpu) == ip
      ensures ip in DeliveredIps(picks, sent, |picks|)
    {
      var p: nat :| p < |picks| && picks[p].identity != lost && info in picks[p].tpus;
      var i :| 0 <= i < |picks[p].tpus| && picks[p].tpus[i] == info;
      assert ip in IpsOf(picks[p].tpus);
    }
  }

  /** So no leader is lost with a consumer that never has both copies of one; and everything is lost
      with a consumer that holds all the picks. */
  lemma OneLostConsumer(leaders: seq<LeaderInfo>, base: seq<LeaderPick>, picks: seq<LeaderPick>, lost: Identity)
    requires 0 < |base| <= |leaders| && Distributed(leaders, base, Done(picks))
    ensures (forall t: nat :: t < |leaders| ==> HeldByAnother(leaders, base, t, lost)) ==>
              IpsOf(leaders) <= DeliveredIps(picks, SparesOthers(picks, lost), |picks|)
    ensures (forall p :: 0 <= p < |base| ==> base[p].identity == lost) ==>
              DeliveredIps(picks, SparesOthers(picks, lost), |picks|) == {}
  {
    if forall t: nat :: t < |leaders| ==> HeldByAnother(leaders, base, t, lost) {
      forall t: nat | t < |leaders|
        ensures IpOf(leaders[t].tpu) in DeliveredIps(picks, SparesOthers(picks, lost), |picks|)
      {
        LosingOneConsumer(leaders, base, picks, lost, leaders[t]);
        DeliveredByOthers(picks, lost, IpOf(leaders[t].tpu));
      }
    }
  }

  /** Not both positions of leader `t` belong to this consumer. */
  ghost predicate HeldByAnother(leaders: seq<LeaderInfo>, base: seq<LeaderPick>, t: nat, lost: Identity)
    requires 0 < |base| <= |leaders| && |leaders| / |base| > 0
  {
    exists p: nat :: p < |base| && base[p].identity != lost && PlacedAt(leaders, base, t, p)
  }

  /** What the watcher is told: the request itself, with the consumers that were sent the transaction, in
      pick order, and the addresses they were told to forward it to. */
  ghost predicate Forwards(session: SignatureRecord, record: SignatureRecord, picks: seq<LeaderPick>,
                           sent: nat -> bool) {
    var at := SentAt(sent, |picks|);
    && record.createdAt == session.createdAt && record.signature == session.signature
    && record.mode == session.mode && record.partner == session.partner
    && |record.consumers| == |session.consumers| + |at| && session.consumers <= record.consumers
    && (forall j :: 0 <= j < |at| ==> record.consumers[|session.consumers| + j] == picks[at[j]].identity)
    && record.tpuIps == session.tpuIps + DeliveredIps(picks, sent, |picks|)
  }

  lemma RecordForwards(session: SignatureRecord, picks: seq<LeaderPick>, sent: nat -> bool)
    ensures Forwards(session, RecordAfter(session, picks, sent, |picks|), picks, sent)
  {
    DeliveredInOrder(picks, sent, |picks|);
  }

  type Entry = (Identity, Token)

  function Named(entries: seq<Entry>): set<Identity> {
    set k | 0 <= k < |entries| :: entries[k].0
  }

  /** The entries name different consumers of the map, each with its token. */
  ghost predicate EntriesOf(m: map<Identity, Consumer>, entries: seq<Entry>) {
    && (forall k :: 0 <= k < |entries| ==> entries[k].0 in m && entries[k].1 == m[entries[k].0].token)
    && (forall j, k :: 0 <= j < k < |entries| ==> entries[j].0 != entries[k].0)
  }

  lemma NamedSnoc(entries: seq<Entry>, e: Entry)
    ensures Named(entries + [e]) == Named(entries) + {e.0}
  {
    var all := entries + [e];
    assert all[|entries|] == e;
    assert forall k :: 0 <= k < |entries| ==> all[k] == entries[k];
  }

  lemma RemoveEntry(r: Registry, entries: seq<Entry>, i: nat)
    requires EntriesOf(r.consumers, entries) && i < |entries|
    ensures Registries.Unsubscribe(RemoveAll(r, Named(entries[..i])), entries[i].0, entries[i].1)
         == RemoveAll(r, Named(entries[..i + 1]))
  {
    assert entries[..i + 1] == entries[..i] + [entries[i]];
    NamedSnoc(entries[..i], entries[i]);
    RemoveOneMore(r, Named(entries[..i]), entries[i].0);
  }

  function Ids(picks: seq<LeaderPick>): (ids: seq<Identity>)
    ensures |ids| == |picks|
  {
    seq(|picks|, i requires 0 <= i < |picks| => picks[i].identity)
  }

  /** The connected leaders come first, each exactly once and with its own info; the rest are
      sampled consumers without an info of their own. */
  ghost predicate Leading(connected: set<Identity>, leaders: map<Identity, LeaderInfo>, base: seq<LeaderPick>) {
    var lead := |connected * leaders.Keys|;
    && lead <= |base| <= Max(lead, N_CONSUMERS)
    && IsOrder(Ids(base[..lead]), connected * leaders.Keys)
    && (forall i :: 0 <= i < |base| ==> base[i].identity in connected)
    && (forall i :: 0 <= i < lead ==> base[i].identity in leaders && base[i].tpus == [leaders[base[i].identity]])
    && (forall i :: lead <= i < |base| ==> base[i].tpus == [])
  }

  /** Picks that carry nothing yet. */
  function Plain(ids: seq<Identity>): (picks: seq<LeaderPick>)
    ensures |picks| == |ids|
  {
    seq(|ids|, i requires 0 <= i < |ids| => Pick(ids[i], []))
  }

  lemma LeadingPlain(connected: set<Identity>, leaders: map<Identity, LeaderInfo>,
                     leading: seq<LeaderPick>, ids: seq<Identity>)
    requires Leading(connected, leaders, leading) && |leading| == |connected * leaders.Keys|
    requires |leading| + |ids| <= Max(|leading|, N_CONSUMERS) && forall i :: 0 <= i < |ids| ==> ids[i] in connected
    ensures Leading(connected, leaders, leading + Plain(ids))
    ensures Ids((leading + Plain(ids))[|leading|..]) == ids
  {
    assert (leading + Plain(ids))[..|leading|] == leading == leading[..|leading|];
  }

  /** With enough picks, sharing out the leaders panics exactly when there are one or two of them. */
  lemma PanicsIffFew(connected: set<Identity>, leaders: map<Identity, LeaderInfo>, tpus: seq<LeaderInfo>,
                     base: seq<LeaderPick>, r: Outcome<LeaderInfo>)
    requires |base| == Max(|connected * leaders.Keys|, 3) && ListsValues(tpus, leaders) && Distributed(tpus, base, r)
    ensures r.Panic? <==> 0 < |leaders| < 3
  {
    ListedValues(tpus, leaders);
    SubsetSize(connected * leaders.Keys, leaders.Keys);
    assert |leaders.Keys| == |leaders|;
  }

  /** The leaders with a validator record; one whose identity is not a public key makes it panic. */
  method KnownLeaders(plain: set<Identity>, infos: map<Identity, LeaderInfo>, gossip: map<Identity, string>,
                      parses: Identity -> bool)
    returns (alive: bool, found: map<Identity, LeaderInfo>)
    ensures alive <==> forall id :: id in plain * infos.Keys ==> parses(id)
    ensures alive ==> found.Keys == plain * infos.Keys
    ensures forall id :: id in found ==>
              && id in infos
              && found[id] == infos[id].(tpu := if id in gossip then gossip[id] else infos[id].tpu)
  {
    found := map[];
    var rest := plain;
    while rest != {}
      invariant rest <= plain
      invariant forall id :: id in (plain - rest) * infos.Keys ==> parses(id)
      invariant found.Keys == (plain - rest) * infos.Keys
      invariant forall id :: id in found ==>
                  found[id] == infos[id].(tpu := if id in gossip then gossip[id] else infos[id].tpu)
    {
      var id :| id in rest;
      if id in infos {
        if !parses(id) {
          return false, found;
        }
        found := found[id := if id in gossip then infos[id].(tpu := gossip[id]) else infos[id]];
      }
      rest := rest - {id};
    }
    return true, found;
  }

  method ListValues(m: map<Identity, LeaderInfo>) returns (values: seq<LeaderInfo>)
    ensures ListsValues(values, m)
  {
    var keys := Iterate(m.Keys);
    values := seq(|keys|, i requires 0 <= i < |keys| => assert keys[i] in keys; m[keys[i]]);
    assert ListsInOrder(values, m, keys);
  }

  class Balancer {
    var consumers: map<Identity, Consumer>
    var weights: map<Identity, nat>
    var total: nat
    var gauge: nat
    var signalled: set<SessionId>
    ghost var summedWith: map<Identity, nat>
    var leaders: map<Identity, LeaderInfo>
    var leaderTpus: seq<LeaderInfo>
    var rtts: RunningMean.Table
    var inbox: seq<SignatureRecord>
    var outbox: seq<Envelope>

    ghost function State(): Registry
      reads this
    {
      Registry(consumers, weights, total, gauge, signalled, summedWith)
    }

    /** Each record is filed under its own identity. */
    ghost predicate Valid()
      reads this
    {
      forall id :: id in consumers ==> consumers[id].identity == id
    }

    /** The list of leader infos is the list of values of the leader map. */
    ghost predicate LeadersAgree()
      reads this
    {
      ListsValues(leaderTpus, leaders)
    }

    /** Exactly when no draw of the sampler can come up empty. */
    ghost predicate Covered()
      reads this
    {
      Sampling.Covers(State())
    }

    constructor ()
      ensures Valid() && LeadersAgree() && State() == INITIAL
      ensures leaders == map[] && rtts == map[] && inbox == [] && outbox == []
    {
      consumers, weights, total, gauge, signalled, summedWith := map[], map[], 0, 0, {}, map[];
      leaders, leaderTpus, rtts, inbox, outbox := map[], [], map[], [], [];
      new;
      assert ListsInOrder<Identity, LeaderInfo>([], leaders, []);
    }

    /** The map of consumers is summed up in whatever order it is iterated. */
    method RecalcTotalConnectedStake()
      modifies this`total, this`gauge, this`summedWith
      ensures State() == Recalculated(old(State()))
    {
      gauge := |consumers|;
      var sum := 0;
      var rest := consumers;
      while rest != map[]
        invariant gauge == |consumers|
        invariant sum + StakeSum(rest) == StakeSum(consumers)
        decreases |rest|
      {
        var id :| id in rest;
        StakeSumRemove(rest, id);
        sum := sum + rest[id].stake;
        rest := rest - {id};
      }
      total := sum;
      summedWith := weights;
    }

    method Subscribe(id: Identity, token: Token, session: SessionId)
      requires Valid()
      modifies this`consumers, this`total, this`gauge, this`signalled, this`summedWith
      ensures Valid() && State() == Registries.Subscribe(old(State()), id, token, session)
    {
      if id in consumers {
        signalled := signalled + {consumers[id].session};
      }
      var stake := if id in weights then weights[id] else 1;
      consumers := consumers[id := Consumer(id, stake, token, session, false)];
      RecalcTotalConnectedStake();
    }

    method Unsubscribe(id: Identity, token: Token)
      requires Valid()
      modifies this`consumers, this`total, this`gauge, this`signalled, this`summedWith
      ensures Valid() && State() == Registries.Unsubscribe(old(State()), id, token)
    {
      if id in consumers && consumers[id].token == token {
        signalled := signalled + {consumers[id].session};
        consumers := consumers - {id};
        RecalcTotalConnectedStake();
      }
    }

    /** The total is left as it was. */
    method UpdateStakeWeights(newWeights: map<Identity, nat>)
      requires Valid()
      modifies this`consumers, this`weights
      ensures Valid() && State() == Registries.UpdateWeights(old(State()), newWeights)
      ensures weights == newWeights && consumers.Keys == old(consumers).Keys && total == old(total)
      ensures forall id :: id in consumers ==>
                consumers[id] == old(consumers)[id].(stake := if id in newWeights then newWeights[id] else 1)
    {
      weights := newWeights;
      var rest := consumers.Keys;
      while rest != {}
        invariant weights == newWeights
        invariant rest <= consumers.Keys == old(consumers).Keys
        invariant forall id :: id in consumers ==>
                    consumers[id] == if id in rest then old(consumers)[id]
                                     else old(consumers)[id].(stake := StakeOf(newWeights, id))
      {
        var id :| id in rest;
        var stake := if id in weights then weights[id] else 1;
        consumers := consumers[id := consumers[id].(stake := stake)];
        rest := rest - {id};
      }
      assert consumers == Restaked(old(consumers), newWeights);
    }

    method FlaggedEntries() returns (entries: seq<Entry>)
      requires Valid()
      ensures EntriesOf(consumers, entries) && Named(entries) == FlaggedIds(consumers)
    {
      var order := Iterate(consumers.Keys);
      assert forall i :: 0 <= i < |order| ==> order[i] in order;
      entries := [];
      for i := 0 to |order|
        invariant EntriesOf(consumers, entries)
        invariant forall id :: id in Named(entries) <==>
                    exists k :: 0 <= k < i && order[k] == id && consumers[id].flagged
      {
        var c := consumers[order[i]];
        if c.flagged {
          NamedSnoc(entries, (c.identity, c.token));
          assert forall k :: 0 <= k < |entries| ==> entries[k].0 in Named(entries);
          entries := entries + [(c.identity, c.token)];
        }
      }
      forall id | id in FlaggedIds(consumers) ensures id in Named(entries) {
        assert id in order;
      }
    }

    /** Collects the flagged consumers, then unsubscribes them one by one. */
    method FlushUnsubscribes()
      requires Valid()
      modifies this`consumers, this`total, this`gauge, this`signalled, this`summedWith
      ensures Valid() && State() == Flush(old(State()))
    {
      var entries := FlaggedEntries();
      for i := 0 to |entries|
        invariant Valid() && State() == RemoveAll(old(State()), Named(entries[..i]))
      {
        RemoveEntry(old(State()), entries, i);
        Unsubscribe(entries[i].0, entries[i].1);
      }
      assert entries[..|entries|] == entries;
    }

    /** One draw, with the map iterated in this order: `draw(n)` is the number drawn below `n`. Nobody is
        picked exactly when the point reaches the sum of `stake + 1`. */
    method SampleConsumer(order: seq<Identity>, draw: nat -> nat) returns (pick: Option<Identity>)
      requires IsOrder(order, consumers.Keys) && forall n: nat :: 0 < n ==> draw(n) < n
      ensures var point := draw(if total > 0 then total else |consumers|);
              && (forall id :: pick == Some(id) <==> Sampling.Picks(State(), order, point, id))
              && (pick.None? <==> StakeSum(consumers) + |consumers| <= point || consumers == map[])
      ensures pick.Some? ==> pick.value in consumers
      ensures Covered() ==> pick.Some?
    {
      var totalWeight: nat;
      if total == 0 {
        if consumers == map[] { return None; }
        totalWeight := |consumers|;
      } else {
        totalWeight := total;
      }
      var point := draw(totalWeight);
      var stakes := Stakes(consumers, order);
      var k := Sampling.Select(stakes, point);
      Sampling.SelectedIsPicked(State(), order, point, k);
      if k.None? {
        return None;
      }
      assert order[k.value] in order;
      return Some(order[k.value]);
    }

    method PickLeaders() returns (picks: seq<LeaderPick>)
      ensures Leading(consumers.Keys, leaders, picks) && |picks| == |consumers.Keys * leaders.Keys|
    {
      var order := Iterate(consumers.Keys);
      picks := [];
      ghost var ids: seq<Identity> := [];
      for i := 0 to |order|
        invariant |ids| == |picks|
        invariant forall k :: 0 <= k < |picks| ==>
                    ids[k] in leaders && picks[k] == Pick(ids[k], [leaders[ids[k]]])
        invariant IsOrder(ids, (set k | 0 <= k < i :: order[k]) * leaders.Keys)
      {
        var id := order[i];
        ghost var seen := set k | 0 <= k < i :: order[k];
        assert (set k | 0 <= k < i + 1 :: order[k]) == seen + {id};
        assert id !in seen;
        if id in leaders {
          SnocOrder(ids, seen * leaders.Keys, id);
          assert (seen + {id}) * leaders.Keys == seen * leaders.Keys + {id};
          picks := picks + [Pick(id, [leaders[id]])];
          ids := ids + [id];
        } else {
          assert (seen + {id}) * leaders.Keys == seen * leaders.Keys;
        }
      }
      assert (set k | 0 <= k < |order| :: order[k]) == consumers.Keys;
      OrderLength(ids, consumers.Keys * leaders.Keys);
      assert picks[..|ids|] == picks && Ids(picks) == ids;
      assert forall k :: 0 <= k < |ids| ==> ids[k] in ids;
    }

    /** Samples up to `missing` consumers, until a draw picks nobody. */
    method SampleConsumers(missing: nat, orders: nat -> seq<Identity>, draws: Sampling.Generator)
      returns (ids: seq<Identity>)
      requires Sampling.InRange(draws) && forall i :: IsOrder(orders(i), consumers.Keys)
      ensures Sampling.Sampled(State(), orders, draws, missing, ids)
      ensures forall i :: 0 <= i < |ids| ==> ids[i] in consumers
      ensures Covered() ==> |ids| == missing
    {
      ids := [];
      for i := 0 to missing
        invariant |ids| == i
        invariant forall k :: 0 <= k < i ==> ids[k] in consumers && Sampling.PickedBy(State(), orders, draws, k, ids[k])
      {
        var pick := SampleConsumer(orders(i), draws(i));
        match pick {
          case Some(id) =>
            ids := ids + [id];
          case None =>
            assert forall id :: Sampling.PickedBy(State(), orders, draws, i, id) ==> pick == Some(id);
            return;
        }
      }
    }

    /** The connected leaders, then the consumers picked by the draws, until there are three or a draw
        picks nobody. */
    method PickLeadersFirst(orders: nat -> seq<Identity>, draws: Sampling.Generator)
      returns (picks: seq<LeaderPick>)
      requires Sampling.InRange(draws) && forall i :: IsOrder(orders(i), consumers.Keys)
      ensures Leading(consumers.Keys, leaders, picks)
      ensures var lead := |consumers.Keys * leaders.Keys|;
              Sampling.Sampled(State(), orders, draws, 3 - Min(lead, 3), Ids(picks[lead..]))
      ensures Covered() ==> |picks| == Max(|consumers.Keys * leaders.Keys|, 3)
      ensures consumers == map[] ==> picks == []
    {
      var leading := PickLeaders();
      var sampled := SampleConsumers(N_CONSUMERS - Min(|leading|, N_CONSUMERS), orders, draws);
      LeadingPlain(consumers.Keys, leaders, leading, sampled);
      picks := leading + Plain(sampled);
      assert picks != [] ==> picks[0].identity in consumers;
    }

    /** `base` is the list of picks before the leaders' TPUs are shared out. */
    method PickConsumers(orders: nat -> seq<Identity>, draws: Sampling.Generator)
      returns (r: Outcome<LeaderInfo>, ghost base: seq<LeaderPick>)
      requires Sampling.InRange(draws) && forall i :: IsOrder(orders(i), consumers.Keys)
      ensures Leading(consumers.Keys, leaders, base) && Distributed(leaderTpus, base, r)
      ensures var lead := |consumers.Keys * leaders.Keys|;
              Sampling.Sampled(State(), orders, draws, 3 - Min(lead, 3), Ids(base[lead..]))
      ensures consumers == map[] ==> r == Done([])
      ensures Covered() ==> |base| == Max(|consumers.Keys * leaders.Keys|, 3)
      ensures Covered() && LeadersAgree() ==> (r.Panic? <==> 0 < |leaders| < 3)
    {
      var picks := PickLeadersFirst(orders, draws);
      base := picks;
      r := Distribute(leaderTpus, picks);
      if Covered() && LeadersAgree() { PanicsIffFew(consumers.Keys, leaders, leaderTpus, base, r); }
    }

    /** One send: the consumer and its addresses are recorded, or it is flagged. */
    method SendTo(pick: LeaderPick, record: SignatureRecord, signature: string, data: string, ok: bool)
      returns (after: SignatureRecord)
      requires pick.identity in consumers
      modifies this`consumers, this`outbox
      ensures ok ==>
                && consumers == old(consumers)
                && outbox == old(outbox) + [EnvelopeFor(consumers, pick, signature, data)]
                && after == record.(consumers := record.consumers + [pick.identity],
                                    tpuIps := record.tpuIps + IpsOf(pick.tpus))
      ensures !ok ==>
                && consumers == old(consumers)[pick.identity := old(consumers)[pick.identity].(flagged := true)]
                && outbox == old(outbox) && after == record
    {
      var id := pick.identity;
      after := record;
      if ok {
        after := record.(consumers := record.consumers + [id], tpuIps := record.tpuIps + IpsOf(pick.tpus));
        outbox := outbox + [Envelope(consumers[id].session, signature, data, TpusOf(pick.tpus))];
      } else {
        consumers := consumers[id := consumers[id].(flagged := true)];
      }
    }

    method SendEach(chosen: seq<LeaderPick>, session: SignatureRecord, signature: string, data: string,
                    sent: nat -> bool)
      returns (record: SignatureRecord)
      requires Valid() && forall i :: 0 <= i < |chosen| ==> chosen[i].identity in consumers
      modifies this`consumers, this`outbox
      ensures Valid() && consumers == FlagEach(old(consumers), chosen, sent, |chosen|)
      ensures outbox == old(outbox) + Envelopes(old(consumers), chosen, sent, |chosen|, signature, data)
      ensures record == RecordAfter(session, chosen, sent, |chosen|)
    {
      record := session;
      for i := 0 to |chosen|
        invariant Valid() && consumers == FlagEach(old(consumers), chosen, sent, i)
        invariant record == RecordAfter(session, chosen, sent, i)
        invariant outbox == old(outbox) + Envelopes(old(consumers), chosen, sent, i, signature, data)
      {
        RecordOneMore(session, chosen, sent, i);
        FlagsFailed(old(consumers), chosen, sent, i, chosen[i].identity);
        record := SendTo(chosen[i], record, signature, data, sent(i));
      }
    }

    /** Sends to every pick and passes the record on to the watcher. */
    method SendAll(chosen: seq<LeaderPick>, session: SignatureRecord, signature: string, data: string,
                   sent: nat -> bool, inboxOpen: bool)
      requires Valid() && forall i :: 0 <= i < |chosen| ==> chosen[i].identity in consumers
      modifies this`consumers, this`inbox, this`outbox
      ensures Valid() && consumers == FlagEach(old(consumers), chosen, sent, |chosen|)
      ensures outbox == old(outbox) + Envelopes(old(consumers), chosen, sent, |chosen|, signature, data)
      ensures inbox == old(inbox) + if inboxOpen then [RecordAfter(session, chosen, sent, |chosen|)] else []
      ensures inboxOpen ==> Forwards(session, inbox[|old(inbox)|], chosen, sent)
    {
      var record := SendEach(chosen, session, signature, data, sent);
      RecordForwards(session, chosen, sent);
      if inboxOpen {
        inbox := inbox + [record];
      }
    }

    /** Sends to every pick; `sent` gives the result of each send, in pick order. */
    method Publish(session: SignatureRecord, signature: string, data: string,
                   orders: nat -> seq<Identity>, draws: Sampling.Generator, sent: nat -> bool, inboxOpen: bool)
      returns (result: PublishResult, ghost base: seq<LeaderPick>, ghost picks: seq<LeaderPick>)
      requires Valid() && Sampling.InRange(draws) && forall i :: IsOrder(orders(i), consumers.Keys)
      modifies this`consumers, this`inbox, this`outbox
      ensures Valid()
      ensures result.Crashed? <==> 0 < |leaderTpus| < |base|
      ensures result.NoClients? <==> base == []
      ensures !result.Published? ==> State() == old(State()) && inbox == old(inbox) && outbox == old(outbox)
      ensures result.Published? ==>
                && Distributed(leaderTpus, base, Done(picks))
                && (forall i :: 0 <= i < |picks| ==> picks[i].identity in old(consumers))
                && consumers == FlagEach(old(consumers), picks, sent, |picks|)
                && outbox == old(outbox) + Envelopes(old(consumers), picks, sent, |picks|, signature, data)
                && inbox == old(inbox) + if inboxOpen then [RecordAfter(session, picks, sent, |picks|)] else []
      ensures result.Published? && inboxOpen ==> Forwards(session, inbox[|old(inbox)|], picks, sent)
      ensures Leading(old(consumers).Keys, leaders, base)
      ensures var lead := |old(consumers).Keys * leaders.Keys|;
              Sampling.Sampled(old(State()), orders, draws, 3 - Min(lead, 3), Ids(base[lead..]))
      ensures old(Covered()) ==> |base| == Max(|old(consumers).Keys * leaders.Keys|, 3)
      ensures old(Covered() && LeadersAgree()) ==> (result.Crashed? <==> 0 < |leaders| < 3)
    {
      var r, b := PickConsumers(orders, draws);
      base, picks := b, [];
      if r.Panic? {
        return Crashed, base, picks;
      }
      if r.picks == [] {
        return NoClients, base, picks;
      }
      picks := r.picks;
      SendAll(r.picks, session, signature, data, sent, inboxOpen);
      return Published, base, picks;
    }

    method SetLeaders(newTpus: seq<LeaderInfo>, newLeaders: map<Identity, LeaderInfo>)
      modifies this`leaders, this`leaderTpus
      ensures leaders == newLeaders && leaderTpus == newTpus
    {
      leaderTpus := newTpus;
      leaders := newLeaders;
    }

    /** A new set of leaders arrives: known validators are kept, with the address taken from gossip
        when there is one; then the flagged consumers are flushed under the same lock. Nothing has
        changed when an identity that is not a public key makes it panic. */
    method UpdateLeaders(plain: set<Identity>, infos: map<Identity, LeaderInfo>, gossip: map<Identity, string>,
                         parses: Identity -> bool)
      returns (alive: bool)
      requires Valid()
      modifies this`leaders, this`leaderTpus, this`consumers, this`total, this`gauge, this`signalled, this`summedWith
      ensures Valid() && (alive <==> forall id :: id in plain * infos.Keys ==> parses(id))
      ensures alive ==> LeadersAgree() && State() == Flush(old(State())) && leaders.Keys == plain * infos.Keys
      ensures alive ==> forall id :: id in leaders ==>
                leaders[id] == infos[id].(tpu := if id in gossip then gossip[id] else infos[id].tpu)
      ensures !alive ==> State() == old(State()) && leaders == old(leaders) && leaderTpus == old(leaderTpus)
    {
      var parsed, found := KnownLeaders(plain, infos, gossip, parses);
      if !parsed {
        return false;
      }
      var values := ListValues(found);
      SetLeaders(values, found);
      FlushUnsubscribes();
      return true;
    }

    /** One more sample for this consumer and this address. */
    method UpdateRtt(id: Identity, ip: string, rtt: nat)
      modifies this`rtts
      ensures rtts == RunningMean.Update(old(rtts), RunningMean.Report(id, ip, rtt))
    {
      var slots := if id in rtts then rtts[id] else map[];
      var slot := if ip in slots then slots[ip] else RunningMean.EMPTY;
      var n := slot.n + 1;
      rtts := rtts[id := slots[ip := RunningMean.Rtt((slot.n * slot.rtt + rtt) / n, n)]];
    }
  }

  lemma SubsetSize<T>(a: set<T>, b: set<T>)
    requires a <= b
    ensures |a| <= |b|
  {
    assert b == a + (b - a);
  }
}
