/** What the leader window, the leader update and the allocation do together at the end of an epoch. */
module EndOfEpoch {
  import opened Orders
  import opened Registries
  import opened Records
  import opened Balancing
  import LeaderStream
  import Sampling

  /** The window does not continue into the next epoch, so in its last eight slots it holds at most
      two leaders. If at least one of them is a known validator, publishing to any consumer that
      survives the update divides fewer leaders than picks into chunks of length zero and panics.
      The total need not be up to date when a consumer is flagged: flushing it recomputes the total. */
  method PublishAtEndOfEpoch(b: Balancer, schedule: LeaderStream.Schedule, slot: nat,
                             infos: map<Identity, LeaderInfo>, gossip: map<Identity, string>,
                             parses: Identity -> bool, session: SignatureRecord, data: string,
                             draws: Sampling.Generator, sent: nat -> bool)
    returns (updated: bool, result: PublishResult)
    requires b.Valid() && Sampling.InRange(draws)
    requires exists id :: id in b.consumers && !b.consumers[id].flagged
    requires FlaggedIds(b.consumers) == {} ==> b.Covered()
    requires forall s :: s in schedule ==> s < LeaderStream.SLOTS_PER_EPOCH
    requires slot % LeaderStream.SLOTS_PER_EPOCH + 8 >= LeaderStream.SLOTS_PER_EPOCH
    requires LeaderStream.Leaders(schedule, slot) * infos.Keys != {}
    modifies b
    ensures updated <==> forall id :: id in LeaderStream.Leaders(schedule, slot) * infos.Keys ==> parses(id)
    ensures result == Crashed
  {
    FewKnownLeaders(schedule, slot, infos);
    FlushCovers(b.State());
    updated := b.UpdateLeaders(LeaderStream.Leaders(schedule, slot), infos, gossip, parses);
    if !updated {
      return false, Crashed;
    }
    assert |b.leaders.Keys| == |b.leaders|;
    result := PublishToFewLeaders(b, session, data, draws, sent);
  }

  /** One or two leaders are fewer than the picks. */
  method PublishToFewLeaders(b: Balancer, session: SignatureRecord, data: string,
                             draws: Sampling.Generator, sent: nat -> bool)
    returns (result: PublishResult)
    requires b.Valid() && Sampling.InRange(draws)
    requires b.Covered() && b.LeadersAgree() && 0 < |b.leaders| < N_CONSUMERS
    modifies b
    ensures result == Crashed
  {
    var order := Iterate(b.consumers.Keys);
    var r, _, _ := b.Publish(session, session.signature, data, _ => order, draws, sent, true);
    result := r;
  }

  lemma FewKnownLeaders(schedule: LeaderStream.Schedule, slot: nat, infos: map<Identity, LeaderInfo>)
    requires forall s :: s in schedule ==> s < LeaderStream.SLOTS_PER_EPOCH
    requires slot % LeaderStream.SLOTS_PER_EPOCH + 8 >= LeaderStream.SLOTS_PER_EPOCH
    requires LeaderStream.Leaders(schedule, slot) * infos.Keys != {}
    ensures 0 < |LeaderStream.Leaders(schedule, slot) * infos.Keys| < N_CONSUMERS
  {
    LeaderStream.EndOfEpochFewLeaders(schedule, slot);
    SubsetSize(LeaderStream.Leaders(schedule, slot) * infos.Keys, LeaderStream.Leaders(schedule, slot));
  }

  /** A flush leaves the unflagged consumers, and removing somebody recomputes the total. */
  lemma FlushCovers(r: Registry)
    requires exists id :: id in r.consumers && !r.consumers[id].flagged
    requires FlaggedIds(r.consumers) == {} ==> Sampling.Covers(r)
    ensures Sampling.Covers(Flush(r))
  {
  }
}
