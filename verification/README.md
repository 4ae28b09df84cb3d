# mTransaction: a verified model of the balancer, its sessions and the client

mTransaction forwards Solana transactions through staked validators. The server keeps a registry of
connected validator clients, picks a few of them for every transaction and tells them which leaders
to send it to; a watcher then checks what became of the transaction. The client answers pings,
forwards transactions and keeps one connection task per configured server.

The project models that logic in Dafny and proves what it does over all inputs and all
interleavings. Objects that the program updates in place are classes (`Balancer`, `Watcher`,
`Stream`, `Metrics`, `Forwarder`, `Client`), each proved to carry out operations on values; the
concurrent parts are state machines, the theorems range over every run, and the objects are proved to
carry out runs of those machines (`Refinement.dfy`).

| file | what it models |
|---|---|
| `Orders.dfy`, `Runs.dfy`, `Arithmetic.dfy`, `LabelledCounters.dfy`, `Records.dfy` | hash map iteration, runs of a machine, quotients, metric counters, shared records |
| `Registries.dfy`, `Sampling.dfy`, `Allocation.dfy`, `RunningMean.dfy` | the registry as a value, the sampler, the sharing out of leaders, the running mean |
| `Balancing.dfy` | the mutable balancer |
| `Sessions.dfy` | all sessions over one registry |
| `PingPong.dfy` | the ping exchange of one session |
| `SignatureWatch.dfy`, `SignatureAccounting.dfy` | the watcher's queue; the watcher with its checkers |
| `LeaderStream.dfy`, `EndOfEpoch.dfy` | upcoming leaders; their effect on publishing at the end of an epoch |
| `Forwarding.dfy` | the client's forwarding tasks |
| `Reloading.dfy`, `Retrying.dfy` | the client's task table and reconnection delays |
| `Refinement.dfy` | the balancer, the watcher and the metrics carry out runs of the machines |

Conventions. A hash map is iterated in any order that lists each key once; a random draw is any value
in its range. The iteration orders and the numbers drawn for the sampler, the result of a send, a
response or a connection attempt are inputs; the clock is any non-decreasing sequence of readings. A
session is identified by its channels (a number), separately from the random token it was given, so
that reuse of a token can be expressed. Panics end the process, because both binaries install a panic
hook that exits.

## What the code does that its intent does not suggest

- The sampler draws below the sum of the stakes but accumulates `stake + 1`. With a fresh, positive
  total a consumer can be sampled under every iteration order if and only if its stake is at least
  the number of consumers (`Sampling.ReachableInEveryOrder`); a smaller one is never sampled when the
  map happens to list it last.
- `update_stake_weights` leaves the total as it was, so a draw can pick nobody although consumers are
  connected (`Sessions.StaleTotalCanMiss`); this cannot happen if and only if the drawn range is at
  most the sum of the stakes plus the number of consumers (`Sampling.DrawsPartition`).
- With one or two known leaders and at least one consumer, the chunk length is zero and publishing
  panics (`Balancing.Balancer.PickConsumers`). The leader window is cut off at the end of an epoch,
  so this is what happens in the last eight slots of an epoch (`EndOfEpoch.PublishAtEndOfEpoch`).
- Picks are sampled with replacement, so one consumer can hold both copies of a leader. Losing that
  consumer then loses the leader; exactly which leaders are lost is `Balancing.LosingOneConsumer`.
- Both arms of the execution status count a success, so successes are the finalized ones, plus those
  of checkers halfway between the two increments; errors stay at 0
  (`SignatureAccounting.SuccessFollowsFinalized`).
- A response with fewer statuses than signatures makes records disappear from the accounts; this is
  the only way they can (`SignatureAccounting.FullyAccountedIffComplete`), and a single record with an
  empty response is an example (`SignatureAccounting.ShortResponseLosesRecord`).
- One failed refresh of the leader schedule ends the stream of leaders for good
  (`LeaderStream.StaysStopped`).
- The gauge of used permits is read and set in separate steps, so it is not always the maximum since
  the last reset. It can fall below it (`Forwarding.GaugeCanDrop`), and a reset can be undone
  (`Forwarding.ResetCanBeUndone`). It is that maximum throughout a run if and only if every task that
  sets it finds the value it read still there, or has read and finds nothing larger than its own value
  (`Forwarding.GaugeIsPeakIff`); in particular when no other write comes between a task's reading and
  its setting of the gauge (`Forwarding.AtomicGaugeIsPeak`).
- A repeated URL overwrites a handle: the connection task behind it is neither tracked nor aborted,
  exactly when a list repeats a URL that the list before it lacked (`Reloading.OrphansIffRepeated`);
  the shortest such list is `Reloading.RepeatedUrlOrphans`.

## Model

| member | source | states |
|---|---|---|
| Balancing.Balancer.RecalcTotalConnectedStake | server/balancer.rs:191-204 | whatever the iteration order, the total is the sum of the stakes and the gauge the number of consumers |
| Balancing.Balancer.Subscribe | server/balancer.rs:83-108 | replaces the identity's record, signals the session whose record was dropped, recomputes the total |
| Balancing.Balancer.Unsubscribe | server/balancer.rs:110-117 | removes and signals exactly when the token is the registered one; otherwise nothing changes |
| Balancing.Balancer.UpdateStakeWeights | server/balancer.rs:183-189 | the new weights replace the old ones; every consumer gets its weight in the new list, or 1 if it is not listed, and nothing else of it changes; the total is not touched |
| Balancing.Balancer.FlaggedEntries | server/balancer.rs:293-298 | collects exactly the flagged consumers, each once and with its own token |
| Balancing.Balancer.FlushUnsubscribes | server/balancer.rs:292-302 | removes exactly the flagged consumers, signals them, keeps the others unchanged, and recomputes the total only if there was one |
| Balancing.Balancer.SampleConsumer | server/balancer.rs:119-140 | for every iteration order and every number drawn below the total, or below the number of consumers if the total is 0: the pick is the consumer that owns the point, and nobody exactly when the point reaches the sum of `stake + 1` |
| Balancing.Balancer.SampleConsumers | server/balancer.rs:156-166 | the picks are those of the successive draws, up to the missing number; the first draw that picks nobody is the last |
| Balancing.Balancer.PickLeaders | server/balancer.rs:145-152 | the connected leaders, each exactly once, each with its own info first |
| Balancing.Balancer.PickConsumers | server/balancer.rs:142-181 | connected leaders first and once each, then the consumers picked by the given draws until there are three or a draw picks nobody, each followed by its round-robin share of the leaders; while no draw can come up empty there are max(connected leaders, 3) picks, and it panics exactly when there are one or two leaders |
| Balancing.Balancer.SendAll | server/balancer.rs:222-263 | one envelope for each successful send, a flag for each failed one, and one record for the watcher that keeps the time, signature, mode and partner of the request and adds the consumers reached, in pick order, and their addresses |
| Balancing.SentInOrder | server/balancer.rs:245-258 | the successful sends are listed exactly, each once and in pick order |
| Balancing.EnvelopesInOrder | server/balancer.rs:222-244 | each successful send carries signature, data and exactly the addresses of its pick to the session by which that consumer is connected; a failed one delivers nothing |
| Balancing.FlagsFailed | server/balancer.rs:253-256 | exactly the consumers with a failed send become flagged, and nothing else of any consumer changes |
| Balancing.Balancer.Publish | server/balancer.rs:206-266 | an error without picks, a crash with fewer leaders than picks, and otherwise the sends to the picks of the given draws, with one record in the watcher's inbox that keeps the request's time, signature, mode and partner; while no draw can come up empty it crashes exactly with one or two leaders |
| Balancing.KnownLeaders | server/balancer.rs:305-318 | keeps exactly the leaders with a validator record, with the gossip address if there is one and the record otherwise unchanged; panics exactly when one of those is not a public key |
| Balancing.Balancer.UpdateLeaders | server/balancer.rs:365-379 | the leader list is the list of values of the leader map, and the flagged consumers are flushed in the same step; nothing changes if looking up a leader panics |
| Balancing.Balancer.UpdateRtt | server/balancer.rs:277-290 | one update of the table of running means: only the slot of that consumer and address changes |
| RunningMean.SlotIsRunningMean | server/balancer.rs:277-290 | after any sequence of updates each slot is the running mean of exactly the samples of its consumer and address, in order |
| RunningMean.SlotLag | server/balancer.rs:277-290 | so each slot counts its own samples, never exceeds their true mean and lags it by at most (n - 1) / 2 |
| Balancing.OneFailedSendLosesNoLeader | server/balancer.rs:168-258 | with two or more picks and no fewer leaders, the address of every leader is delivered even if the send to any one pick fails |
| Balancing.LosingOneConsumer | server/balancer.rs:142-181 | losing a consumer loses exactly the leaders whose two positions both carry it, except those another pick came with |
| Balancing.DeliveredByOthers | server/balancer.rs:222-258 | when exactly the sends to one consumer fail, the recorded addresses are those carried by picks of the others |
| Balancing.OneLostConsumer | server/balancer.rs:142-258 | no address is lost with a consumer that never holds both copies of a leader, and all are lost with one that holds every pick |
| Refinement.PublishIsRun | server/balancer.rs:222-258 | publishing is one `SendFailed` step of the session protocol for each failed send, in pick order |
| Refinement.Server.Connect | server/grpc_server.rs:184-185 | subscribing is a `Connect` step: the balancer stays in step with a run of the session protocol |
| Refinement.Server.Cleanup | server/grpc_server.rs:235-236 | unsubscribing with the session's own identity and token is its `Cleanup` step |
| Refinement.Server.UpdateStakeWeights | server/balancer.rs:183-189 | updating the weights is a `NewWeights` step |
| Refinement.Server.UpdateLeaders | server/balancer.rs:376-378 | updating the leaders is a `FlushFlagged` step, or none if it panics |
| Refinement.Server.Publish | server/balancer.rs:206-266 | publishing extends the run by its failed sends and by nothing else; the record is labelled with the partner and mode of the request |
| Refinement.PublishAndWatch | server/balancer.rs:206-266 | a published request reaches the watcher as one record, accounted for under the partner and the mode of the request |
| Registries.StakeSumRemove | server/balancer.rs:199-203 | the sum of the stakes does not depend on the order of summation |
| Registries.StakeSumInOrder | server/balancer.rs:199-203 | the sum over any iteration order is the sum over the map |
| Registries.RemoveOneMore | server/balancer.rs:299-301 | unsubscribing one by one with the collected tokens removes the whole set |
| Sampling.Select | server/balancer.rs:130-139 | the loop returns the consumer that owns the point, and nobody exactly beyond the last accumulated sum |
| Sampling.SelectionUnique | server/balancer.rs:133-138 | no point is owned by two consumers |
| Sampling.DrawCount | server/balancer.rs:130-138 | the number of draws selecting position k is exactly min(T, P(k+1)) - min(T, P(k)) |
| Sampling.DrawsPartition | server/balancer.rs:119-140 | the consumers share out all the draws, and no draw comes up empty, if and only if the range is at most the sum of `stake + 1` |
| Sampling.FreshTotalAlwaysSelects | server/balancer.rs:119-140 | with an up-to-date total every draw selects a consumer |
| Sampling.PicksNobody | server/balancer.rs:119-140 | a draw picks nobody exactly when the point reaches the sum of the stakes plus the number of consumers |
| Sampling.SampledUnique | server/balancer.rs:156-166 | the iteration orders and the numbers drawn determine whom the sampler picks |
| Sampling.PickCount | server/balancer.rs:119-138 | in every registry, the number of points below the total, or below the number of consumers if it is 0, that pick the k-th consumer is exactly min(T, P(k+1)) - min(T, P(k)) |
| Sampling.PickShare | server/balancer.rs:119-138 | in a registry with an up-to-date total, each consumer is picked by between `stake + 1 - n` and `stake + 1` of the points the sampler can draw, or by exactly one if the total is 0 |
| Sampling.DrawShare | server/balancer.rs:127-138 | each consumer gets between `stake + 1 - n` and `stake + 1` draws |
| Sampling.ZeroStakesUniform | server/balancer.rs:120-126 | with all stakes zero every consumer has exactly one of n draws |
| Sampling.ReachableInEveryOrder | server/balancer.rs:127-138 | in a registry with an up-to-date, positive total, some point the sampler can draw picks a consumer under every iteration order if and only if its stake is at least the number of consumers |
| Sampling.AccumulatorBound | server/balancer.rs:131-134 | the accumulator never exceeds the sum of the stakes plus the number of consumers |
| Allocation.Distribute | server/balancer.rs:168-178 | panics exactly when there are fewer leaders than picks; otherwise each pick keeps what it had and receives its share in order, between 2 and 4 chunk lengths |
| Allocation.ReceivedInOrder | server/balancer.rs:171-177 | each position receives its leaders in the order in which they are listed |
| Allocation.ReceivedIff | server/balancer.rs:171-177 | a position holds a leader exactly when one of its two copies is placed there |
| Allocation.CarriedIff | server/balancer.rs:168-178 | a pick ends up with exactly what it had before and the leaders with a copy placed at it |
| Allocation.EveryLeaderTwice | server/balancer.rs:171-177 | over all positions each leader is handed out exactly twice |
| Allocation.CopiesToDistinctPositions | server/balancer.rs:173-175 | with two or more picks the two copies go to two different positions, one each |
| Allocation.LoadBounds | server/balancer.rs:170-176 | each position receives between 2 and 4 chunk lengths even when the indices wrap around |
| Allocation.SurvivesOneLoss | server/balancer.rs:173-175 | without any one position every leader is still held by another |
| Allocation.EveryLeaderSurvives | server/balancer.rs:168-178 | the same for the picks the loop returns |
| RunningMean.WithinSamples | server/balancer.rs:287-289 | the running value stays between the least and the greatest sample |
| RunningMean.LagBound | server/balancer.rs:287-289 | it never exceeds the true mean and lags it by at most (n - 1) / 2 |
| RunningMean.LagAttained | server/balancer.rs:287-289 | the bound is attained by m, m + 1, m + 2, ... for every length |
| RunningMean.NextFitsWord | server/balancer.rs:288 | with samples up to M and (n + 1) * M below 2^64 the next update does not overflow |
| Sessions.Invariant | server/grpc_server.rs:184-238 | after every run: each entry is the latest session of its identity, unfinished, with its current weight, flagged exactly if a send to it failed since it connected; exactly the sessions without an entry were signalled; gauge and total agree with the map |
| Sessions.EntryIsLatestSession | server/balancer.rs:83-117 | the entry of an identity is its most recently connected session, which has not cleaned up |
| Sessions.MissingSessionsAreSignalled | server/balancer.rs:46-52 | a session is signalled exactly when it has no entry, so an unfinished one without an entry can leave its loop |
| Sessions.AllFinishedIsEmpty | server/grpc_server.rs:235-236 | when all sessions have finished, the map is empty and the total and the gauge are 0 |
| Sessions.CleanupRemovesOther | server/balancer.rs:110-117 | a cleanup takes away another session's entry if and only if that session reuses the token |
| Sessions.CleanupRemovesOnlyItself | server/balancer.rs:110-117 | with distinct tokens a cleanup removes its own entry or nothing, never its successor's |
| Sessions.ReusedTokenEvictsSuccessor | server/grpc_server.rs:235-236 | a run in which a reused token makes a late cleanup evict the newer session |
| Sessions.SignalsEndStaleSessions | server/grpc_server.rs:195-238 | from every reachable state the signals and cleanups alone finish every session without an entry; with distinct tokens the registry and the sessions with an entry are untouched |
| Sessions.Drain | server/grpc_server.rs:195-238 | if the clients of the other sessions leave too, every session finishes and the registry is empty |
| Sessions.FlushKeepsUnfailed | server/balancer.rs:292-302 | a flush leaves exactly the consumers without a failed send since they connected, unchanged |
| Sessions.StakeIsLastWeight | server/balancer.rs:83-108 | after every run each consumer's stake is its weight in the list that arrived last, whether it connected before or after, and 1 if that list lacks it or none arrived |
| Sessions.TotalIsUpToDate | server/balancer.rs:183-204 | the total is the sum of the current stakes as long as no new weights arrived since the last connection or effective removal; it always sums the weights in force when it was last computed |
| Sessions.StaleTotal | server/balancer.rs:183-189 | a run after which the total differs from the sum of the stakes by any amount |
| Sessions.UpToDateTotalAlwaysPicks | server/balancer.rs:119-140 | as long as no new weights arrived since the last connection or effective removal, every draw under every order picks somebody |
| Sessions.StaleTotalCanMiss | server/balancer.rs:119-140 | a run after which a draw picks nobody although a consumer is connected |
| Sessions.HealthyExactlyWhenConnected | server/rpc_server.rs:225-240 | the health endpoint succeeds exactly when a consumer is connected |
| PingPong.DecimalInjective | server/grpc_server.rs:120 | different ids print differently |
| PingPong.Invariant | server/grpc_server.rs:212-224 | in every reachable state the ids in flight are consecutive and end with the last ping, measured ids strictly increase, and every sample times its own ping |
| PingPong.MeasuredIffOnlyOutstanding | server/grpc_server.rs:119-125 | an arriving pong is measured exactly when its ping is the only one outstanding |
| PingPong.ArrivingPong | client/grpc_client.rs:17-61 | in every reachable state an echoed pong adds one sample, with the time since its own ping was sent, or none |
| SignatureWatch.Watcher.Receive | server/solana_service.rs:186-192 | stamps the record with the current time and appends it, keeping the queue sorted |
| SignatureWatch.Watcher.CountAged | server/solana_service.rs:168-175 | counts aged records from the front until there are 250, the queue ends, or the next one has not aged at the last reading |
| SignatureWatch.Watcher.Tick | server/solana_service.rs:166-185 | terminates; the new bundles are cut off the front of the queue in order; each has 1 to 250 records, all older than 10 s when it was spawned, and is full, or took all there was, or the record after it had not aged; no record older than 10 s at the last reading remains |
| Refinement.TickIsRun | server/solana_service.rs:166-185 | cutting bundles off the queue is one `Spawn` step of the accounting machine for each |
| Refinement.Watching.Receive | server/solana_service.rs:186-192 | receiving a record is a `Receive` step with the stamped record |
| Refinement.Watching.Tick | server/solana_service.rs:166-185 | a tick is the run of `Spawn` steps for its new bundles |
| Refinement.Watching.CountNext | server/solana_service.rs:235-277 | any single increment by any checker is a `CountNext` step |
| Refinement.CheckerIsRun | server/solana_service.rs:216-285 | a checker that nothing interrupts is the run of its increments |
| Refinement.Watching.Check | server/solana_service.rs:216-285 | the imperative checker carries out that run |
| SignatureAccounting.Metrics.SignatureChecker | server/solana_service.rs:216-285 | carries out the increments of the bundle in order, stopping at the shorter of bundle and response; every counter, per label, consumer and address, moves by exactly what the response calls for |
| SignatureAccounting.LooksAt | server/solana_service.rs:220 | a record is looked at exactly when the response has a status for it, or is an RPC error |
| SignatureAccounting.LabelledSnoc | server/solana_service.rs:186-191 | a record counts for its own partner and mode, and for no other label |
| SignatureAccounting.RecordsConserved | server/solana_service.rs:165-285 | for every label in every reachable state, between any two increments of any checkers, received = queued + in flight + finalized + timed out + forgotten |
| SignatureAccounting.FullyAccountedIffComplete | server/solana_service.rs:220 | nothing is forgotten if and only if every response had a status for each of its signatures |
| SignatureAccounting.ShortResponseLosesRecord | server/solana_service.rs:220 | a run of three steps that loses a record, for every record |
| SignatureAccounting.CountersExact | server/solana_service.rs:223-284 | in every reachable state every counter plus its pending increments is what the responses so far call for: known statuses per label, mentions per consumer, addresses once each, nothing by name after an RPC error |
| SignatureAccounting.SuccessFollowsFinalized | server/solana_service.rs:232-247 | in every reachable state successes = finalized + checkers halfway between the two, whatever errors the statuses report, and errors = 0 |
| LeaderStream.InvertSchedule | server/solana_service.rs:55-67 | every owned slot and no other has an entry, naming an owner; it names the owner throughout if and only if the slots are disjoint |
| LeaderStream.EndOfEpochFewLeaders | server/solana_service.rs:107-112 | in the last eight slots of an epoch there are at most two leaders |
| LeaderStream.Stream.Handle | server/solana_service.rs:100-120 | a refresh replaces the schedule, a failed one ends the loop; a notification sends the window's leaders only if they changed |
| LeaderStream.Stream.Loop | server/solana_service.rs:99-123 | the loop over any events, until a refresh fails or they run out, reaches the state the run describes |
| LeaderStream.StaysStopped | server/solana_service.rs:103 | after a failed refresh nothing is ever sent again |
| LeaderStream.SendsChanges | server/solana_service.rs:99-123 | the sends are exactly the changes of a stream that sends on every notification |
| LeaderStream.RefinesEverySend | server/solana_service.rs:114-119 | both streams always agree on the latest set; no set is sent twice in a row and the first is not empty |
| LeaderStream.LatestAreOwners | server/solana_service.rs:99-123 | after a notification to a live stream, an identity is in the latest set sent exactly when it owns one of s, s + 4, ..., s + 24, with s the slot within its epoch |
| EndOfEpoch.PublishAtEndOfEpoch | server/balancer.rs:169-171 | in the last eight slots of an epoch, with a known leader, an unflagged consumer and, if nobody is flagged, a total that covers the draws, publishing after the update panics |
| Forwarding.NeverUnderflows | client/quic_forwarder.rs:41-64 | in every interleaving available + held = maximum, at most that many sends run at once, the subtraction never underflows and the gauge stays in range |
| Forwarding.SamplesPermitsInUse | client/quic_forwarder.rs:48-50 | in every reachable state, what a new task samples is the number of permits held |
| Forwarding.MalformedStops | client/quic_forwarder.rs:52-53 | after an address or payload that does not parse nothing happens any more |
| Forwarding.OutcomesConserved | client/quic_forwarder.rs:66-89 | per source, succeeded + failed + pending is the number of addresses received (QUIC) or of transactions (otherwise), and each counter counts the tasks with that result |
| Forwarding.SomeTaskCanStep | client/rpc_forwarder.rs:38-81 | no deadlock: with at least one permit, an unfinished task means that some task can step |
| Forwarding.GaugeIsPeakIff | client/metrics.rs:42-48 | the gauge is the largest use recorded since the last reset, after every prefix of a run, if and only if every task that sets it finds the value it read, or neither that nor the current one exceeds its own |
| Forwarding.AtomicGaugeIsPeak | client/metrics.rs:42-48 | it is, if no other write comes between a task's reading and its setting of the gauge |
| Forwarding.GaugeCanDrop | client/metrics.rs:42-48 | a run without a reset after which the gauge is below that maximum |
| Forwarding.ResetCanBeUndone | client/metrics.rs:42-83 | a run that ends with a reset and a stale set, after which the gauge is above that maximum |
| Forwarding.Forwarder.Process | client/quic_forwarder.rs:81-88 | one task per address for QUIC, one per transaction for RPC, an immediate success for the blackhole |
| Reloading.Client.BuildTasks | client/main.rs:278-303 | spawns one task per listed URL, overwriting earlier handles; panics exactly when a URL does not parse |
| Reloading.Client.AbortGone | client/main.rs:133-142 | aborts exactly the tracked tasks whose URL the new list lacks |
| Reloading.Client.ReloadUrls | client/main.rs:125-162 | one reload; panics exactly when a URL that has to be spawned does not parse |
| Reloading.ReloadEffect | client/main.rs:125-162 | URLs that stay keep their task, those that go are aborted, new ones get a new task |
| Reloading.TableFollowsLists | client/main.rs:116-168 | after any lists the table holds exactly the latest URLs, and each task ever spawned is exactly one of tracked, aborted, orphaned |
| Reloading.SpawnsOnceIff | client/main.rs:127-131 | a reload spawns no URL twice exactly when every URL at two positions of the new list was in the old one |
| Reloading.OrphansIffRepeated | client/main.rs:301 | tasks are orphaned if and only if some list has a URL at two positions that the list before it lacked |
| Reloading.RepeatedUrlOrphans | client/main.rs:301 | a first list with one URL twice orphans the first task, for every URL |
| Reloading.DistinctListsOrphanNothing | client/main.rs:116-168 | lists without repetitions orphan nothing |
| Retrying.RetryLoop | client/main.rs:181-206 | the i-th delay is i seconds up to 60 and 60 s from then on; the delays never decrease and add up to 500k(k+1) ms up to 60 failures and 1830000 + 60000(k-60) ms beyond |

## Left out

- TLS, certificates, gRPC, HTTP, JSON-RPC, gossip, pubsub and the Solana RPC: their results are inputs.
- Token verification, transaction decoding and the early returns of `sendPriorityTransaction`: short branching over foreign decoders.
- Merging of validator records, per-identity gauges, logging, signals, command line and file reading: they would only add easy members.
- Balancing.Balancer.RecalcTotalConnectedStake: leaves out the gauge of each identity's stake, and sums without 64-bit wrap-around; `Sampling.AccumulatorBound` bounds what the sampler then accumulates.
- Balancing.Balancer.UpdateRtt: computes without 64-bit wrap-around; `RunningMean.NextFitsWord` says when that makes no difference.
- Balancing.Balancer.Publish: one publish at a time; overlapping publishes are the interleaved `SendFailed` steps of `Sessions`, which `Refinement.PublishIsRun` ties to the sends.
- PingPong.Invariant: assumes a client that echoes every ping and sends no other pongs.
- LeaderStream.SendsChanges: counts every send as received, that is, the receiving end stays open.
- Forwarding.GaugeIsPeakIff: speaks of the gauge itself; the feeds in which a feeder sends its value before each reset are not modelled.
- Refinement.Watching.Check: a checker that runs undisturbed; the interleaved ones are sequences of `Refinement.Watching.CountNext`.
- Retrying.RetryLoop: takes the number of failures before the connection ends well as an input; the loop itself may never end.
- Fairness and time bounds: `Sessions.SignalsEndStaleSessions` and `Forwarding.SomeTaskCanStep` show that progress is possible, not that the scheduler makes it.
