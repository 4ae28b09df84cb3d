/** The record that follows one transaction from the balancer to the signature watcher
    (server/solana_service.rs:131-145), and the description of a leader (server/solana_service.rs:334-340). */
module Records {

  type Identity = string

  datatype Mode = Forward | Blackhole

  datatype SignatureRecord = SignatureRecord(
    createdAt: nat,
    signature: string,
    mode: Mode,
    consumers: seq<Identity>,
    tpuIps: set<string>,
    partner: string)

  datatype LeaderInfo = LeaderInfo(identity: Identity, tpu: string, city: string, isJito: bool)

  /** The part of an address before its first colon. */
  function IpOf(tpu: string): (ip: string)
    ensures ':' !in ip && ip <= tpu
    ensures |ip| < |tpu| ==> tpu[|ip|] == ':'
  {
    if tpu == [] || tpu[0] == ':' then [] else [tpu[0]] + IpOf(tpu[1..])
  }
}
