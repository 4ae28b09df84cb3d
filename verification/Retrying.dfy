/** The reconnection delays of one client task (client/main.rs:32-34 and 181-206). */
module Retrying {
  import opened Orders

  const RECONNECT_DELAY: nat := 1_000
  const RECONNECT_MAX_DELAY: nat := 60_000

  /** The time spent waiting over the first `k` failures. */
  function Waited(k: nat): nat {
    if k <= 60 then 500 * (k * (k + 1)) else 1_830_000 + 60_000 * (k - 60)
  }

  lemma WaitedStep(k: nat)
    ensures Waited(k + 1) == Waited(k) + Min(RECONNECT_MAX_DELAY, RECONNECT_DELAY * (k + 1))
  {
  }

  /** The delays slept by a task whose connection fails `failures` times before it ends well. The
      retry count is never reset. */
  method RetryLoop(failures: nat) returns (delays: seq<nat>)
    ensures |delays| == failures
    ensures forall i :: 0 <= i < failures ==> delays[i] == if i < 60 then 1_000 * (i + 1) else 60_000
    ensures forall i, j :: 0 <= i < j < failures ==> delays[i] <= delays[j]
    ensures Total(delays) == Waited(failures)
  {
    delays := [];
    var retry := 0;
    while retry < failures
      invariant |delays| == retry <= failures
      invariant forall i :: 0 <= i < retry ==> delays[i] == Min(RECONNECT_MAX_DELAY, RECONNECT_DELAY * (i + 1))
      invariant Total(delays) == Waited(retry)
    {
      WaitedStep(retry);
      retry := retry + 1;
      var delay := Min(RECONNECT_MAX_DELAY, RECONNECT_DELAY * retry);
      assert (delays + [delay])[..|delays|] == delays;
      delays := delays + [delay];
    }
  }
}
