/** The ping exchange between one session and its client
    (server/grpc_server.rs:27-52, 119-152 and 212-224; client/grpc_client.rs:17-61 and 80-103).

    The server numbers its pings and remembers the last one; the client echoes each id. Pings travel
    down among the transactions, pongs travel up among the metrics, both in order. Ids travel in
    decimal. A pong is measured only if it names the last ping. */
module PingPong {
  import opened Orders
  import opened Runs

  // Decimal printing.

  function Digit(d: nat): char
    requires d < 10
  {
    "0123456789"[d]
  }

  function Decimal(n: nat): (s: string)
    ensures s != []
  {
    if n < 10 then [Digit(n)] else Decimal(n / 10) + [Digit(n % 10)]
  }

  lemma {:induction false} DecimalInjective(a: nat, b: nat)
    requires Decimal(a) == Decimal(b)
    ensures a == b
  {
    var s, t := Decimal(a), Decimal(b);
    assert s[|s| - 1] == Digit(a % 10) && t[|t| - 1] == Digit(b % 10);
    DigitInjective(a % 10, b % 10);
    if a >= 10 && b >= 10 {
      assert s[..|s| - 1] == Decimal(a / 10) && t[..|t| - 1] == Decimal(b / 10);
      DecimalInjective(a / 10, b / 10);
    }
  }

  lemma DigitInjective(a: nat, b: nat)
    requires a < 10 && b < 10 && Digit(a) == Digit(b)
    ensures a == b
  {
  }

  // The protocol.

  datatype Ping = Ping(id: nat, at: nat)

  datatype Down = DownPing(id: string) | Transaction(signature: string)

  datatype Up = Pong(id: string) | Metrics | Rtt(ip: string)

  /** One observation: the ping, when its pong arrived, and the elapsed time that was recorded. */
  datatype Sample = Sample(id: nat, receivedAt: nat, elapsed: int)

  /** `sentAt` remembers when each ping was sent, the first one first. */
  datatype State = State(
    now: nat, last: Ping, down: seq<Down>, up: seq<Up>, samples: seq<Sample>, sentAt: seq<nat>)

  datatype Event =
    | Tick(now: nat)
    | SendPing
    | SendTransaction(signature: string)
    | ClientReceives
    | ClientSends(other: Up)
    | ServerReceives

  /** Time does not run backwards; apart from echoing, the client sends anything but pongs. */
  predicate Enabled(st: State, e: Event) {
    match e
    case Tick(now) => st.now <= now
    case SendPing => true
    case SendTransaction(_) => true
    case ClientReceives => st.down != []
    case ClientSends(other) => !other.Pong?
    case ServerReceives => st.up != []
  }

  function Apply(st: State, e: Event): State
    requires Enabled(st, e)
  {
    match e
    case Tick(now) => st.(now := now)
    case SendPing =>
      var ping := Ping(st.last.id + 1, st.now);
      st.(last := ping, down := st.down + [DownPing(Decimal(ping.id))], sentAt := st.sentAt + [st.now])
    case SendTransaction(signature) => st.(down := st.down + [Transaction(signature)])
    case ClientReceives =>
      var msg := st.down[0];
      st.(down := st.down[1..], up := if msg.DownPing? then st.up + [Pong(msg.id)] else st.up)
    case ClientSends(other) => st.(up := st.up + [other])
    case ServerReceives =>
      var msg := st.up[0];
      st.(up := st.up[1..],
          samples := if Measured(st, msg)
                     then st.samples + [Sample(st.last.id, st.now, st.now - st.last.at)]
                     else st.samples)
  }

  predicate Measured(st: State, msg: Up) {
    msg.Pong? && Decimal(st.last.id) == msg.id
  }

  function Next(st: State, e: Event): Option<State> {
    if Enabled(st, e) then Some(Apply(st, e)) else None
  }

  function Start(now: nat): State {
    State(now, Ping(0, now), [], [], [], [])
  }

  ghost predicate Reachable(st: State) {
    exists now, run :: Exec(Next, Start(now), run) == Some(st)
  }

  // The ids in flight.

  function PingIds(down: seq<Down>): seq<string> {
    if down == [] then []
    else (if down[0].DownPing? then [down[0].id] else []) + PingIds(down[1..])
  }

  function PongIds(up: seq<Up>): seq<string> {
    if up == [] then []
    else (if up[0].Pong? then [up[0].id] else []) + PongIds(up[1..])
  }

  lemma {:induction false} PingIdsAppend(down: seq<Down>, m: Down)
    ensures PingIds(down + [m]) == PingIds(down) + if m.DownPing? then [m.id] else []
  {
    if down == [] {
      assert down + [m] == [m] && [m][1..] == [];
    } else {
      PingIdsAppend(down[1..], m);
      assert (down + [m])[1..] == down[1..] + [m];
    }
  }

  lemma {:induction false} PongIdsAppend(up: seq<Up>, m: Up)
    ensures PongIds(up + [m]) == PongIds(up) + if m.Pong? then [m.id] else []
  {
    if up == [] {
      assert up + [m] == [m] && [m][1..] == [];
    } else {
      PongIdsAppend(up[1..], m);
      assert (up + [m])[1..] == up[1..] + [m];
    }
  }

  /** Pongs in flight first, then the pings not yet answered: oldest to newest. */
  function InFlight(st: State): seq<string> {
    PongIds(st.up) + PingIds(st.down)
  }

  /** The decimal ids `first, first + 1, ..., last`. */
  function Range(first: nat, last: nat): seq<string>
    requires first <= last + 1
  {
    seq(last + 1 - first, i requires i >= 0 => Decimal(first + i))
  }

  /** What is in flight is a consecutive range of ids ending with the last ping. */
  ghost predicate Consecutive(st: State) {
    && |InFlight(st)| <= st.last.id
    && InFlight(st) == Range(st.last.id + 1 - |InFlight(st)|, st.last.id)
  }

  /** Measured ids increase and were answered before anything still in flight; each sample records
      the time from the sending of that very ping to the arrival of its pong. */
  ghost predicate SamplesOk(st: State) {
    && (forall i :: 0 <= i < |st.samples| ==>
          && 0 < st.samples[i].id <= st.last.id - |InFlight(st)|
          && st.samples[i].id <= |st.sentAt|
          && st.samples[i].elapsed == st.samples[i].receivedAt - st.sentAt[st.samples[i].id - 1])
    && (forall i, j :: 0 <= i < j < |st.samples| ==> st.samples[i].id < st.samples[j].id)
  }

  ghost predicate ClockOk(st: State) {
    && st.last.at <= st.now
    && |st.sentAt| == st.last.id
    && (st.last.id > 0 ==> st.sentAt[st.last.id - 1] == st.last.at)
  }

  ghost predicate Inv(st: State) {
    ClockOk(st) && Consecutive(st) && SamplesOk(st)
  }

  lemma KeepQuiet(st: State, e: Event)
    requires Inv(st) && Enabled(st, e)
    requires e.Tick? || e.SendTransaction? || e.ClientSends?
    ensures Inv(Apply(st, e)) && InFlight(Apply(st, e)) == InFlight(st)
  {
    match e {
      case Tick(_) =>
      case SendTransaction(signature) => PingIdsAppend(st.down, Transaction(signature));
      case ClientSends(other) => PongIdsAppend(st.up, other);
    }
  }

  lemma KeepSendPing(st: State)
    requires Inv(st)
    ensures Inv(Apply(st, SendPing))
  {
    var st', id := Apply(st, SendPing), st.last.id + 1;
    PingIdsAppend(st.down, DownPing(Decimal(id)));
    assert InFlight(st') == InFlight(st) + [Decimal(id)];
    RangeSnoc(st.last.id + 1 - |InFlight(st)|, st.last.id);
  }

  lemma RangeSnoc(first: nat, last: nat)
    requires first <= last + 1
    ensures Range(first, last + 1) == Range(first, last) + [Decimal(last + 1)]
  {
  }

  lemma RangeTail(first: nat, last: nat)
    requires first <= last
    ensures Range(first, last)[0] == Decimal(first)
    ensures Range(first, last)[1..] == Range(first + 1, last)
  {
  }

  lemma KeepClientReceives(st: State)
    requires Inv(st) && st.down != []
    ensures Inv(Apply(st, ClientReceives)) && InFlight(Apply(st, ClientReceives)) == InFlight(st)
  {
    var msg := st.down[0];
    if msg.DownPing? {
      PongIdsAppend(st.up, Pong(msg.id));
      assert PongIds(st.up) + ([msg.id] + PingIds(st.down[1..])) == PongIds(st.up) + [msg.id] + PingIds(st.down[1..]);
    }
  }

  /** An arriving pong is measured exactly when its ping is the only one outstanding. */
  lemma MeasuredIffOnlyOutstanding(st: State)
    requires Inv(st) && st.up != [] && st.up[0].Pong?
    ensures Measured(st, st.up[0]) <==> |InFlight(st)| == 1
    ensures |InFlight(st)| >= 1
    ensures InFlight(st)[0] == st.up[0].id == Decimal(st.last.id + 1 - |InFlight(st)|)
  {
    var n := |InFlight(st)|;
    RangeTail(st.last.id + 1 - n, st.last.id);
    if Decimal(st.last.id) == st.up[0].id {
      DecimalInjective(st.last.id, st.last.id + 1 - n);
    }
  }

  lemma KeepPong(st: State)
    requires Inv(st) && st.up != [] && st.up[0].Pong?
    ensures Consecutive(Apply(st, ServerReceives))
    ensures |InFlight(Apply(st, ServerReceives))| == |InFlight(st)| - 1
  {
    MeasuredIffOnlyOutstanding(st);
    assert InFlight(Apply(st, ServerReceives)) == InFlight(st)[1..];
    RangeTail(st.last.id + 1 - |InFlight(st)|, st.last.id);
  }

  /** A new sample comes after all the earlier ones. */
  lemma KeepSamples(st: State)
    requires Inv(st) && st.up != [] && st.up[0].Pong?
    ensures SamplesOk(Apply(st, ServerReceives))
  {
    var st' := Apply(st, ServerReceives);
    MeasuredIffOnlyOutstanding(st);
    KeepPong(st);
    forall i | 0 <= i < |st.samples| ensures st'.samples[i] == st.samples[i] {}
  }

  lemma KeepServerReceives(st: State)
    requires Inv(st) && st.up != []
    ensures Inv(Apply(st, ServerReceives))
  {
    if st.up[0].Pong? {
      KeepPong(st);
      KeepSamples(st);
    } else {
      assert InFlight(Apply(st, ServerReceives)) == InFlight(st);
    }
  }

  lemma Keep(st: State, e: Event)
    requires Inv(st) && Enabled(st, e)
    ensures Inv(Apply(st, e))
  {
    match e {
      case SendPing => KeepSendPing(st);
      case ClientReceives => KeepClientReceives(st);
      case ServerReceives => KeepServerReceives(st);
      case _ => KeepQuiet(st, e);
    }
  }

  lemma {:induction false} RunKeeps(now: nat, run: seq<Event>)
    requires Exec(Next, Start(now), run).Some?
    ensures Inv(Exec(Next, Start(now), run).value)
  {
    if run == [] {
      assert Range(1, 0) == [];
    } else {
      RunKeeps(now, Front(run));
      Keep(Exec(Next, Start(now), Front(run)).value, Last(run));
    }
  }

  /** In every reachable state: the ids in flight are consecutive and end with the last ping, no ping
      is measured twice, and every measurement times the ping it belongs to. */
  lemma Invariant(st: State)
    requires Reachable(st)
    ensures Inv(st)
  {
    var now, run :| Exec(Next, Start(now), run) == Some(st);
    RunKeeps(now, run);
  }

  /** A pong arriving in a reachable state adds a sample exactly when no other ping is outstanding,
      and the sample times its own ping. */
  lemma ArrivingPong(st: State)
    requires Reachable(st) && st.up != [] && st.up[0].Pong?
    ensures |st.sentAt| == st.last.id
    ensures |InFlight(st)| != 1 ==> Apply(st, ServerReceives).samples == st.samples
    ensures |InFlight(st)| == 1 ==>
              && st.last.id > 0 && st.up[0].id == Decimal(st.last.id)
              && Apply(st, ServerReceives).samples
                 == st.samples + [Sample(st.last.id, st.now, st.now - st.sentAt[st.last.id - 1])]
  {
    Invariant(st);
    MeasuredIffOnlyOutstanding(st);
  }
}
