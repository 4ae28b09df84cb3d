/** What becomes of every watched record (server/solana_service.rs:186-191 and 216-285).

    A spawned checker asks for the statuses of its bundle and then increments one counter after the
    other. Any number of checkers run at once and their increments interleave: in a run, every single
    increment is a step of its own. */
module SignatureAccounting {
  import opened Orders
  import opened LabelledCounters
  import opened Records
  import opened Runs

  datatype Label = Label(partner: string, mode: Mode)

  function LabelOf(r: SignatureRecord): Label {
    Label(r.partner, r.mode)
  }

  /** The metrics per partner and mode, and the metrics per consumer or address. */
  datatype LabelMetric = ExecutionSuccess | ExecutionError | Finalized | Timeout
  datatype NameMetric = FinalizedByConsumer | TimeoutByConsumer | FinalizedByIp | TimeoutByIp

  /** One counter: a metric with its label values. */
  datatype Series = OfLabel(metric: LabelMetric, l: Label) | OfName(kind: NameMetric, name: string)

  type Counters = Counter<Series>

  // The checker.

  /** A known status, with the execution error it reports. */
  datatype Status = Status(err: bool)

  datatype Response = Statuses(statuses: seq<Option<Status>>) | RpcError

  /** How many records of the bundle the checker looks at: pairing the records with the statuses
      stops at the shorter of the two. */
  function Limit(bundle: seq<SignatureRecord>, response: Response): (n: nat)
    ensures n <= |bundle|
  {
    match response
    case Statuses(statuses) => Min(|bundle|, |statuses|)
    case RpcError => |bundle|
  }

  /** A record is looked at exactly when there is a status for it, or when there are no statuses at all. */
  lemma LooksAt(bundle: seq<SignatureRecord>, response: Response, i: nat)
    requires i < |bundle|
    ensures i < Limit(bundle, response) <==> response.RpcError? || i < |response.statuses|
  {
  }

  /** The order in which the addresses of each record are visited. */
  ghost predicate OrdersOk(bundle: seq<SignatureRecord>, ips: seq<seq<string>>) {
    |ips| == |bundle| && forall i :: 0 <= i < |ips| ==> IsOrder(ips[i], bundle[i].tpuIps)
  }

  function Each(kind: NameMetric, names: seq<string>): (s: seq<Series>)
    ensures |s| == |names| && forall i :: 0 <= i < |s| ==> s[i] == OfName(kind, names[i])
  {
    seq(|names|, i requires 0 <= i < |names| => OfName(kind, names[i]))
  }

  /** Both outcomes of a known status count as an execution success. */
  function Verdict(l: Label, known: bool): seq<Series> {
    if known then [OfLabel(ExecutionSuccess, l), OfLabel(Finalized, l)] else [OfLabel(Timeout, l)]
  }

  /** The increments for a record with a response, in order. */
  function Answered(r: SignatureRecord, known: bool, ips: seq<string>): seq<Series> {
    Verdict(LabelOf(r), known)
    + Each(if known then FinalizedByConsumer else TimeoutByConsumer, r.consumers)
    + Each(if known then FinalizedByIp else TimeoutByIp, ips)
  }

  /** The increments for record `i`; after an RPC error nothing is counted by name. */
  function Increments(bundle: seq<SignatureRecord>, response: Response, ips: seq<seq<string>>, i: nat): seq<Series>
    requires i < Limit(bundle, response) && |ips| == |bundle|
  {
    match response
    case RpcError => [OfLabel(Timeout, LabelOf(bundle[i]))]
    case Statuses(statuses) => Answered(bundle[i], statuses[i].Some?, ips[i])
  }

  /** The increments for each record the checker looks at. */
  function Pieces(bundle: seq<SignatureRecord>, response: Response, ips: seq<seq<string>>): (pieces: seq<seq<Series>>)
    requires |ips| == |bundle|
    ensures |pieces| == Limit(bundle, response)
  {
    seq(Limit(bundle, response), i requires 0 <= i < Limit(bundle, response) => Increments(bundle, response, ips, i))
  }

  /** All the increments of a checker, in order. */
  function Script(bundle: seq<SignatureRecord>, response: Response, ips: seq<seq<string>>): seq<Series>
    requires |ips| == |bundle|
  {
    Flatten(Pieces(bundle, response, ips))
  }

  class Metrics {
    var counters: Counters

    constructor ()
      ensures counters == map[]
    {
      counters := map[];
    }

    method Count(s: Series)
      modifies this
      ensures counters == Inc(old(counters), s)
    {
      counters := counters[s := (if s in counters then counters[s] else 0) + 1];
    }

    /** A checker that runs undisturbed. */
    method SignatureChecker(bundle: seq<SignatureRecord>, response: Response, ips: seq<seq<string>>)
      requires OrdersOk(bundle, ips)
      modifies this
      ensures counters == IncAll(old(counters), Script(bundle, response, ips))
      ensures forall s :: Read(counters, s)
                       == Read(old(counters), s) + Contributions(s, bundle, response, Limit(bundle, response))
    {
      match response {
        case Statuses(_) => CountAnswers(bundle, response, ips);
        case RpcError => CountFailures(bundle, response, ips);
      }
      forall s
        ensures Read(counters, s)
             == Read(old(counters), s) + Contributions(s, bundle, response, Limit(bundle, response))
      {
        ScriptMoves(old(counters), bundle, response, ips, s);
      }
    }

    method CountAnswers(bundle: seq<SignatureRecord>, response: Response, ips: seq<seq<string>>)
      requires OrdersOk(bundle, ips) && response.Statuses?
      modifies this
      ensures counters == IncAll(old(counters), Script(bundle, response, ips))
    {
      ghost var pieces := Pieces(bundle, response, ips);
      for i := 0 to Min(|bundle|, |response.statuses|)
        invariant counters == IncAll(old(counters), Joined(pieces, i))
      {
        CountAnswer(bundle[i], response.statuses[i], ips[i]);
        IncAllAppend(old(counters), Joined(pieces, i), pieces[i]);
      }
    }

    method CountFailures(bundle: seq<SignatureRecord>, response: Response, ips: seq<seq<string>>)
      requires OrdersOk(bundle, ips) && response.RpcError?
      modifies this
      ensures counters == IncAll(old(counters), Script(bundle, response, ips))
    {
      ghost var pieces := Pieces(bundle, response, ips);
      for i := 0 to |bundle|
        invariant counters == IncAll(old(counters), Joined(pieces, i))
      {
        IncAllAppend(old(counters), Joined(pieces, i), pieces[i]);
        IncAllOne(counters, OfLabel(Timeout, LabelOf(bundle[i])));
        Count(OfLabel(Timeout, LabelOf(bundle[i])));
      }
    }

    method CountAnswer(r: SignatureRecord, answer: Option<Status>, ips: seq<string>)
      modifies this
      ensures counters == IncAll(old(counters), Answered(r, answer.Some?, ips))
    {
      match answer {
        case Some(status) => CountFinalized(r, status, ips);
        case None => CountTimeout(r, ips);
      }
    }

    method CountFinalized(r: SignatureRecord, status: Status, ips: seq<string>)
      modifies this
      ensures counters == IncAll(old(counters), Answered(r, true, ips))
    {
      ghost var c, verdict := counters, Verdict(LabelOf(r), true);
      if status.err {
        Count(OfLabel(ExecutionSuccess, LabelOf(r)));
      } else {
        Count(OfLabel(ExecutionSuccess, LabelOf(r)));
      }
      assert counters == IncEach(c, verdict, 1);
      Count(OfLabel(Finalized, LabelOf(r)));
      CountEach(FinalizedByConsumer, r.consumers);
      IncAllAppend(c, verdict, Each(FinalizedByConsumer, r.consumers));
      CountEach(FinalizedByIp, ips);
      IncAllAppend(c, verdict + Each(FinalizedByConsumer, r.consumers), Each(FinalizedByIp, ips));
    }

    method CountTimeout(r: SignatureRecord, ips: seq<string>)
      modifies this
      ensures counters == IncAll(old(counters), Answered(r, false, ips))
    {
      ghost var c, verdict := counters, Verdict(LabelOf(r), false);
      Count(OfLabel(Timeout, LabelOf(r)));
      IncAllOne(c, OfLabel(Timeout, LabelOf(r)));
      CountEach(TimeoutByConsumer, r.consumers);
      IncAllAppend(c, verdict, Each(TimeoutByConsumer, r.consumers));
      CountEach(TimeoutByIp, ips);
      IncAllAppend(c, verdict + Each(TimeoutByConsumer, r.consumers), Each(TimeoutByIp, ips));
    }

    method CountEach(kind: NameMetric, names: seq<string>)
      modifies this
      ensures counters == IncAll(old(counters), Each(kind, names))
    {
      for k := 0 to |names|
        invariant counters == IncEach(old(counters), Each(kind, names), k)
      {
        Count(OfName(kind, names[k]));
      }
    }
  }

  // What a script increments, judging by the response alone.

  /** How often record `i` moves a counter. */
  function Contribution(s: Series, bundle: seq<SignatureRecord>, response: Response, i: nat): nat
    requires i < Limit(bundle, response)
  {
    var r := bundle[i];
    var known := response.Statuses? && response.statuses[i].Some?;
    match s
    case OfLabel(ExecutionSuccess, l) => if known then One(r, l) else 0
    case OfLabel(ExecutionError, l) => 0
    case OfLabel(Finalized, l) => if known then One(r, l) else 0
    case OfLabel(Timeout, l) => if known then 0 else One(r, l)
    case OfName(kind, name) =>
      if response.RpcError? || known != (kind.FinalizedByConsumer? || kind.FinalizedByIp?) then 0
      else if kind.FinalizedByConsumer? || kind.TimeoutByConsumer? then Occurs(r.consumers, |r.consumers|, name)
      else if name in r.tpuIps then 1 else 0
  }

  function One(r: SignatureRecord, l: Label): (one: nat)
    ensures one == if r.partner == l.partner && r.mode == l.mode then 1 else 0
  {
    if LabelOf(r) == l then 1 else 0
  }

  function Contributions(s: Series, bundle: seq<SignatureRecord>, response: Response, n: nat): nat
    requires n <= Limit(bundle, response)
  {
    if n == 0 then 0 else Contributions(s, bundle, response, n - 1) + Contribution(s, bundle, response, n - 1)
  }

  lemma {:induction false} EachOccurs(kind: NameMetric, names: seq<string>, n: nat, s: Series)
    requires n <= |names|
    ensures Occurs(Each(kind, names), n, s) == if s.OfName? && s.kind == kind then Occurs(names, n, s.name) else 0
  {
    if n > 0 { EachOccurs(kind, names, n - 1, s); }
  }

  lemma VerdictOccurs(l: Label, known: bool, s: Series)
    ensures var verdict := Verdict(l, known);
            Occurs(verdict, |verdict|, s)
            == if s.OfLabel? && s.l == l && s.metric in (if known then {ExecutionSuccess, Finalized} else {Timeout})
               then 1 else 0
  {
    var verdict := Verdict(l, known);
    assert Occurs(verdict, 0, s) == 0;
    assert Occurs(verdict, 1, s) == if verdict[0] == s then 1 else 0;
  }

  /** Every address is visited exactly once. */
  lemma OrderOccurs(order: seq<string>, keys: set<string>, name: string)
    requires IsOrder(order, keys)
    ensures Occurs(order, |order|, name) == if name in keys then 1 else 0
  {
    OccursPositive(order, name);
    OccursAtMostOnce(order, |order|, name);
  }

  lemma {:induction false} OccursAtMostOnce(order: seq<string>, n: nat, name: string)
    requires NoDuplicates(order) && n <= |order|
    ensures Occurs(order, n, name) <= 1
  {
    if n > 0 {
      OccursAtMostOnce(order, n - 1, name);
      OccursBelow(order, n - 1, name);
    }
  }

  lemma AnsweredOccurs(r: SignatureRecord, known: bool, ips: seq<string>, s: Series)
    ensures var steps, verdict := Answered(r, known, ips), Verdict(LabelOf(r), known);
            var byConsumer := Each(if known then FinalizedByConsumer else TimeoutByConsumer, r.consumers);
            var byIp := Each(if known then FinalizedByIp else TimeoutByIp, ips);
            Occurs(steps, |steps|, s)
            == Occurs(verdict, |verdict|, s) + Occurs(byConsumer, |byConsumer|, s) + Occurs(byIp, |byIp|, s)
  {
    var verdict := Verdict(LabelOf(r), known);
    var byConsumer := Each(if known then FinalizedByConsumer else TimeoutByConsumer, r.consumers);
    var byIp := Each(if known then FinalizedByIp else TimeoutByIp, ips);
    OccursAppend(verdict + byConsumer, byIp, s);
    OccursAppend(verdict, byConsumer, s);
  }

  /** A record moves every counter exactly as often as it should. */
  lemma IncrementsOccur(bundle: seq<SignatureRecord>, response: Response, ips: seq<seq<string>>, i: nat, s: Series)
    requires i < Limit(bundle, response) && OrdersOk(bundle, ips)
    ensures var steps := Increments(bundle, response, ips, i);
            Occurs(steps, |steps|, s) == Contribution(s, bundle, response, i)
  {
    var r := bundle[i];
    match response {
      case RpcError => VerdictOccurs(LabelOf(r), false, s);
      case Statuses(statuses) =>
        var known := statuses[i].Some?;
        AnsweredOccurs(r, known, ips[i], s);
        VerdictOccurs(LabelOf(r), known, s);
        EachOccurs(if known then FinalizedByConsumer else TimeoutByConsumer, r.consumers, |r.consumers|, s);
        EachOccurs(if known then FinalizedByIp else TimeoutByIp, ips[i], |ips[i]|, s);
        if s.OfName? { OrderOccurs(ips[i], r.tpuIps, s.name); }
    }
  }

  lemma {:induction false} JoinedOccurs(bundle: seq<SignatureRecord>, response: Response, pieces: seq<seq<Series>>,
                                        n: nat, s: Series)
    requires n <= |pieces| == Limit(bundle, response)
    requires forall i :: 0 <= i < |pieces| ==> Occurs(pieces[i], |pieces[i]|, s) == Contribution(s, bundle, response, i)
    ensures var joined := Joined(pieces, n);
            Occurs(joined, |joined|, s) == Contributions(s, bundle, response, n)
  {
    if n > 0 {
      JoinedOccurs(bundle, response, pieces, n - 1, s);
      OccursAppend(Joined(pieces, n - 1), pieces[n - 1], s);
    }
  }

  /** A script increments every counter exactly as often as the response calls for. */
  lemma ScriptOccurs(bundle: seq<SignatureRecord>, response: Response, ips: seq<seq<string>>, s: Series)
    requires OrdersOk(bundle, ips)
    ensures var script := Script(bundle, response, ips);
            Occurs(script, |script|, s) == Contributions(s, bundle, response, Limit(bundle, response))
  {
    var pieces := Pieces(bundle, response, ips);
    forall i: nat | i < |pieces| {
      IncrementsOccur(bundle, response, ips, i, s);
    }
    JoinedOccurs(bundle, response, pieces, |pieces|, s);
  }

  lemma ScriptMoves(c: Counters, bundle: seq<SignatureRecord>, response: Response, ips: seq<seq<string>>, s: Series)
    requires OrdersOk(bundle, ips)
    ensures Read(IncAll(c, Script(bundle, response, ips)), s)
         == Read(c, s) + Contributions(s, bundle, response, Limit(bundle, response))
  {
    var script := Script(bundle, response, ips);
    IncEachReads(c, script, |script|, s);
    ScriptOccurs(bundle, response, ips, s);
  }

  /** A success is always followed by the finalized counter of the same label, which nothing else moves. */
  ghost predicate Paired(script: seq<Series>) {
    && (forall k :: 0 <= k < |script| && IsSuccess(script[k]) ==>
          k + 1 < |script| && script[k + 1] == OfLabel(Finalized, script[k].l))
    && (forall k :: 0 <= k < |script| && IsFinalized(script[k]) ==>
          0 < k && script[k - 1] == OfLabel(ExecutionSuccess, script[k].l))
  }

  predicate IsSuccess(s: Series) {
    s.OfLabel? && s.metric == ExecutionSuccess
  }

  predicate IsFinalized(s: Series) {
    s.OfLabel? && s.metric == Finalized
  }

  lemma PairedAppend(a: seq<Series>, b: seq<Series>)
    requires Paired(a) && Paired(b)
    ensures Paired(a + b)
  {
  }

  lemma AnsweredPaired(r: SignatureRecord, known: bool, ips: seq<string>)
    ensures Paired(Answered(r, known, ips))
  {
  }

  lemma {:induction false} JoinedPaired(pieces: seq<seq<Series>>, n: nat)
    requires n <= |pieces| && forall i :: 0 <= i < |pieces| ==> Paired(pieces[i])
    ensures Paired(Joined(pieces, n))
  {
    if n > 0 {
      JoinedPaired(pieces, n - 1);
      PairedAppend(Joined(pieces, n - 1), pieces[n - 1]);
    }
  }

  lemma ScriptPaired(bundle: seq<SignatureRecord>, response: Response, ips: seq<seq<string>>)
    requires |ips| == |bundle|
    ensures Paired(Script(bundle, response, ips))
  {
    var pieces := Pieces(bundle, response, ips);
    forall i: nat | i < |pieces| ensures Paired(pieces[i]) {
      if response.Statuses? { AnsweredPaired(bundle[i], response.statuses[i].Some?, ips[i]); }
    }
    JoinedPaired(pieces, |pieces|);
  }

  /** The last of the first `n` increments was a success of this label, so its other half is due. */
  predicate Midway(script: seq<Series>, n: nat, l: Label)
    requires n <= |script|
  {
    n > 0 && script[n - 1] == OfLabel(ExecutionSuccess, l)
  }

  lemma {:induction false} PairedOccurs(script: seq<Series>, n: nat, l: Label)
    requires Paired(script) && n <= |script|
    ensures Occurs(script, n, OfLabel(ExecutionSuccess, l))
         == Occurs(script, n, OfLabel(Finalized, l)) + if Midway(script, n, l) then 1 else 0
  {
    if n > 0 {
      PairedOccurs(script, n - 1, l);
      if n > 1 { assert IsSuccess(script[n - 2]) ==> script[n - 1] == OfLabel(Finalized, script[n - 2].l); }
      assert IsFinalized(script[n - 1]) ==> n > 1 && script[n - 2] == OfLabel(ExecutionSuccess, script[n - 1].l);
    }
  }

  // The watcher and its checkers together.

  datatype Checker =
    | Asking(bundle: seq<SignatureRecord>)
    | Counting(bundle: seq<SignatureRecord>, response: Response, ips: seq<seq<string>>, next: nat)

  /** All the increments a checker has to carry out. */
  function ScriptOf(c: Checker): seq<Series>
    requires c.Counting? && |c.ips| == |c.bundle|
  {
    Script(c.bundle, c.response, c.ips)
  }

  datatype State = State(
    received: seq<SignatureRecord>, queue: seq<SignatureRecord>, checkers: seq<Checker>, counters: Counters)

  datatype Event =
    | Receive(record: SignatureRecord)
    | Spawn(size: nat)
    | Respond(checker: nat, response: Response, ips: seq<seq<string>>)
    | CountNext(checker: nat)

  ghost predicate Enabled(st: State, e: Event) {
    match e
    case Receive(_) => true
    case Spawn(size) => 0 < size <= |st.queue|
    case Respond(i, _, ips) => i < |st.checkers| && st.checkers[i].Asking? && OrdersOk(st.checkers[i].bundle, ips)
    case CountNext(i) =>
      && i < |st.checkers| && st.checkers[i].Counting?
      && |st.checkers[i].ips| == |st.checkers[i].bundle| && st.checkers[i].next < |ScriptOf(st.checkers[i])|
  }

  ghost function Apply(st: State, e: Event): State
    requires Enabled(st, e)
  {
    match e
    case Receive(record) => st.(received := st.received + [record], queue := st.queue + [record])
    case Spawn(size) => st.(queue := st.queue[size..], checkers := st.checkers + [Asking(st.queue[..size])])
    case Respond(i, response, ips) =>
      st.(checkers := st.checkers[i := Counting(st.checkers[i].bundle, response, ips, 0)])
    case CountNext(i) =>
      var c := st.checkers[i];
      st.(checkers := st.checkers[i := c.(next := c.next + 1)],
          counters := Inc(st.counters, ScriptOf(c)[c.next]))
  }

  ghost function Next(st: State, e: Event): Option<State> {
    if Enabled(st, e) then Some(Apply(st, e)) else None
  }

  const START := State([], [], [], map[])

  ghost predicate Reachable(st: State) {
    exists run :: Exec(Next, START, run) == Some(st)
  }

  /** How many of the first `n` records have label `l`. */
  function Labelled(records: seq<SignatureRecord>, n: nat, l: Label): nat
    requires n <= |records|
  {
    if n == 0 then 0 else Labelled(records, n - 1, l) + One(records[n - 1], l)
  }

  lemma {:induction false} LabelledPrefix(a: seq<SignatureRecord>, b: seq<SignatureRecord>, n: nat, l: Label)
    requires n <= |a|
    ensures Labelled(a + b, n, l) == Labelled(a, n, l)
  {
    if n > 0 { LabelledPrefix(a, b, n - 1, l); }
  }

  lemma {:induction false} LabelledSuffix(a: seq<SignatureRecord>, b: seq<SignatureRecord>, n: nat, l: Label)
    requires n <= |b|
    ensures Labelled(a + b, |a| + n, l) == Labelled(a, |a|, l) + Labelled(b, n, l)
  {
    if n == 0 {
      LabelledPrefix(a, b, |a|, l);
    } else {
      LabelledSuffix(a, b, n - 1, l);
    }
  }

  /** One more record: it counts for its own partner and mode, and for no other label. */
  lemma LabelledSnoc(records: seq<SignatureRecord>, r: SignatureRecord, l: Label)
    ensures Labelled(records + [r], |records| + 1, l)
         == Labelled(records, |records|, l) + if r.partner == l.partner && r.mode == l.mode then 1 else 0
  {
    LabelledPrefix(records, [r], |records|, l);
  }

  lemma LabelledCut(records: seq<SignatureRecord>, n: nat, l: Label)
    requires n <= |records|
    ensures Labelled(records, |records|, l) == Labelled(records[..n], n, l) + Labelled(records[n..], |records| - n, l)
  {
    LabelledSuffix(records[..n], records[n..], |records| - n, l);
    assert records[..n] + records[n..] == records;
  }

  lemma {:induction false} LabelledMonotone(records: seq<SignatureRecord>, n: nat, k: nat, l: Label)
    requires n <= k <= |records|
    ensures Labelled(records, n, l) <= Labelled(records, k, l)
    decreases k
  {
    if n < k { LabelledMonotone(records, n, k - 1, l); }
  }

  /** What is summed up over all the checkers: the records with a label in their bundles; those that
      are yet to be counted; those that will never be, because a response with too few statuses forgets
      the rest; the increments of a counter that were carried out, are still to come, and are called for
      by the responses; and the checkers halfway between the two counters of a known status. */
  datatype Measure =
    | Bundled(l: Label)
    | InFlight(l: Label)
    | Lost(l: Label)
    | Done(s: Series)
    | Pending(s: Series)
    | Due(s: Series)
    | Halfway(l: Label)

  ghost predicate WellFormed(c: Checker) {
    c.Counting? ==> OrdersOk(c.bundle, c.ips) && c.next <= |ScriptOf(c)|
  }

  /** The increments of a counter that are still to come. */
  ghost function ToCome(c: Checker, s: Series): nat
    requires c.Counting? && WellFormed(c)
  {
    OccursMonotone(ScriptOf(c), c.next, |ScriptOf(c)|, s);
    Occurs(ScriptOf(c), |ScriptOf(c)|, s) - Occurs(ScriptOf(c), c.next, s)
  }

  /** The records of label `l` beyond the statuses of the response. */
  ghost function Forgotten(c: Checker, l: Label): nat
    requires c.Counting?
  {
    LabelledMonotone(c.bundle, Limit(c.bundle, c.response), |c.bundle|, l);
    Labelled(c.bundle, |c.bundle|, l) - Labelled(c.bundle, Limit(c.bundle, c.response), l)
  }

  ghost function Of(m: Measure, c: Checker): nat
    requires WellFormed(c)
  {
    match m
    case Bundled(l) => Labelled(c.bundle, |c.bundle|, l)
    case InFlight(l) =>
      if c.Asking? then Labelled(c.bundle, |c.bundle|, l)
      else ToCome(c, OfLabel(Finalized, l)) + ToCome(c, OfLabel(Timeout, l))
    case Lost(l) => if c.Asking? then 0 else Forgotten(c, l)
    case Done(s) => if c.Asking? then 0 else Occurs(ScriptOf(c), c.next, s)
    case Pending(s) => if c.Asking? then 0 else ToCome(c, s)
    case Due(s) => if c.Asking? then 0 else Contributions(s, c.bundle, c.response, Limit(c.bundle, c.response))
    case Halfway(l) => if c.Counting? && Midway(ScriptOf(c), c.next, l) then 1 else 0
  }

  ghost predicate AllWellFormed(checkers: seq<Checker>) {
    forall i :: 0 <= i < |checkers| ==> WellFormed(checkers[i])
  }

  /** The sum over the first `n` checkers. */
  ghost function SumOf(m: Measure, checkers: seq<Checker>, n: nat): nat
    requires n <= |checkers| && AllWellFormed(checkers)
  {
    if n == 0 then 0 else SumOf(m, checkers, n - 1) + Of(m, checkers[n - 1])
  }

  ghost function Sum(m: Measure, checkers: seq<Checker>): nat
    requires AllWellFormed(checkers)
  {
    SumOf(m, checkers, |checkers|)
  }

  lemma {:induction false} SumOfUpdate(m: Measure, checkers: seq<Checker>, i: nat, c: Checker, n: nat)
    requires AllWellFormed(checkers) && WellFormed(c) && i < |checkers| && n <= |checkers|
    ensures SumOf(m, checkers[i := c], n) + (if i < n then Of(m, checkers[i]) else 0)
         == SumOf(m, checkers, n) + (if i < n then Of(m, c) else 0)
  {
    if n > 0 { SumOfUpdate(m, checkers, i, c, n - 1); }
  }

  lemma SumUpdate(m: Measure, checkers: seq<Checker>, i: nat, c: Checker)
    requires AllWellFormed(checkers) && WellFormed(c) && i < |checkers|
    ensures Sum(m, checkers[i := c]) + Of(m, checkers[i]) == Sum(m, checkers) + Of(m, c)
  {
    SumOfUpdate(m, checkers, i, c, |checkers|);
  }

  lemma {:induction false} SumOfPrefix(m: Measure, checkers: seq<Checker>, c: Checker, n: nat)
    requires AllWellFormed(checkers) && WellFormed(c) && n <= |checkers|
    ensures SumOf(m, checkers + [c], n) == SumOf(m, checkers, n)
  {
    if n > 0 { SumOfPrefix(m, checkers, c, n - 1); }
  }

  lemma SumSnoc(m: Measure, checkers: seq<Checker>, c: Checker)
    requires AllWellFormed(checkers) && WellFormed(c)
    ensures Sum(m, checkers + [c]) == Sum(m, checkers) + Of(m, c)
  {
    SumOfPrefix(m, checkers, c, |checkers|);
  }

  // The invariant.

  /** The records received are queued or in a bundle, and the counter shows what was carried out. */
  ghost predicate Inv(st: State, l: Label, s: Series) {
    && AllWellFormed(st.checkers)
    && Labelled(st.received, |st.received|, l)
       == Labelled(st.queue, |st.queue|, l) + Sum(Bundled(l), st.checkers)
    && Read(st.counters, s) == Sum(Done(s), st.checkers)
  }

  lemma KeepReceive(st: State, r: SignatureRecord, l: Label, s: Series)
    requires Inv(st, l, s)
    ensures Inv(Apply(st, Receive(r)), l, s)
  {
    LabelledSnoc(st.received, r, l);
    LabelledSnoc(st.queue, r, l);
  }

  lemma KeepSpawn(st: State, size: nat, l: Label, s: Series)
    requires Inv(st, l, s) && 0 < size <= |st.queue|
    ensures Inv(Apply(st, Spawn(size)), l, s)
  {
    LabelledCut(st.queue, size, l);
    SumSnoc(Bundled(l), st.checkers, Asking(st.queue[..size]));
    SumSnoc(Done(s), st.checkers, Asking(st.queue[..size]));
  }

  /** Any step of one checker. */
  lemma KeepChecker(st: State, i: nat, c: Checker, counters: Counters, l: Label, s: Series)
    requires Inv(st, l, s) && i < |st.checkers| && WellFormed(c) && c.bundle == st.checkers[i].bundle
    requires Read(counters, s) + Of(Done(s), st.checkers[i]) == Read(st.counters, s) + Of(Done(s), c)
    ensures Inv(st.(checkers := st.checkers[i := c], counters := counters), l, s)
  {
    SumUpdate(Bundled(l), st.checkers, i, c);
    SumUpdate(Done(s), st.checkers, i, c);
  }

  lemma KeepCount(st: State, i: nat, l: Label, s: Series)
    requires Inv(st, l, s) && Enabled(st, CountNext(i))
    ensures Inv(Apply(st, CountNext(i)), l, s)
  {
    var c := st.checkers[i];
    IncReads(st.counters, ScriptOf(c)[c.next], s);
    KeepChecker(st, i, c.(next := c.next + 1), Inc(st.counters, ScriptOf(c)[c.next]), l, s);
  }

  lemma Keep(st: State, e: Event, l: Label, s: Series)
    requires Inv(st, l, s) && Enabled(st, e)
    ensures Inv(Apply(st, e), l, s)
  {
    match e {
      case Receive(record) => KeepReceive(st, record, l, s);
      case Spawn(size) => KeepSpawn(st, size, l, s);
      case Respond(i, response, ips) =>
        KeepChecker(st, i, Counting(st.checkers[i].bundle, response, ips, 0), st.counters, l, s);
      case CountNext(i) => KeepCount(st, i, l, s);
    }
  }

  lemma {:induction false} RunKeeps(run: seq<Event>, l: Label, s: Series)
    requires Exec(Next, START, run).Some?
    ensures Inv(Exec(Next, START, run).value, l, s)
  {
    if run != [] {
      RunKeeps(Front(run), l, s);
      Keep(Exec(Next, START, Front(run)).value, Last(run), l, s);
    }
  }

  lemma Invariant(st: State, l: Label, s: Series)
    requires Reachable(st)
    ensures Inv(st, l, s)
  {
    var run :| Exec(Next, START, run) == Some(st);
    RunKeeps(run, l, s);
  }

  // What follows in every reachable state.

  /** Each record looked at is counted as finalized or as timed out, not both. */
  lemma {:induction false} OneVerdictEach(bundle: seq<SignatureRecord>, response: Response, n: nat, l: Label)
    requires n <= Limit(bundle, response)
    ensures Contributions(OfLabel(Finalized, l), bundle, response, n)
          + Contributions(OfLabel(Timeout, l), bundle, response, n) == Labelled(bundle, n, l)
  {
    if n > 0 { OneVerdictEach(bundle, response, n - 1, l); }
  }

  lemma CheckerConserves(c: Checker, l: Label)
    requires WellFormed(c)
    ensures Of(Bundled(l), c) == Of(InFlight(l), c) + Of(Lost(l), c)
                               + Of(Done(OfLabel(Finalized, l)), c) + Of(Done(OfLabel(Timeout, l)), c)
  {
    if c.Counting? {
      ScriptOccurs(c.bundle, c.response, c.ips, OfLabel(Finalized, l));
      ScriptOccurs(c.bundle, c.response, c.ips, OfLabel(Timeout, l));
      OneVerdictEach(c.bundle, c.response, Limit(c.bundle, c.response), l);
    }
  }

  lemma {:induction false} CheckersConserve(checkers: seq<Checker>, n: nat, l: Label)
    requires n <= |checkers| && AllWellFormed(checkers)
    ensures SumOf(Bundled(l), checkers, n)
         == SumOf(InFlight(l), checkers, n) + SumOf(Lost(l), checkers, n)
          + SumOf(Done(OfLabel(Finalized, l)), checkers, n) + SumOf(Done(OfLabel(Timeout, l)), checkers, n)
  {
    if n > 0 {
      CheckersConserve(checkers, n - 1, l);
      CheckerConserves(checkers[n - 1], l);
    }
  }

  /** The records of label `l` that are accounted for: queued, in flight, or counted one way or the other. */
  ghost function Accounted(st: State, l: Label): nat
    requires AllWellFormed(st.checkers)
  {
    Labelled(st.queue, |st.queue|, l) + Sum(InFlight(l), st.checkers)
    + Read(st.counters, OfLabel(Finalized, l)) + Read(st.counters, OfLabel(Timeout, l))
  }

  /** For every label in every reachable state, between any two increments: each record received is
      queued, in flight, counted as finalized, counted as timed out, or forgotten by a response that
      was too short. */
  lemma RecordsConserved(st: State, l: Label)
    requires Reachable(st)
    ensures AllWellFormed(st.checkers)
    ensures Labelled(st.received, |st.received|, l) == Accounted(st, l) + Sum(Lost(l), st.checkers)
  {
    Invariant(st, l, OfLabel(Finalized, l));
    Invariant(st, l, OfLabel(Timeout, l));
    CheckersConserve(st.checkers, |st.checkers|, l);
  }

  lemma {:induction false} CheckersDue(checkers: seq<Checker>, n: nat, s: Series)
    requires n <= |checkers| && AllWellFormed(checkers)
    ensures SumOf(Due(s), checkers, n) == SumOf(Done(s), checkers, n) + SumOf(Pending(s), checkers, n)
  {
    if n > 0 {
      var c := checkers[n - 1];
      CheckersDue(checkers, n - 1, s);
      if c.Counting? { ScriptOccurs(c.bundle, c.response, c.ips, s); }
    }
  }

  /** Every counter shows exactly the contributions of the responses so far, except for the increments
      that are still to come: one finalized or timed out per record, one per mention of a consumer, one
      per address, and nothing by name after an RPC error. */
  lemma CountersExact(st: State, s: Series)
    requires Reachable(st)
    ensures AllWellFormed(st.checkers)
    ensures Read(st.counters, s) + Sum(Pending(s), st.checkers) == Sum(Due(s), st.checkers)
  {
    Invariant(st, Label("", Forward), s);
    CheckersDue(st.checkers, |st.checkers|, s);
  }

  lemma {:induction false} CheckersHalfway(checkers: seq<Checker>, n: nat, l: Label)
    requires n <= |checkers| && AllWellFormed(checkers)
    ensures SumOf(Done(OfLabel(ExecutionSuccess, l)), checkers, n)
         == SumOf(Done(OfLabel(Finalized, l)), checkers, n) + SumOf(Halfway(l), checkers, n)
  {
    if n > 0 {
      var c := checkers[n - 1];
      CheckersHalfway(checkers, n - 1, l);
      if c.Counting? {
        ScriptPaired(c.bundle, c.response, c.ips);
        PairedOccurs(ScriptOf(c), c.next, l);
      }
    }
  }

  lemma {:induction false} NoErrors(checkers: seq<Checker>, n: nat, l: Label)
    requires n <= |checkers| && AllWellFormed(checkers)
    ensures SumOf(Due(OfLabel(ExecutionError, l)), checkers, n) == 0
  {
    if n > 0 {
      var c := checkers[n - 1];
      NoErrors(checkers, n - 1, l);
      if c.Counting? { NoErrorIn(c.bundle, c.response, Limit(c.bundle, c.response), l); }
    }
  }

  lemma {:induction false} NoErrorIn(bundle: seq<SignatureRecord>, response: Response, n: nat, l: Label)
    requires n <= Limit(bundle, response)
    ensures Contributions(OfLabel(ExecutionError, l), bundle, response, n) == 0
  {
    if n > 0 { NoErrorIn(bundle, response, n - 1, l); }
  }

  /** Successes are ahead of the finalized by exactly the checkers that are halfway between the two
      increments of a record, whatever errors the statuses report; errors are never counted. */
  lemma SuccessFollowsFinalized(st: State, l: Label)
    requires Reachable(st)
    ensures AllWellFormed(st.checkers)
    ensures Read(st.counters, OfLabel(ExecutionSuccess, l))
         == Read(st.counters, OfLabel(Finalized, l)) + Sum(Halfway(l), st.checkers)
    ensures Read(st.counters, OfLabel(ExecutionError, l)) == 0
  {
    Invariant(st, l, OfLabel(ExecutionSuccess, l));
    Invariant(st, l, OfLabel(Finalized, l));
    CheckersHalfway(st.checkers, |st.checkers|, l);
    CountersExact(st, OfLabel(ExecutionError, l));
    NoErrors(st.checkers, |st.checkers|, l);
  }

  /** A response that has a status for every signature it was asked about. */
  predicate Complete(c: Checker) {
    c.Counting? && c.response.Statuses? ==> |c.response.statuses| >= |c.bundle|
  }

  lemma {:induction false} NothingLost(checkers: seq<Checker>, n: nat, l: Label)
    requires n <= |checkers| && AllWellFormed(checkers) && forall i :: 0 <= i < n ==> Complete(checkers[i])
    ensures SumOf(Lost(l), checkers, n) == 0
  {
    if n > 0 { NothingLost(checkers, n - 1, l); }
  }

  lemma LastIsForgotten(c: Checker)
    requires !Complete(c)
    ensures Forgotten(c, LabelOf(c.bundle[|c.bundle| - 1])) > 0
  {
    LabelledMonotone(c.bundle, Limit(c.bundle, c.response), |c.bundle| - 1, LabelOf(c.bundle[|c.bundle| - 1]));
  }

  lemma {:induction false} SomethingLost(checkers: seq<Checker>, n: nat, i: nat, l: Label)
    requires i < n <= |checkers| && AllWellFormed(checkers) && !Complete(checkers[i])
    requires l == LabelOf(checkers[i].bundle[|checkers[i].bundle| - 1])
    ensures SumOf(Lost(l), checkers, n) > 0
  {
    if i < n - 1 {
      SomethingLost(checkers, n - 1, i, l);
    } else {
      LastIsForgotten(checkers[i]);
    }
  }

  /** Every record received with this label is accounted for. */
  ghost predicate FullyAccounted(st: State, l: Label)
    requires AllWellFormed(st.checkers)
  {
    Labelled(st.received, |st.received|, l) == Accounted(st, l)
  }

  /** A response that was too short loses at least its last record. */
  lemma IncompleteLoses(st: State, i: nat)
    requires Reachable(st) && i < |st.checkers| && !Complete(st.checkers[i])
    ensures AllWellFormed(st.checkers)
    ensures var bundle := st.checkers[i].bundle; !FullyAccounted(st, LabelOf(bundle[|bundle| - 1]))
  {
    var l := LabelOf(st.checkers[i].bundle[|st.checkers[i].bundle| - 1]);
    RecordsConserved(st, l);
    SomethingLost(st.checkers, |st.checkers|, i, l);
  }

  /** That law holds for every label in a reachable state exactly when no response so far was too
      short. */
  lemma FullyAccountedIffComplete(st: State)
    requires Reachable(st)
    ensures AllWellFormed(st.checkers)
    ensures (forall l :: FullyAccounted(st, l)) <==> forall i :: 0 <= i < |st.checkers| ==> Complete(st.checkers[i])
  {
    RecordsConserved(st, Label("", Forward));
    if forall i :: 0 <= i < |st.checkers| ==> Complete(st.checkers[i]) {
      forall l ensures FullyAccounted(st, l) {
        NothingLost(st.checkers, |st.checkers|, l);
        RecordsConserved(st, l);
      }
    } else {
      var i :| 0 <= i < |st.checkers| && !Complete(st.checkers[i]);
      IncompleteLoses(st, i);
    }
  }

  /** An empty response to a single record makes it disappear from the accounts. */
  lemma ShortResponseLosesRecord(r: SignatureRecord) returns (run: seq<Event>, st: State)
    ensures Exec(Next, START, run) == Some(st) && st.received == [r]
    ensures AllWellFormed(st.checkers) && !FullyAccounted(st, LabelOf(r))
  {
    var ips := [AnyOrder(r.tpuIps)];
    run := [Receive(r), Spawn(1), Respond(0, Statuses([]), ips)];
    st := START.(received := [r], checkers := [Counting([r], Statuses([]), ips, 0)]);
    assert [r][1..] == [] && [r][..1] == [r] && [] + [r] == [r] && [] + [Asking([r])] == [Asking([r])];
    assert [Asking([r])][0 := st.checkers[0]] == st.checkers;
    Chain(Next, run,
      [START, START.(received := [r], queue := [r]), START.(received := [r], checkers := [Asking([r])]), st]);
    IncompleteLoses(st, 0);
  }
}
