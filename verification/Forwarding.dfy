/** The client's forwarders (client/forwarder.rs:28-42, client/quic_forwarder.rs:41-89,
    client/rpc_forwarder.rs:31-83, client/metrics.rs:42-48 and 83).

    Each received transaction spawns tasks that share a semaphore and a gauge; a run is any
    interleaving of the tasks' steps with the arrival of transactions and with the feeders that reset
    the gauge. The gauge's get, max and set are separate steps. */
module Forwarding {
  import opened Orders
  import opened Runs
  import opened LabelledCounters

  type Source = string

  datatype Kind = Quic | Rpc | Blackhole

  /** The life of a task. A QUIC task first reads the semaphore, reads the gauge and sets the gauge;
      an RPC task starts by waiting for a permit. */
  datatype Phase =
    | New
    | Sampled(used: nat)
    | Observed(used: nat, seen: nat)
    | Waiting
    | Sending
    | Counted(ok: bool)
    | Finished(ok: bool)

  datatype Task = Task(source: Source, phase: Phase)

  /** The program keeps neither `peak`, the largest number of used permits that a task has brought to
      the gauge since the last reset, nor `history`; the theorems compare with them. */
  datatype State = State(
    kind: Kind,
    maxPermits: nat,
    available: nat,
    gauge: nat,
    peak: nat,
    tasks: seq<Task>,
    arrivals: Counter<Source>,
    succeeded: Counter<Source>,
    failed: Counter<Source>,
    history: seq<(Source, nat)>,
    exited: bool)

  datatype Event =
    | Receive(source: Source, tpus: nat)
    | SampleSemaphore(t: nat)
    | ReadGauge(t: nat)
    | SetGauge(t: nat)
    | Malformed(t: nat)
    | Acquire(t: nat)
    | Complete(t: nat, ok: bool)
    | Release(t: nat)
    | FeederReset

  predicate InPhase(st: State, t: nat, p: Phase) {
    t < |st.tasks| && st.tasks[t].phase == p
  }

  /** An address or payload that does not parse panics, and the panic hook exits the process. */
  predicate Enabled(st: State, e: Event) {
    && !st.exited
    && match e
       case Receive(_, _) => true
       case SampleSemaphore(t) => InPhase(st, t, New)
       case ReadGauge(t) => t < |st.tasks| && st.tasks[t].phase.Sampled?
       case SetGauge(t) => t < |st.tasks| && st.tasks[t].phase.Observed?
       case Malformed(t) => st.kind == Quic && InPhase(st, t, Waiting)
       case Acquire(t) => InPhase(st, t, Waiting) && st.available > 0
       case Complete(t, _) => InPhase(st, t, Sending)
       case Release(t) => t < |st.tasks| && st.tasks[t].phase.Counted?
       case FeederReset => true
  }

  function Spawned(kind: Kind, source: Source, tpus: nat): seq<Task> {
    match kind
    case Quic => Repeat(Task(source, New), tpus)
    case Rpc => [Task(source, Waiting)]
    case Blackhole => []
  }

  function Repeat(task: Task, n: nat): seq<Task> {
    if n == 0 then [] else Repeat(task, n - 1) + [task]
  }

  function At(st: State, t: nat, p: Phase): State
    requires t < |st.tasks|
  {
    st.(tasks := st.tasks[t := st.tasks[t].(phase := p)])
  }

  function Apply(st: State, e: Event): (st': State)
    requires Enabled(st, e) && st.available <= st.maxPermits
  {
    match e
    case Receive(source, tpus) =>
      st.(tasks := st.tasks + Spawned(st.kind, source, tpus),
          arrivals := Inc(st.arrivals, source),
          succeeded := if st.kind == Blackhole then Inc(st.succeeded, source) else st.succeeded,
          history := st.history + [(source, tpus)])
    case SampleSemaphore(t) => At(st, t, Sampled(st.maxPermits - st.available))
    case ReadGauge(t) => At(st, t, Observed(st.tasks[t].phase.used, st.gauge))
    case SetGauge(t) =>
      var p := st.tasks[t].phase;
      At(st, t, Waiting).(gauge := Max(p.seen, p.used), peak := Max(st.peak, p.used))
    case Malformed(t) => st.(exited := true)
    case Acquire(t) => At(st, t, Sending).(available := st.available - 1)
    case Complete(t, ok) =>
      var source := st.tasks[t].source;
      if ok then At(st, t, Counted(ok)).(succeeded := Inc(st.succeeded, source))
      else At(st, t, Counted(ok)).(failed := Inc(st.failed, source))
    case Release(t) => At(st, t, Finished(st.tasks[t].phase.ok)).(available := st.available + 1)
    case FeederReset => st.(gauge := 0, peak := 0)
  }

  /** The subtraction `maxPermits - available` must not underflow; `NeverUnderflows` shows that this
      guard never excludes anything. */
  function Next(st: State, e: Event): Option<State> {
    if Enabled(st, e) && st.available <= st.maxPermits then Some(Apply(st, e)) else None
  }

  function Start(kind: Kind, maxPermits: nat): State {
    State(kind, maxPermits, maxPermits, 0, 0, [], map[], map[], map[], [], false)
  }

  ghost predicate Reachable(st: State) {
    exists kind, maxPermits, run :: Exec(Next, Start(kind, maxPermits), run) == Some(st)
  }

  // Counting tasks.

  datatype Selector = Holding | PendingOf(source: Source) | ResultOf(source: Source, ok: bool) | Unfinished

  predicate Matches(sel: Selector, task: Task) {
    match sel
    case Holding => task.phase.Sending? || task.phase.Counted?
    case PendingOf(source) => task.source == source && !task.phase.Counted? && !task.phase.Finished?
    case ResultOf(source, ok) =>
      task.source == source && (task.phase == Counted(ok) || task.phase == Finished(ok))
    case Unfinished => !task.phase.Finished?
  }

  function One(sel: Selector, task: Task): nat {
    if Matches(sel, task) then 1 else 0
  }

  function Count(sel: Selector, tasks: seq<Task>): nat {
    if tasks == [] then 0 else Count(sel, tasks[..|tasks| - 1]) + One(sel, tasks[|tasks| - 1])
  }

  lemma {:induction false} CountUpdate(sel: Selector, tasks: seq<Task>, t: nat, task: Task)
    requires t < |tasks|
    ensures Count(sel, tasks[t := task]) + One(sel, tasks[t]) == Count(sel, tasks) + One(sel, task)
  {
    var n := |tasks| - 1;
    if t < n {
      CountUpdate(sel, tasks[..n], t, task);
      assert tasks[t := task][..n] == tasks[..n][t := task];
    } else {
      assert tasks[t := task][..n] == tasks[..n];
    }
  }

  lemma {:induction false} CountAppend(sel: Selector, a: seq<Task>, b: seq<Task>)
    ensures Count(sel, a + b) == Count(sel, a) + Count(sel, b)
  {
    if b == [] {
      assert a + b == a;
    } else {
      CountAppend(sel, a, b[..|b| - 1]);
      assert (a + b)[..|a + b| - 1] == a + b[..|b| - 1];
    }
  }

  lemma {:induction false} CountRepeat(sel: Selector, task: Task, n: nat)
    ensures Count(sel, Repeat(task, n)) == if Matches(sel, task) then n else 0
  {
    if n > 0 {
      CountRepeat(sel, task, n - 1);
      assert Repeat(task, n)[..|Repeat(task, n)| - 1] == Repeat(task, n - 1);
    }
  }

  lemma {:induction false} CountPositive(sel: Selector, tasks: seq<Task>)
    ensures Count(sel, tasks) > 0 <==> exists t :: 0 <= t < |tasks| && Matches(sel, tasks[t])
  {
    if tasks != [] {
      var n := |tasks| - 1;
      CountPositive(sel, tasks[..n]);
      assert forall t :: 0 <= t < n ==> tasks[..n][t] == tasks[t];
    }
  }

  /** The outcomes a transaction owes: one per address for QUIC, one in all otherwise. */
  function Owed(kind: Kind, tpus: nat): nat {
    if kind == Quic then tpus else 1
  }

  function OwedTo(kind: Kind, history: seq<(Source, nat)>, source: Source): nat {
    if history == [] then 0
    else
      var last := history[|history| - 1];
      OwedTo(kind, history[..|history| - 1], source) + if last.0 == source then Owed(kind, last.1) else 0
  }

  // The invariants.

  ghost predicate PermitsOk(st: State) {
    st.available + Count(Holding, st.tasks) == st.maxPermits
  }

  ghost predicate ObservationOk(st: State, p: Phase) {
    && (p.Sampled? ==> p.used <= st.maxPermits)
    && (p.Observed? ==> p.used <= st.maxPermits && p.seen <= st.maxPermits)
  }

  ghost predicate GaugeOk(st: State) {
    && st.gauge <= st.maxPermits
    && forall t :: 0 <= t < |st.tasks| ==> ObservationOk(st, st.tasks[t].phase)
  }

  function Outcomes(st: State, source: Source): nat {
    Read(st.succeeded, source) + Read(st.failed, source)
  }

  ghost predicate OutcomesOk(st: State, source: Source) {
    Outcomes(st, source) + Count(PendingOf(source), st.tasks) == OwedTo(st.kind, st.history, source)
  }

  /** The transactions that arrived from a source. */
  function ArrivedFrom(history: seq<(Source, nat)>, source: Source): nat {
    if history == [] then 0
    else ArrivedFrom(history[..|history| - 1], source) + if history[|history| - 1].0 == source then 1 else 0
  }

  /** Each counter counts the tasks with that result; a blackhole counts its arrivals as successes. */
  ghost predicate ResultsOk(st: State, source: Source) {
    && Read(st.arrivals, source) == ArrivedFrom(st.history, source)
    && Read(st.failed, source) == Count(ResultOf(source, false), st.tasks)
    && Read(st.succeeded, source)
       == Count(ResultOf(source, true), st.tasks) + if st.kind == Blackhole then Read(st.arrivals, source) else 0
  }

  ghost predicate Inv(st: State, source: Source) {
    PermitsOk(st) && GaugeOk(st) && OutcomesOk(st, source) && ResultsOk(st, source)
  }

  lemma KeepReceive(st: State, e: Event, source: Source)
    requires Inv(st, source) && Enabled(st, e) && e.Receive?
    ensures Inv(Apply(st, e), source)
  {
    assert PermitsOk(Apply(st, e)) by {
      CountAppend(Holding, st.tasks, Spawned(st.kind, e.source, e.tpus));
      SpawnedCounts(st.kind, e.source, e.tpus, source);
    }
    SpawnedFresh(st.kind, e.source, e.tpus);
    ReceiveOutcomes(st, e, source);
    ReceiveResults(st, e, source);
  }

  lemma ReceiveResults(st: State, e: Event, source: Source)
    requires Inv(st, source) && Enabled(st, e) && e.Receive?
    ensures ResultsOk(Apply(st, e), source)
  {
    CountAppend(ResultOf(source, true), st.tasks, Spawned(st.kind, e.source, e.tpus));
    CountAppend(ResultOf(source, false), st.tasks, Spawned(st.kind, e.source, e.tpus));
    SpawnedCounts(st.kind, e.source, e.tpus, source);
    assert (st.history + [(e.source, e.tpus)])[..|st.history|] == st.history;
    IncReads(st.succeeded, e.source, source);
    IncReads(st.arrivals, e.source, source);
  }

  lemma ReceiveOutcomes(st: State, e: Event, source: Source)
    requires Inv(st, source) && Enabled(st, e) && e.Receive?
    ensures OutcomesOk(Apply(st, e), source)
  {
    CountAppend(PendingOf(source), st.tasks, Spawned(st.kind, e.source, e.tpus));
    SpawnedCounts(st.kind, e.source, e.tpus, source);
    OwedSnoc(st.kind, st.history, (e.source, e.tpus), source);
    IncReads(st.succeeded, e.source, source);
  }

  lemma OwedSnoc(kind: Kind, history: seq<(Source, nat)>, last: (Source, nat), source: Source)
    ensures OwedTo(kind, history + [last], source)
         == OwedTo(kind, history, source) + if last.0 == source then Owed(kind, last.1) else 0
  {
  }

  lemma SpawnedCounts(kind: Kind, from: Source, tpus: nat, source: Source)
    ensures var spawned := Spawned(kind, from, tpus);
            && Count(Holding, spawned) == 0
            && Count(ResultOf(source, true), spawned) == 0 && Count(ResultOf(source, false), spawned) == 0
            && Count(PendingOf(source), spawned) == if from == source && kind != Blackhole then Owed(kind, tpus) else 0
  {
    match kind {
      case Quic =>
        CountRepeat(Holding, Task(from, New), tpus);
        CountRepeat(ResultOf(source, true), Task(from, New), tpus);
        CountRepeat(ResultOf(source, false), Task(from, New), tpus);
        CountRepeat(PendingOf(source), Task(from, New), tpus);
      case Rpc =>
        assert [Task(from, Waiting)][..0] == [];
      case Blackhole =>
    }
  }

  lemma {:induction false} RepeatAll(task: Task, n: nat)
    ensures forall t :: 0 <= t < |Repeat(task, n)| ==> Repeat(task, n)[t] == task
  {
    if n > 0 { RepeatAll(task, n - 1); }
  }

  lemma SpawnedFresh(kind: Kind, from: Source, tpus: nat)
    ensures var spawned := Spawned(kind, from, tpus);
            forall t :: 0 <= t < |spawned| ==> spawned[t].phase.New? || spawned[t].phase.Waiting?
  {
    RepeatAll(Task(from, New), tpus);
  }

  /** Any step of one task: what it holds and owes changes with its phase. */
  lemma KeepTask(st: State, st': State, t: nat, p: Phase, source: Source)
    requires Inv(st, source) && t < |st.tasks|
    requires st'.tasks == At(st, t, p).tasks && st'.history == st.history
    requires st'.kind == st.kind && st'.maxPermits == st.maxPermits && st'.arrivals == st.arrivals
    requires st'.gauge <= st.maxPermits && ObservationOk(st, p)
    requires var mine, task := st.tasks[t].source, st.tasks[t];
             && st'.available + One(Holding, Task(mine, p)) == st.available + One(Holding, task)
             && One(PendingOf(source), Task(mine, p))
                + One(ResultOf(source, true), Task(mine, p)) + One(ResultOf(source, false), Task(mine, p))
                == One(PendingOf(source), task) + One(ResultOf(source, true), task) + One(ResultOf(source, false), task)
             && Read(st'.succeeded, source) + One(ResultOf(source, true), task)
                == Read(st.succeeded, source) + One(ResultOf(source, true), Task(mine, p))
             && Read(st'.failed, source) + One(ResultOf(source, false), task)
                == Read(st.failed, source) + One(ResultOf(source, false), Task(mine, p))
    ensures Inv(st', source)
  {
    CountUpdate(Holding, st.tasks, t, Task(st.tasks[t].source, p));
    CountUpdate(PendingOf(source), st.tasks, t, Task(st.tasks[t].source, p));
    CountUpdate(ResultOf(source, true), st.tasks, t, Task(st.tasks[t].source, p));
    CountUpdate(ResultOf(source, false), st.tasks, t, Task(st.tasks[t].source, p));
  }

  lemma KeepObservation(st: State, e: Event, source: Source)
    requires Inv(st, source) && Enabled(st, e)
    requires e.SampleSemaphore? || e.ReadGauge? || e.SetGauge?
    ensures Inv(Apply(st, e), source)
  {
    assert ObservationOk(st, st.tasks[e.t].phase);
    match e {
      case SampleSemaphore(t) => KeepTask(st, Apply(st, e), t, Sampled(st.maxPermits - st.available), source);
      case ReadGauge(t) => KeepTask(st, Apply(st, e), t, Observed(st.tasks[t].phase.used, st.gauge), source);
      case SetGauge(t) => KeepTask(st, Apply(st, e), t, Waiting, source);
    }
  }

  lemma KeepComplete(st: State, e: Event, source: Source)
    requires Inv(st, source) && Enabled(st, e) && e.Complete?
    ensures Inv(Apply(st, e), source)
  {
    IncReads(st.succeeded, st.tasks[e.t].source, source);
    IncReads(st.failed, st.tasks[e.t].source, source);
    KeepTask(st, Apply(st, e), e.t, Counted(e.ok), source);
  }

  lemma Keep(st: State, e: Event, source: Source)
    requires Inv(st, source) && Enabled(st, e)
    ensures Inv(Apply(st, e), source)
  {
    match e {
      case Receive(_, _) => KeepReceive(st, e, source);
      case Malformed(_) =>
      case Acquire(t) => KeepTask(st, Apply(st, e), t, Sending, source);
      case Complete(_, _) => KeepComplete(st, e, source);
      case Release(t) => KeepTask(st, Apply(st, e), t, Finished(st.tasks[t].phase.ok), source);
      case FeederReset =>
      case _ => KeepObservation(st, e, source);
    }
  }

  lemma {:induction false} RunKeeps(kind: Kind, maxPermits: nat, run: seq<Event>, source: Source)
    requires Exec(Next, Start(kind, maxPermits), run).Some?
    ensures Inv(Exec(Next, Start(kind, maxPermits), run).value, source)
  {
    if run != [] {
      RunKeeps(kind, maxPermits, Front(run), source);
      Keep(Exec(Next, Start(kind, maxPermits), Front(run)).value, Last(run), source);
    }
  }

  lemma Invariant(st: State, source: Source)
    requires Reachable(st)
    ensures Inv(st, source)
  {
    var kind, maxPermits, run :| Exec(Next, Start(kind, maxPermits), run) == Some(st);
    RunKeeps(kind, maxPermits, run, source);
  }

  /** In every interleaving: available plus held permits is the maximum, so at most that many sends
      run at once and the subtraction before it never underflows; and the shared gauge never leaves
      its range. */
  lemma NeverUnderflows(st: State)
    requires Reachable(st)
    ensures st.available + Count(Holding, st.tasks) == st.maxPermits
    ensures Count(Holding, st.tasks) <= st.maxPermits && st.available <= st.maxPermits
    ensures 0 <= st.gauge <= st.maxPermits
    ensures forall e :: Enabled(st, e) ==> Next(st, e).Some?
  {
    Invariant(st, "");
  }

  /** What a task samples before it waits is the number of permits in use at that moment. */
  lemma SamplesPermitsInUse(st: State, t: nat)
    requires Reachable(st) && Enabled(st, SampleSemaphore(t))
    ensures Next(st, SampleSemaphore(t)).Some?
    ensures Next(st, SampleSemaphore(t)).value.tasks[t].phase == Sampled(Count(Holding, st.tasks))
  {
    Invariant(st, "");
  }

  /** After an address or payload that does not parse, nothing happens any more. */
  lemma MalformedStops(st: State, t: nat, e: Event)
    requires Next(st, Malformed(t)).Some?
    ensures Next(Next(st, Malformed(t)).value, e).None?
  {
  }

  /** Per source: succeeded, failed and pending tasks add up to what the received transactions owe, and
      each of the two counters counts exactly the tasks with that result. */
  lemma OutcomesConserved(st: State, source: Source)
    requires Reachable(st)
    ensures Read(st.succeeded, source) + Read(st.failed, source)
          + Count(PendingOf(source), st.tasks) == OwedTo(st.kind, st.history, source)
    ensures ResultsOk(st, source)
  {
    Invariant(st, source);
  }

  /** No deadlock: while the process is alive and there is at least one permit, an unfinished task
      means that some task can take a step. */
  lemma SomeTaskCanStep(st: State) returns (e: Event)
    requires Reachable(st) && !st.exited && st.maxPermits > 0
    requires Count(Unfinished, st.tasks) > 0
    ensures Enabled(st, e) && !e.Receive? && !e.FeederReset? && !e.Malformed?
  {
    Invariant(st, "");
    CountPositive(Unfinished, st.tasks);
    CountPositive(Holding, st.tasks);
    var t :| 0 <= t < |st.tasks| && Matches(Unfinished, st.tasks[t]);
    match st.tasks[t].phase {
      case New => e := SampleSemaphore(t);
      case Sampled(_) => e := ReadGauge(t);
      case Observed(_, _) => e := SetGauge(t);
      case Sending => e := Complete(t, true);
      case Counted(_) => e := Release(t);
      case Waiting =>
        if h :| 0 <= h < |st.tasks| && Matches(Holding, st.tasks[h]) {
          e := if st.tasks[h].phase.Sending? then Complete(h, true) else Release(h);
        } else {
          e := Acquire(t);
        }
    }
  }

  // When the gauge is the peak.

  /** What was read is still there, or makes no difference because its own value is as large. */
  predicate Undisturbed(st: State, t: nat)
    requires t < |st.tasks| && st.tasks[t].phase.Observed?
  {
    var p := st.tasks[t].phase;
    p.seen == st.gauge || (p.seen <= p.used && st.gauge <= p.used)
  }

  /** Every task that sets the gauge in the course of the run is undisturbed. */
  predicate SetsUndisturbed(start: State, run: seq<Event>)
    requires Exec(Next, start, run).Some?
  {
    run != [] ==>
      && SetsUndisturbed(start, Front(run))
      && (Last(run).SetGauge? ==> Undisturbed(Exec(Next, start, Front(run)).value, Last(run).t))
  }

  /** The gauge shows the peak after the run and after each of its prefixes. */
  predicate AlwaysPeak(start: State, run: seq<Event>)
    requires Exec(Next, start, run).Some?
  {
    var st := Exec(Next, start, run).value;
    st.gauge == st.peak && (run != [] ==> AlwaysPeak(start, Front(run)))
  }

  lemma PeakStep(st: State, e: Event)
    requires Next(st, e).Some? && st.gauge == st.peak
    ensures Apply(st, e).gauge == Apply(st, e).peak <==> (e.SetGauge? ==> Undisturbed(st, e.t))
  {
  }

  /** The exact condition for the gauge to be the maximum it is meant to be, throughout a run. */
  lemma {:induction false} GaugeIsPeakIff(kind: Kind, maxPermits: nat, run: seq<Event>)
    requires Exec(Next, Start(kind, maxPermits), run).Some?
    ensures AlwaysPeak(Start(kind, maxPermits), run) <==> SetsUndisturbed(Start(kind, maxPermits), run)
  {
    if run != [] {
      GaugeIsPeakIff(kind, maxPermits, Front(run));
      var st := Exec(Next, Start(kind, maxPermits), Front(run)).value;
      if st.gauge == st.peak { PeakStep(st, Last(run)); }
    }
  }

  /** Judging by the events alone: somebody wrote the gauge after task `t` last read it. */
  predicate WrittenSinceRead(run: seq<Event>, t: nat) {
    run == [] ||
    match Last(run)
    case SetGauge(_) => true
    case FeederReset => true
    case ReadGauge(t') => t' != t && WrittenSinceRead(Front(run), t)
    case _ => WrittenSinceRead(Front(run), t)
  }

  /** No other write comes between a task's reading and its setting of the gauge. */
  predicate AtomicObservations(run: seq<Event>) {
    run != [] ==>
      && AtomicObservations(Front(run))
      && (Last(run).SetGauge? ==> !WrittenSinceRead(Front(run), Last(run).t))
  }

  /** Only its own reading makes a task an observer. */
  lemma ObservedBefore(st: State, e: Event, t: nat)
    requires Next(st, e).Some? && e != ReadGauge(t)
    requires t < |Apply(st, e).tasks| && Apply(st, e).tasks[t].phase.Observed?
    ensures t < |st.tasks| && st.tasks[t].phase == Apply(st, e).tasks[t].phase
  {
    if e.Receive? { SpawnedFresh(st.kind, e.source, e.tpus); }
  }

  lemma {:induction false} SeenIsGauge(start: State, run: seq<Event>, t: nat)
    requires Exec(Next, start, run).Some? && !WrittenSinceRead(run, t)
    requires var st := Exec(Next, start, run).value; t < |st.tasks| && st.tasks[t].phase.Observed?
    ensures var st := Exec(Next, start, run).value; st.tasks[t].phase.seen == st.gauge
  {
    if Last(run) != ReadGauge(t) {
      ObservedBefore(Exec(Next, start, Front(run)).value, Last(run), t);
      SeenIsGauge(start, Front(run), t);
    }
  }

  lemma {:induction false} AtomicIsUndisturbed(start: State, run: seq<Event>)
    requires Exec(Next, start, run).Some? && AtomicObservations(run)
    ensures SetsUndisturbed(start, run)
  {
    if run != [] {
      AtomicIsUndisturbed(start, Front(run));
      if Last(run).SetGauge? { SeenIsGauge(start, Front(run), Last(run).t); }
    }
  }

  /** The gauge shows the peak throughout every run whose observations are atomic. */
  lemma AtomicGaugeIsPeak(kind: Kind, maxPermits: nat, run: seq<Event>)
    requires Exec(Next, Start(kind, maxPermits), run).Some? && AtomicObservations(run)
    ensures AlwaysPeak(Start(kind, maxPermits), run)
  {
    AtomicIsUndisturbed(Start(kind, maxPermits), run);
    GaugeIsPeakIff(kind, maxPermits, run);
  }

  // Two runs in which it does not.

  /** Three QUIC tasks of one transaction sharing a single permit. */
  function Three(source: Source, available: nat, gauge: nat, peak: nat, a: Phase, b: Phase, c: Phase): State {
    Start(Quic, 1).(available := available, gauge := gauge, peak := peak,
                    tasks := [Task(source, a), Task(source, b), Task(source, c)],
                    arrivals := Inc(map[], source), history := [(source, 3)])
  }

  lemma ThreeStart(source: Source)
    ensures Next(Start(Quic, 1), Receive(source, 3)) == Some(Three(source, 1, 0, 0, New, New, New))
  {
    assert Repeat(Task(source, New), 1) == [Task(source, New)];
    assert Repeat(Task(source, New), 2) == [Task(source, New), Task(source, New)];
    assert Repeat(Task(source, New), 3) == [Task(source, New), Task(source, New), Task(source, New)];
    assert [] + Repeat(Task(source, New), 3) == Repeat(Task(source, New), 3);
    assert [] + [(source, 3)] == [(source, 3)];
  }

  /** Moving one of the three to another phase. */
  lemma ThreeAt(source: Source, available: nat, gauge: nat, peak: nat, a: Phase, b: Phase, c: Phase, p: Phase)
    ensures var st := Three(source, available, gauge, peak, a, b, c);
            && At(st, 0, p) == Three(source, available, gauge, peak, p, b, c)
            && At(st, 1, p) == Three(source, available, gauge, peak, a, p, c)
            && At(st, 2, p) == Three(source, available, gauge, peak, a, b, p)
  {
  }

  /** The first task observes an idle semaphore and waits. */
  lemma FirstWaits(source: Source)
    ensures Exec(Next, Start(Quic, 1), [Receive(source, 3), SampleSemaphore(0), ReadGauge(0), SetGauge(0)])
         == Some(Three(source, 1, 0, 0, Waiting, New, New))
  {
    ThreeStart(source);
    forall available, gauge, peak, a, b, c, p {
      ThreeAt(source, available, gauge, peak, a, b, c, p);
    }
    Chain(Next,
      [Receive(source, 3), SampleSemaphore(0), ReadGauge(0), SetGauge(0)],
      [Start(Quic, 1),
       Three(source, 1, 0, 0, New, New, New),
       Three(source, 1, 0, 0, Sampled(0), New, New),
       Three(source, 1, 0, 0, Observed(0, 0), New, New),
       Three(source, 1, 0, 0, Waiting, New, New)]);
  }

  /** The second task reads both while the semaphore is idle; then the first takes the permit, and
      the third records it before the second sets the gauge. */
  lemma StaleSet(source: Source)
    ensures Exec(Next, Three(source, 1, 0, 0, Waiting, New, New),
                 [SampleSemaphore(1), ReadGauge(1), Acquire(0),
                  SampleSemaphore(2), ReadGauge(2), SetGauge(2), SetGauge(1)])
         == Some(Three(source, 0, 0, 1, Sending, Waiting, Waiting))
  {
    forall available, gauge, peak, a, b, c, p {
      ThreeAt(source, available, gauge, peak, a, b, c, p);
    }
    Chain(Next,
      [SampleSemaphore(1), ReadGauge(1), Acquire(0),
       SampleSemaphore(2), ReadGauge(2), SetGauge(2), SetGauge(1)],
      [Three(source, 1, 0, 0, Waiting, New, New),
       Three(source, 1, 0, 0, Waiting, Sampled(0), New),
       Three(source, 1, 0, 0, Waiting, Observed(0, 0), New),
       Three(source, 0, 0, 0, Sending, Observed(0, 0), New),
       Three(source, 0, 0, 0, Sending, Observed(0, 0), Sampled(1)),
       Three(source, 0, 0, 0, Sending, Observed(0, 0), Observed(1, 0)),
       Three(source, 0, 1, 1, Sending, Observed(0, 0), Waiting),
       Three(source, 0, 0, 1, Sending, Waiting, Waiting)]);
  }

  /** The third task sees the idle semaphore; the first takes the permit and the second records it. */
  lemma PermitRecorded(source: Source)
    ensures Exec(Next, Three(source, 1, 0, 0, Waiting, New, New),
                 [SampleSemaphore(2), Acquire(0), SampleSemaphore(1), ReadGauge(1), SetGauge(1)])
         == Some(Three(source, 0, 1, 1, Sending, Waiting, Sampled(0)))
  {
    forall available, gauge, peak, a, b, c, p {
      ThreeAt(source, available, gauge, peak, a, b, c, p);
    }
    Chain(Next,
      [SampleSemaphore(2), Acquire(0), SampleSemaphore(1), ReadGauge(1), SetGauge(1)],
      [Three(source, 1, 0, 0, Waiting, New, New),
       Three(source, 1, 0, 0, Waiting, New, Sampled(0)),
       Three(source, 0, 0, 0, Sending, New, Sampled(0)),
       Three(source, 0, 0, 0, Sending, Sampled(1), Sampled(0)),
       Three(source, 0, 0, 0, Sending, Observed(1, 0), Sampled(0)),
       Three(source, 0, 1, 1, Sending, Waiting, Sampled(0))]);
  }

  /** The third task reads the gauge just before a feeder resets it. */
  lemma ResetUndone(source: Source)
    ensures Exec(Next, Three(source, 0, 1, 1, Sending, Waiting, Sampled(0)), [ReadGauge(2), FeederReset, SetGauge(2)])
         == Some(Three(source, 0, 1, 0, Sending, Waiting, Waiting))
  {
    forall available, gauge, peak, a, b, c, p {
      ThreeAt(source, available, gauge, peak, a, b, c, p);
    }
    Chain(Next,
      [ReadGauge(2), FeederReset, SetGauge(2)],
      [Three(source, 0, 1, 1, Sending, Waiting, Sampled(0)),
       Three(source, 0, 1, 1, Sending, Waiting, Observed(0, 1)),
       Three(source, 0, 0, 0, Sending, Waiting, Observed(0, 1)),
       Three(source, 0, 1, 0, Sending, Waiting, Waiting)]);
  }

  /** A stale value can overwrite a larger one: the gauge shows nothing although one permit in use was
      recorded and no feeder has reset it. */
  lemma GaugeCanDrop(source: Source) returns (run: seq<Event>)
    ensures Exec(Next, Start(Quic, 1), run).Some?
    ensures FeederReset !in run
    ensures Exec(Next, Start(Quic, 1), run).value.gauge == 0 < Exec(Next, Start(Quic, 1), run).value.peak
  {
    var first := [Receive(source, 3), SampleSemaphore(0), ReadGauge(0), SetGauge(0)];
    var second := [SampleSemaphore(1), ReadGauge(1), Acquire(0),
                   SampleSemaphore(2), ReadGauge(2), SetGauge(2), SetGauge(1)];
    run := first + second;
    assert FeederReset !in run by {
      assert FeederReset !in first && FeederReset !in second;
    }
    FirstWaits(source);
    StaleSet(source);
    ExecConcat(Next, Start(Quic, 1), first, second);
  }

  /** A stale value can undo a reset: the gauge shows the old maximum although nothing was recorded
      since. */
  lemma ResetCanBeUndone(source: Source) returns (run: seq<Event>)
    ensures Exec(Next, Start(Quic, 1), run).Some?
    ensures |run| > 2 && run[|run| - 2].FeederReset? && run[|run| - 1].SetGauge?
    ensures Exec(Next, Start(Quic, 1), run).value.gauge > 0 == Exec(Next, Start(Quic, 1), run).value.peak
  {
    var first := [Receive(source, 3), SampleSemaphore(0), ReadGauge(0), SetGauge(0)];
    var second := [SampleSemaphore(2), Acquire(0), SampleSemaphore(1), ReadGauge(1), SetGauge(1)];
    var third := [ReadGauge(2), FeederReset, SetGauge(2)];
    FirstWaits(source);
    PermitRecorded(source);
    ResetUndone(source);
    ExecConcat(Next, Start(Quic, 1), first, second);
    ExecConcat(Next, Start(Quic, 1), first + second, third);
    run := first + second + third;
  }

  // The forwarders as objects.

  class Forwarder {
    var state: State

    constructor (kind: Kind, maxPermits: nat)
      ensures state == Start(kind, maxPermits)
    {
      state := Start(kind, maxPermits);
    }

    /** Receiving a transaction: QUIC spawns a task per address, RPC one task, and the blackhole
        counts a success at once. */
    method Process(source: Source, tpus: seq<string>)
      requires !state.exited && state.available <= state.maxPermits
      modifies this
      ensures state == Apply(old(state), Receive(source, |tpus|))
    {
      state := state.(arrivals := Inc(state.arrivals, source), history := state.history + [(source, |tpus|)]);
      match state.kind {
        case Quic =>
          ghost var before := state;
          for i := 0 to |tpus|
            invariant state == before.(tasks := before.tasks + Repeat(Task(source, New), i))
          {
            state := state.(tasks := state.tasks + [Task(source, New)]);
            assert before.tasks + Repeat(Task(source, New), i) + [Task(source, New)]
                == before.tasks + (Repeat(Task(source, New), i) + [Task(source, New)]);
          }
        case Rpc =>
          state := state.(tasks := state.tasks + [Task(source, Waiting)]);
        case Blackhole =>
          state := state.(succeeded := Inc(state.succeeded, source));
          assert state.tasks + [] == state.tasks;
      }
    }
  }
}
