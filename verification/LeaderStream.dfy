/** Upcoming leaders (server/solana_service.rs:55-67 and 83-129): the leader schedule is inverted from
    identities to slots, each slot notification looks up a window of slots, and the resulting set of
    leaders is sent on only when it changes. */
module LeaderStream {
  import opened Orders
  import opened Records
  import opened Runs

  const N_LEADERS: nat := 7
  const SLOTS_PER_EPOCH: nat := 432_000

  type Schedule = map<nat, Identity>

  /** No slot belongs to two identities. */
  ghost predicate Disjoint(raw: map<Identity, seq<nat>>) {
    forall a, b :: a in raw && b in raw && a != b ==> forall slot :: slot in raw[a] ==> slot !in raw[b]
  }

  ghost predicate Owns(raw: map<Identity, seq<nat>>, id: Identity, slot: nat) {
    id in raw && slot in raw[id]
  }

  /** Slot by slot, the schedule names exactly the owner. */
  ghost predicate Inverts(raw: map<Identity, seq<nat>>, schedule: Schedule) {
    forall id, slot :: Owns(raw, id, slot) <==> slot in schedule && schedule[slot] == id
  }

  /** The inverse of the schedule, whatever the iteration order: every owned slot and no other has an
      entry, an entry names an owner, and with disjoint slots it names the owner. */
  method InvertSchedule(raw: map<Identity, seq<nat>>) returns (schedule: Schedule)
    ensures forall slot :: slot in schedule <==> exists id :: Owns(raw, id, slot)
    ensures forall slot :: slot in schedule ==> Owns(raw, schedule[slot], slot)
    ensures Disjoint(raw) <==> Inverts(raw, schedule)
  {
    schedule := map[];
    var order := Iterate(raw.Keys);
    for i := 0 to |order|
      invariant forall slot :: slot in schedule ==> Owns(raw, schedule[slot], slot)
      invariant forall k, slot :: 0 <= k < i && Owns(raw, order[k], slot) ==> slot in schedule
    {
      assert order[i] in order;
      schedule := AddSlots(raw, schedule, order[i]);
    }
    forall id, slot | Owns(raw, id, slot) ensures slot in schedule {
      assert id in order;
    }
    if Inverts(raw, schedule) {
      forall a, b, slot | a in raw && b in raw && a != b && slot in raw[a] ensures slot !in raw[b] {
        assert Owns(raw, a, slot) && !Owns(raw, b, slot);
      }
    }
  }

  method AddSlots(raw: map<Identity, seq<nat>>, before: Schedule, id: Identity) returns (schedule: Schedule)
    requires id in raw
    requires forall slot :: slot in before ==> Owns(raw, before[slot], slot)
    ensures forall slot :: slot in schedule ==> Owns(raw, schedule[slot], slot)
    ensures before.Keys <= schedule.Keys
    ensures forall slot :: Owns(raw, id, slot) ==> slot in schedule
  {
    schedule := before;
    var slots := raw[id];
    for j := 0 to |slots|
      invariant before.Keys <= schedule.Keys
      invariant forall slot :: slot in schedule ==> Owns(raw, schedule[slot], slot)
      invariant forall k :: 0 <= k < j ==> slots[k] in schedule
    {
      assert Owns(raw, id, slots[j]);
      schedule := schedule[slots[j] := id];
    }
  }

  /** Every fourth slot from the notified one on, seven in all, counted within the epoch; nothing
      wraps around at the end of the epoch. */
  function WindowSlot(slot: nat, nth: nat): nat {
    nth * 4 + slot % SLOTS_PER_EPOCH
  }

  function Leaders(schedule: Schedule, slot: nat): set<Identity> {
    set nth | 0 <= nth < N_LEADERS && WindowSlot(slot, nth) in schedule :: schedule[WindowSlot(slot, nth)]
  }

  /** With disjoint slots, the leaders are exactly the owners of the window's slots. */
  lemma LeadersAreOwners(raw: map<Identity, seq<nat>>, schedule: Schedule, slot: nat, id: Identity)
    requires Inverts(raw, schedule)
    ensures id in Leaders(schedule, slot)
            <==> exists nth :: 0 <= nth < N_LEADERS && Owns(raw, id, WindowSlot(slot, nth))
  {
  }

  /** In the last eight slots of an epoch at most two slots of the window are scheduled. */
  lemma EndOfEpochFewLeaders(schedule: Schedule, slot: nat)
    requires forall s :: s in schedule ==> s < SLOTS_PER_EPOCH
    requires slot % SLOTS_PER_EPOCH + 8 >= SLOTS_PER_EPOCH
    ensures |Leaders(schedule, slot)| <= 2
  {
    var a := if WindowSlot(slot, 0) in schedule then schedule[WindowSlot(slot, 0)] else "";
    var b := if WindowSlot(slot, 1) in schedule then schedule[WindowSlot(slot, 1)] else "";
    forall id | id in Leaders(schedule, slot) ensures id in {a, b} {
      var nth :| 0 <= nth < N_LEADERS && WindowSlot(slot, nth) in schedule && schedule[WindowSlot(slot, nth)] == id;
      assert nth < 2;
    }
    assert Leaders(schedule, slot) <= {a, b};
    AtMostTwo(Leaders(schedule, slot), a, b);
  }

  lemma AtMostTwo(s: set<Identity>, a: Identity, b: Identity)
    requires s <= {a, b}
    ensures |s| <= 2
  {
    assert {a, b} == s + ({a, b} - s);
    assert |{a, b}| <= 2;
  }

  // The stream.

  datatype Event = Refresh(schedule: Schedule) | RefreshFailed | Slot(slot: nat)

  datatype State = State(running: bool, schedule: Schedule, last: set<Identity>, sent: seq<set<Identity>>)

  const START := State(true, map[], {}, [])

  /** A failed refresh ends the loop; whatever comes later is not looked at. */
  function Apply(st: State, e: Event): State {
    if !st.running then st
    else
      match e
      case Refresh(schedule) => st.(schedule := schedule)
      case RefreshFailed => st.(running := false)
      case Slot(slot) =>
        var leaders := Leaders(st.schedule, slot);
        if leaders != st.last then st.(last := leaders, sent := st.sent + [leaders]) else st
  }

  function After(run: seq<Event>): State {
    if run == [] then START else Apply(After(Front(run)), Last(run))
  }

  /** The streaming loop, over the events it is woken up for. */
  class Stream {
    var running: bool
    var schedule: Schedule
    var last: set<Identity>
    var sent: seq<set<Identity>>

    ghost function Value(): State
      reads this
    {
      State(running, schedule, last, sent)
    }

    constructor ()
      ensures Value() == START
    {
      running, schedule, last, sent := true, map[], {}, [];
    }

    method Handle(e: Event)
      requires running
      modifies this
      ensures Value() == Apply(old(Value()), e)
    {
      match e {
        case Refresh(newSchedule) =>
          schedule := newSchedule;
        case RefreshFailed =>
          running := false;
        case Slot(slot) =>
          var current := CurrentLeaders(slot);
          if current != last {
            sent := sent + [current];
            last := current;
          }
      }
    }

    method CurrentLeaders(slot: nat) returns (current: set<Identity>)
      ensures current == Leaders(schedule, slot)
    {
      current := {};
      for nth := 0 to N_LEADERS
        invariant current == set k | 0 <= k < nth && WindowSlot(slot, k) in schedule :: schedule[WindowSlot(slot, k)]
      {
        var s := nth * 4 + slot % SLOTS_PER_EPOCH;
        assert s == WindowSlot(slot, nth);
        if s in schedule {
          current := current + {schedule[s]};
        }
      }
    }

    /** From the start until a refresh fails or the events run out. */
    method Loop(events: seq<Event>)
      requires Value() == START
      modifies this
      ensures Value() == After(events)
    {
      var i := 0;
      while i < |events| && running
        invariant 0 <= i <= |events| && Value() == After(events[..i])
      {
        Handle(events[i]);
        assert Front(events[..i + 1]) == events[..i];
        i := i + 1;
      }
      if running {
        assert events[..i] == events;
      } else {
        StaysStopped(events[..i], events[i..]);
        assert events[..i] + events[i..] == events;
      }
    }
  }

  /** A failed refresh is final: no leaders are ever sent again, whatever happens later. */
  lemma {:induction false} StaysStopped(run: seq<Event>, more: seq<Event>)
    requires !After(run).running
    ensures After(run + more) == After(run)
    decreases |more|
  {
    if more == [] {
      assert run + more == run;
    } else {
      StaysStopped(run, Front(more));
      assert Front(run + more) == run + Front(more);
    }
  }

  // The reference: a stream that sends on every notification.

  /** No refresh has failed. */
  predicate Alive(run: seq<Event>) {
    run != [] ==> Alive(Front(run)) && !Last(run).RefreshFailed?
  }

  /** The schedule in force. */
  function Current(run: seq<Event>): Schedule {
    if run == [] then map[]
    else if Alive(run) && Last(run).Refresh? then Last(run).schedule
    else Current(Front(run))
  }

  /** What is sent when every notification sends. */
  function Every(run: seq<Event>): seq<set<Identity>> {
    if run == [] then []
    else if Alive(run) && Last(run).Slot? then Every(Front(run)) + [Leaders(Current(Front(run)), Last(run).slot)]
    else Every(Front(run))
  }

  /** The latest element, or nobody. */
  function Latest(sets: seq<set<Identity>>): set<Identity> {
    if sets == [] then {} else sets[|sets| - 1]
  }

  /** The elements that differ from their predecessor, the first one from the empty set. */
  function Changes(sets: seq<set<Identity>>): seq<set<Identity>> {
    if sets == [] then []
    else
      var before := sets[..|sets| - 1];
      if sets[|sets| - 1] == Latest(before) then Changes(before) else Changes(before) + [sets[|sets| - 1]]
  }

  lemma {:induction false} ChangesLatest(sets: seq<set<Identity>>)
    ensures Latest(Changes(sets)) == Latest(sets)
  {
    if sets != [] { ChangesLatest(sets[..|sets| - 1]); }
  }

  /** The stream sends exactly the changes of the stream that sends every time. */
  lemma {:induction false} SendsChanges(run: seq<Event>)
    ensures After(run).running == Alive(run) && After(run).schedule == Current(run)
    ensures After(run).last == Latest(Every(run))
    ensures After(run).sent == Changes(Every(run))
  {
    if run != [] {
      SendsChanges(Front(run));
      if Alive(run) && Last(run).Slot? {
        var all := Every(run);
        assert all[..|all| - 1] == Every(Front(run));
      }
    }
  }

  /** So at every moment a receiver has the same latest set in both streams, which is the set for
      the latest notification, and never receives the same set twice in a row. */
  lemma RefinesEverySend(run: seq<Event>)
    ensures Latest(After(run).sent) == Latest(Every(run))
    ensures forall i :: 0 < i < |After(run).sent| ==> After(run).sent[i - 1] != After(run).sent[i]
    ensures After(run).sent != [] ==> After(run).sent[0] != {}
  {
    SendsChanges(run);
    ChangesLatest(Every(run));
    ChangesDiffer(Every(run));
  }

  lemma {:induction false} ChangesDiffer(sets: seq<set<Identity>>)
    ensures forall i :: 0 < i < |Changes(sets)| ==> Changes(sets)[i - 1] != Changes(sets)[i]
    ensures Changes(sets) != [] ==> Changes(sets)[0] != {}
  {
    if sets != [] {
      var before := sets[..|sets| - 1];
      ChangesDiffer(before);
      ChangesLatest(before);
    }
  }

  /** The window by its slots: seven, four apart, from the notified one within its epoch. */
  lemma WindowOwners(raw: map<Identity, seq<nat>>, id: Identity, slot: nat)
    ensures (exists nth :: 0 <= nth < N_LEADERS && Owns(raw, id, WindowSlot(slot, nth)))
            <==> var s := slot % 432_000;
                 || Owns(raw, id, s) || Owns(raw, id, s + 4) || Owns(raw, id, s + 8) || Owns(raw, id, s + 12)
                 || Owns(raw, id, s + 16) || Owns(raw, id, s + 20) || Owns(raw, id, s + 24)
  {
    var s := slot % 432_000;
    assert WindowSlot(slot, 0) == s && WindowSlot(slot, 1) == s + 4 && WindowSlot(slot, 2) == s + 8;
    assert WindowSlot(slot, 3) == s + 12 && WindowSlot(slot, 4) == s + 16;
    assert WindowSlot(slot, 5) == s + 20 && WindowSlot(slot, 6) == s + 24;
  }

  /** After a notification to a live stream, with disjoint slots in force, an identity is in the latest set received
      exactly when it owns one of the slots of the window. */
  lemma LatestAreOwners(run: seq<Event>, raw: map<Identity, seq<nat>>, id: Identity)
    requires run != [] && Alive(run) && Last(run).Slot? && Inverts(raw, Current(run))
    ensures id in Latest(After(run).sent)
            <==> var s := Last(run).slot % 432_000;
                 || Owns(raw, id, s) || Owns(raw, id, s + 4) || Owns(raw, id, s + 8) || Owns(raw, id, s + 12)
                 || Owns(raw, id, s + 16) || Owns(raw, id, s + 20) || Owns(raw, id, s + 24)
  {
    RefinesEverySend(run);
    LeadersAreOwners(raw, Current(run), Last(run).slot, id);
    WindowOwners(raw, id, Last(run).slot);
  }
}
