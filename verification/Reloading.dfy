/** The client's table of connection tasks and its reload loop (client/main.rs:114-168 and 278-303).

    Each URL of the configured list has a task; a reload aborts the tasks of URLs that are gone and
    spawns tasks for URLs that are new. A handle that is overwritten in the table is neither aborted
    nor reachable any more: its task is orphaned. */
module Reloading {
  import opened Orders

  type Url = string
  type Handle = nat

  /** `spawned` lists the URL of every task ever spawned, by handle. */
  datatype State = State(
    urls: seq<Url>,
    table: map<Url, Handle>,
    spawned: seq<Url>,
    aborted: set<Handle>,
    orphaned: set<Handle>)

  const EMPTY := State([], map[], [], {}, {})

  function Insert(st: State, url: Url): State {
    st.(table := st.table[url := |st.spawned|],
        spawned := st.spawned + [url],
        orphaned := st.orphaned + if url in st.table then {st.table[url]} else {})
  }

  function Build(st: State, list: seq<Url>): State {
    if list == [] then st else Insert(Build(st, list[..|list| - 1]), list[|list| - 1])
  }

  /** The tracked URLs of the old list that the new list lacks. */
  function Gone(st: State, list: seq<Url>): set<Url> {
    set url | url in st.table && url in st.urls && url !in list
  }

  function Abort(st: State, gone: set<Url>): State {
    st.(table := st.table - gone,
        aborted := st.aborted + set url | url in st.table && url in gone :: st.table[url])
  }

  /** The URLs of the new list that the old list lacks, in order and with repetitions. */
  function ToSpawn(previous: seq<Url>, list: seq<Url>): seq<Url> {
    if list == [] then []
    else
      var last := list[|list| - 1];
      ToSpawn(previous, list[..|list| - 1]) + if last in previous then [] else [last]
  }

  function Reload(st: State, list: seq<Url>): State {
    Build(Abort(st, Gone(st, list)).(urls := list), ToSpawn(st.urls, list))
  }

  /** The state after a sequence of lists, the first one being the configuration at startup. */
  function After(lists: seq<seq<Url>>): State {
    if lists == [] then EMPTY else Reload(After(lists[..|lists| - 1]), lists[|lists| - 1])
  }

  // The program.

  class Client {
    var urls: seq<Url>
    var table: map<Url, Handle>
    var spawned: seq<Url>
    var aborted: set<Handle>
    ghost var orphaned: set<Handle>

    ghost function Value(): State
      reads this
    {
      State(urls, table, spawned, aborted, orphaned)
    }

    constructor ()
      ensures Value() == EMPTY
    {
      urls, table, spawned, aborted, orphaned := [], map[], [], {}, {};
    }

    /** Stops with a panic, which ends the process, at the first URL that does not parse. */
    method BuildTasks(list: seq<Url>, parses: Url -> bool) returns (alive: bool)
      modifies this`table, this`spawned, this`orphaned
      ensures alive <==> forall url :: url in list ==> parses(url)
      ensures alive ==> Value() == Build(old(Value()), list)
    {
      for i := 0 to |list|
        invariant forall k :: 0 <= k < i ==> parses(list[k])
        invariant Value() == Build(old(Value()), list[..i])
      {
        var url := list[i];
        if !parses(url) {
          return false;
        }
        if url in table {
          orphaned := orphaned + {table[url]};
        }
        table := table[url := |spawned|];
        spawned := spawned + [url];
        assert list[..i + 1][..i] == list[..i];
      }
      assert list[..|list|] == list;
      return true;
    }

    method AbortGone(list: seq<Url>)
      modifies this`table, this`aborted
      ensures Value() == Abort(old(Value()), Gone(old(Value()), list))
    {
      ghost var before := Value();
      ghost var gone: set<Url> := {};
      for i := 0 to |urls|
        invariant Value() == Abort(before, gone)
        invariant gone == set k | 0 <= k < i && urls[k] in before.table && urls[k] !in list :: urls[k]
      {
        var url := urls[i];
        if url !in list && url in table {
          aborted := aborted + {table[url]};
          table := table - {url};
          AbortOneMore(before, gone, url);
          gone := gone + {url};
        }
      }
      assert gone == Gone(before, list);
    }

    method ReloadUrls(list: seq<Url>, parses: Url -> bool) returns (alive: bool)
      modifies this
      ensures alive <==> forall url :: url in list && url !in old(urls) ==> parses(url)
      ensures alive ==> Value() == Reload(old(Value()), list)
    {
      var toSpawn: seq<Url> := [];
      for i := 0 to |list|
        invariant Value() == old(Value())
        invariant toSpawn == ToSpawn(urls, list[..i])
      {
        if list[i] !in urls {
          toSpawn := toSpawn + [list[i]];
        }
        assert list[..i + 1][..i] == list[..i];
      }
      assert list[..|list|] == list;
      AbortGone(list);
      urls := list;
      SpawnMembers(old(urls), list);
      alive := BuildTasks(toSpawn, parses);
    }
  }

  lemma AbortOneMore(st: State, gone: set<Url>, url: Url)
    requires url in st.table && url !in gone
    ensures Abort(st, gone + {url})
         == Abort(st, gone).(table := Abort(st, gone).table - {url},
                             aborted := Abort(st, gone).aborted + {st.table[url]})
  {
    assert st.table - gone - {url} == st.table - (gone + {url});
    assert (set u | u in st.table && u in gone + {url} :: st.table[u])
        == (set u | u in st.table && u in gone :: st.table[u]) + {st.table[url]};
  }

  lemma {:induction false} SpawnMembers(previous: seq<Url>, list: seq<Url>)
    ensures forall url :: url in ToSpawn(previous, list) <==> url in list && url !in previous
  {
    if list != [] {
      SpawnMembers(previous, list[..|list| - 1]);
      assert list == list[..|list| - 1] + [list[|list| - 1]];
    }
  }

  // Every handle is accounted for.

  /** Where a handle is: still in the table under its own URL. */
  predicate Tracked(st: State, h: Handle)
    requires h < |st.spawned|
  {
    var url := st.spawned[h];
    url in st.table && st.table[url] == h
  }

  /** Each task spawned is in exactly one of three places: tracked, aborted or orphaned. */
  ghost predicate HandlesOk(st: State) {
    && (forall url :: url in st.table ==> st.table[url] < |st.spawned| && st.spawned[st.table[url]] == url)
    && (forall h :: h in st.aborted ==> h < |st.spawned|)
    && (forall h :: h in st.orphaned ==> h < |st.spawned|)
    && st.aborted !! st.orphaned
    && (forall h :: 0 <= h < |st.spawned| ==> (Tracked(st, h) <==> h !in st.aborted && h !in st.orphaned))
  }

  lemma InsertKeeps(st: State, url: Url)
    requires HandlesOk(st)
    ensures HandlesOk(Insert(st, url))
  {
  }

  lemma {:induction false} BuildKeeps(st: State, list: seq<Url>)
    requires HandlesOk(st)
    ensures HandlesOk(Build(st, list))
    ensures Build(st, list).urls == st.urls
    ensures forall url :: url in Build(st, list).table <==> url in st.table || url in list
    ensures forall url :: url in st.table && url !in list ==> Build(st, list).table[url] == st.table[url]
    ensures forall url :: url in list ==> Build(st, list).table[url] >= |st.spawned|
    ensures |Build(st, list).spawned| == |st.spawned| + |list|
  {
    if list != [] {
      var front := list[..|list| - 1];
      BuildKeeps(st, front);
      InsertKeeps(Build(st, front), list[|list| - 1]);
      assert list == front + [list[|list| - 1]];
    }
  }

  lemma AbortKeeps(st: State, gone: set<Url>)
    requires HandlesOk(st)
    ensures HandlesOk(Abort(st, gone))
  {
  }

  ghost predicate Inv(st: State) {
    && HandlesOk(st)
    && (forall url :: url in st.table <==> url in st.urls)
  }

  /** A reload keeps the tasks of the URLs that stay, aborts those of the URLs that go, and gives the
      new ones new tasks. */
  lemma ReloadEffect(st: State, list: seq<Url>)
    requires Inv(st)
    ensures Inv(Reload(st, list)) && Reload(st, list).urls == list
    ensures forall url :: url in st.urls && url in list ==> Reload(st, list).table[url] == st.table[url]
    ensures forall url :: url in st.urls && url !in list ==> st.table[url] in Reload(st, list).aborted
    ensures forall url :: url !in st.urls && url in list ==> Reload(st, list).table[url] >= |st.spawned|
  {
    var gone, spawn := Gone(st, list), ToSpawn(st.urls, list);
    var mid := Abort(st, gone).(urls := list);
    AbortKeeps(st, gone);
    assert HandlesOk(mid);
    SpawnMembers(st.urls, list);
    BuildKeeps(mid, spawn);
    BuildAborts(mid, spawn);
  }

  lemma {:induction false} BuildAborts(st: State, list: seq<Url>)
    ensures Build(st, list).aborted == st.aborted
  {
    if list != [] { BuildAborts(st, list[..|list| - 1]); }
  }

  /** After any sequence of lists: the table holds exactly the URLs of the latest list, and every task
      ever spawned is tracked, aborted or orphaned, exactly one of them. */
  lemma {:induction false} TableFollowsLists(lists: seq<seq<Url>>)
    ensures Inv(After(lists))
    ensures After(lists).urls == if lists == [] then [] else lists[|lists| - 1]
  {
    if lists != [] {
      TableFollowsLists(lists[..|lists| - 1]);
      ReloadEffect(After(lists[..|lists| - 1]), lists[|lists| - 1]);
    }
  }

  // When tasks are orphaned.

  lemma {:induction false} BuildOrphans(st: State, list: seq<Url>)
    requires HandlesOk(st) && forall url :: url in list ==> url !in st.table
    ensures st.orphaned <= Build(st, list).orphaned
    ensures Build(st, list).orphaned == st.orphaned <==> NoDuplicates(list)
  {
    if list != [] {
      var front, last := list[..|list| - 1], list[|list| - 1];
      assert list == front + [last];
      BuildOrphans(st, front);
      BuildKeeps(st, front);
      NoDuplicatesSnoc(front, last);
      InsertOrphans(Build(st, front), last);
    }
  }

  /** Inserting a URL orphans a task exactly when the URL is tracked. */
  lemma InsertOrphans(st: State, url: Url)
    requires HandlesOk(st)
    ensures st.orphaned <= Insert(st, url).orphaned
    ensures Insert(st, url).orphaned == st.orphaned <==> url !in st.table
  {
    if url in st.table {
      assert Tracked(st, st.table[url]);
    }
  }

  lemma NoDuplicatesSnoc(s: seq<Url>, url: Url)
    ensures NoDuplicates(s + [url]) <==> NoDuplicates(s) && url !in s
  {
    var all := s + [url];
    assert all[|s|] == url && forall i :: 0 <= i < |s| ==> all[i] == s[i];
    if NoDuplicates(all) {
      assert forall i :: 0 <= i < |s| ==> all[i] != all[|s|];
    }
  }

  lemma ReloadOrphans(st: State, list: seq<Url>)
    requires Inv(st)
    ensures st.orphaned <= Reload(st, list).orphaned
    ensures Reload(st, list).orphaned == st.orphaned <==> NoDuplicates(ToSpawn(st.urls, list))
  {
    AbortKeeps(st, Gone(st, list));
    SpawnMembers(st.urls, list);
    var mid := Abort(st, Gone(st, list)).(urls := list);
    assert HandlesOk(mid);
    BuildOrphans(mid, ToSpawn(st.urls, list));
  }

  /** Every URL at two positions of the list was already in the list before it. */
  ghost predicate RepeatsOld(previous: seq<Url>, list: seq<Url>) {
    forall j, k :: 0 <= j < k < |list| && list[j] == list[k] ==> list[j] in previous
  }

  lemma {:induction false} SpawnsOnceIff(previous: seq<Url>, list: seq<Url>)
    ensures NoDuplicates(ToSpawn(previous, list)) <==> RepeatsOld(previous, list)
  {
    if list != [] {
      var front, last := list[..|list| - 1], list[|list| - 1];
      SpawnsOnceIff(previous, front);
      SpawnMembers(previous, front);
      NoDuplicatesSnoc(ToSpawn(previous, front), last);
      RepeatsOldSnoc(previous, front, last);
      assert front + [last] == list;
      if last in previous { assert ToSpawn(previous, list) == ToSpawn(previous, front); }
    }
  }

  lemma RepeatsOldSnoc(previous: seq<Url>, list: seq<Url>, url: Url)
    ensures RepeatsOld(previous, list + [url]) <==> RepeatsOld(previous, list) && (url in list ==> url in previous)
  {
    var all := list + [url];
    assert all[|list|] == url && forall i :: 0 <= i < |list| ==> all[i] == list[i];
    if RepeatsOld(previous, all) && url in list {
      var j :| 0 <= j < |list| && list[j] == url;
      assert all[j] == all[|list|];
    }
  }

  /** List `i` repeats only URLs of the list before it. */
  ghost predicate SpawnsOnceAt(lists: seq<seq<Url>>, i: nat)
    requires i < |lists|
  {
    RepeatsOld(if i == 0 then [] else lists[i - 1], lists[i])
  }

  ghost predicate SpawnsOnce(lists: seq<seq<Url>>) {
    forall i :: 0 <= i < |lists| ==> SpawnsOnceAt(lists, i)
  }

  lemma SpawnsOnceSnoc(lists: seq<seq<Url>>)
    requires lists != []
    ensures SpawnsOnce(lists) <==> SpawnsOnce(lists[..|lists| - 1]) && SpawnsOnceAt(lists, |lists| - 1)
  {
    var front := lists[..|lists| - 1];
    assert forall i :: 0 <= i < |front| ==> (SpawnsOnceAt(front, i) <==> SpawnsOnceAt(lists, i));
  }

  /** Tasks are orphaned exactly when some list repeats a URL that the list before it lacked. */
  lemma {:induction false} OrphansIffRepeated(lists: seq<seq<Url>>)
    ensures After(lists).orphaned == {} <==> SpawnsOnce(lists)
  {
    if lists != [] {
      var before := lists[..|lists| - 1];
      OrphansIffRepeated(before);
      SpawnsOnceSnoc(lists);
      TableFollowsLists(before);
      ReloadOrphans(After(before), lists[|lists| - 1]);
      SpawnsOnceIff(After(before).urls, lists[|lists| - 1]);
    }
  }

  /** The shortest way to orphan a task: a configuration that lists a URL twice. */
  lemma RepeatedUrlOrphans(url: Url)
    ensures After([[url, url]]).orphaned == {0} && After([[url, url]]).table == map[url := 1]
  {
    var lists := [[url, url]];
    assert lists[..0] == [] && After([]) == EMPTY;
    assert Abort(EMPTY, Gone(EMPTY, [url, url])) == EMPTY;
    assert [url, url][..1] == [url] && [url][..0] == [];
    assert ToSpawn([], [url]) == [url] && [url] + [url] == [url, url];
    var st := EMPTY.(urls := [url, url]);
    assert Build(st, [url]) == st.(table := map[url := 0], spawned := [url]);
    assert Build(st, [url, url]) == Insert(Build(st, [url]), url);
  }

  /** In particular, never when every list is free of repetitions. */
  lemma DistinctListsOrphanNothing(lists: seq<seq<Url>>)
    requires forall i :: 0 <= i < |lists| ==> NoDuplicates(lists[i])
    ensures After(lists).orphaned == {}
  {
    OrphansIffRepeated(lists);
  }
}
