/** Startup recovery: rows a dead daemon left Running or Interrupted go back to
    Pending unless their orphan process still lives, then run-at tasks parked at
    the sentinel are re-armed. Also the shutdown counterpart. */
module Recovery {
  import opened Types
  import opened Store

  type Liveness = (u32, Option<u64>) -> bool

  predicate IsStranded(t: Task) {
    t.state.Running? || t.state.Interrupted?
  }

  predicate HasLiveLease(alive: Liveness, t: Task) {
    t.workerPid.Some? && alive(t.workerPid.value, t.workerStarttime)
  }

  predicate IsReset(alive: Liveness, t: Task) {
    IsStranded(t) && !HasLiveLease(alive, t)
  }

  function ResetRow(t: Task, now: u64): Task {
    t.(state := Pending, nextFire := Some(now), startedAt := None, finishedAt := None)
  }

  function ResetAll(rows: map<Id, Task>, alive: Liveness, now: u64): map<Id, Task> {
    map id | id in rows :: if IsReset(alive, rows[id]) then ResetRow(rows[id], now) else rows[id]
  }

  ghost function ToReset(rows: map<Id, Task>, alive: Liveness): set<Id> {
    set id | id in rows && IsReset(alive, rows[id])
  }

  function LeaseEvents(held: seq<Id>, now: u64): seq<Event> {
    seq(|held|, i requires 0 <= i < |held| => Event(held[i], LeaseHeld, now))
  }

  /** `held` lists, once each, the stranded rows whose orphan is alive. */
  ghost predicate ListsHeld(rows: map<Id, Task>, alive: Liveness, held: seq<Id>) {
    && (forall i :: 0 <= i < |held| ==>
          held[i] in rows && IsStranded(rows[held[i]]) && HasLiveLease(alive, rows[held[i]]))
    && (forall id :: id in rows && IsStranded(rows[id]) && HasLiveLease(alive, rows[id]) ==> id in held)
    && (forall i, j :: 0 <= i < j < |held| ==> held[i] != held[j])
  }

  method ResetRunningToPending(store: InMemoryStore, alive: Liveness, now: u64) returns (reset: nat, held: seq<Id>)
    modifies store
    ensures store.View() == old(store.View()).(
              tasks := ResetAll(old(store.tasks), alive, now),
              events := old(store.events) + LeaseEvents(held, now))
    ensures reset == |ToReset(old(store.tasks), alive)|
    ensures ListsHeld(old(store.tasks), alive, held)
  {
    var rows;
    rows, reset, held := ResetRows(store.tasks, alive, now);
    store.tasks := rows;
    RecordAll(store, held, LeaseHeld, now);
    assert LeaseEvents(held, now) == EventsFor(held, LeaseHeld, now);
  }

  /** The rows once those in `visited` were looked at. */
  function ResetSome(rows: map<Id, Task>, alive: Liveness, now: u64, visited: set<Id>): map<Id, Task> {
    map id | id in rows :: if id in visited && IsReset(alive, rows[id]) then ResetRow(rows[id], now) else rows[id]
  }

  /** The loop over the rows. */
  method ResetRows(before: map<Id, Task>, alive: Liveness, now: u64)
    returns (rows: map<Id, Task>, reset: nat, held: seq<Id>)
    ensures rows == ResetAll(before, alive, now)
    ensures reset == |ToReset(before, alive)|
    ensures ListsHeld(before, alive, held)
  {
    rows, reset, held := before, 0, [];
    var todo := before.Keys;
    ghost var visited: set<Id> := {};
    assert ResetSome(before, alive, now, {}) == before;
    while todo != {}
      invariant todo == before.Keys - visited
      invariant rows == ResetSome(before, alive, now, visited)
      invariant reset == |ToReset(before, alive) * visited|
      invariant HeldSoFar(before, alive, held, visited)
      decreases todo
    {
      var id :| id in todo;
      var t := rows[id];
      VisitRow(before, alive, now, visited, id);
      VisitHeld(before, alive, held, visited, id);
      if t.state.Running? || t.state.Interrupted? {
        if t.workerPid.Some? && alive(t.workerPid.value, t.workerStarttime) {
          held := held + [id];
        } else {
          t := t.(state := Pending, nextFire := Some(now), startedAt := None, finishedAt := None);
          rows := rows[id := t];
          reset := reset + 1;
        }
      }
      todo := todo - {id};
      visited := visited + {id};
    }
    EveryRowVisited(before, alive, now, held, visited);
  }

  predicate IsHeld(alive: Liveness, t: Task) {
    IsStranded(t) && HasLiveLease(alive, t)
  }

  ghost predicate HeldSoFar(rows: map<Id, Task>, alive: Liveness, held: seq<Id>, visited: set<Id>) {
    && (forall i :: 0 <= i < |held| ==> held[i] in visited && held[i] in rows && IsHeld(alive, rows[held[i]]))
    && (forall id :: id in visited && id in rows && IsHeld(alive, rows[id]) ==> id in held)
    && (forall i, j :: 0 <= i < j < |held| ==> held[i] != held[j])
  }

  lemma VisitRow(rows: map<Id, Task>, alive: Liveness, now: u64, visited: set<Id>, id: Id)
    requires id in rows && id !in visited
    ensures ResetSome(rows, alive, now, visited)[id] == rows[id]
    ensures ResetSome(rows, alive, now, visited + {id})
         == if IsReset(alive, rows[id]) then ResetSome(rows, alive, now, visited)[id := ResetRow(rows[id], now)]
            else ResetSome(rows, alive, now, visited)
    ensures |ToReset(rows, alive) * (visited + {id})|
         == |ToReset(rows, alive) * visited| + (if IsReset(alive, rows[id]) then 1 else 0)
  {
    if IsReset(alive, rows[id]) {
      assert ToReset(rows, alive) * (visited + {id}) == ToReset(rows, alive) * visited + {id};
    } else {
      assert ToReset(rows, alive) * (visited + {id}) == ToReset(rows, alive) * visited;
    }
  }

  lemma VisitHeld(rows: map<Id, Task>, alive: Liveness, held: seq<Id>, visited: set<Id>, id: Id)
    requires HeldSoFar(rows, alive, held, visited) && id in rows && id !in visited
    ensures HeldSoFar(rows, alive, if IsHeld(alive, rows[id]) then held + [id] else held, visited + {id})
  {
    var held' := held + [id];
    assert held'[|held|] == id;
    assert forall x :: x in held ==> x in held';
  }

  lemma EveryRowVisited(rows: map<Id, Task>, alive: Liveness, now: u64, held: seq<Id>, visited: set<Id>)
    requires rows.Keys <= visited && HeldSoFar(rows, alive, held, visited)
    ensures ResetSome(rows, alive, now, visited) == ResetAll(rows, alive, now)
    ensures ToReset(rows, alive) * visited == ToReset(rows, alive)
    ensures ListsHeld(rows, alive, held)
  {
  }

  // ----- which rows are counted and told -----

  lemma {:induction false} ToldOncePerEntry(held: seq<Id>, now: u64, id: Id)
    requires forall i, j :: 0 <= i < j < |held| ==> held[i] != held[j]
    ensures CountEvents(LeaseEvents(held, now), id, LeaseHeld) == if id in held then 1 else 0
  {
    if held != [] {
      var front := held[..|held| - 1];
      ToldOncePerEntry(front, now, id);
      assert LeaseEvents(held, now)[..|held| - 1] == LeaseEvents(front, now);
      assert held == front + [held[|held| - 1]];
    }
  }

  /** A Running or Interrupted row counts as reset if and only if the process its
      lease names is not alive, and otherwise gets one event. */
  lemma ResetIff(rows: map<Id, Task>, alive: Liveness, held: seq<Id>, now: u64, id: Id)
    requires ListsHeld(rows, alive, held) && id in rows
    ensures var t := rows[id];
            var orphan := t.workerPid.Some? && alive(t.workerPid.value, t.workerStarttime);
            && (id in ToReset(rows, alive) <==> t.state in {Running, Interrupted} && !orphan)
            && CountEvents(LeaseEvents(held, now), id, LeaseHeld)
               == (if t.state in {Running, Interrupted} && orphan then 1 else 0)
  {
    ToldOncePerEntry(held, now, id);
  }

  function EventsFor(ids: seq<Id>, kind: EventType, now: u64): seq<Event> {
    seq(|ids|, i requires 0 <= i < |ids| => Event(ids[i], kind, now))
  }

  /** The loop that records one event per id. */
  method RecordAll(store: InMemoryStore, ids: seq<Id>, kind: EventType, now: u64)
    modifies store
    ensures store.View() == old(store.View()).(events := old(store.events) + EventsFor(ids, kind, now))
  {
    var i := 0;
    while i < |ids|
      invariant 0 <= i <= |ids|
      invariant store.View() == old(store.View()).(events := old(store.events) + EventsFor(ids[..i], kind, now))
    {
      store.AddEvent(ids[i], kind, now);
      assert EventsFor(ids[..i + 1], kind, now) == EventsFor(ids[..i], kind, now) + [Event(ids[i], kind, now)];
      i := i + 1;
    }
    assert ids[..i] == ids;
  }

  // ----- re-arming parked run-at tasks -----

  predicate IsParked(t: Task) {
    t.cfg.runAt.Some? && t.state.Pending? && t.nextFire == Some(U64_MAX)
  }

  function RearmAll(rows: map<Id, Task>, now: u64): map<Id, Task> {
    map id | id in rows :: if IsParked(rows[id]) then rows[id].(nextFire := Some(now)) else rows[id]
  }

  ghost function Parked(rows: map<Id, Task>): set<Id> {
    set id | id in rows && IsParked(rows[id])
  }

  /** The rows after re-arming those whose id is in `done`. */
  function RearmSome(rows: map<Id, Task>, now: u64, done: set<Id>): map<Id, Task> {
    map id | id in rows :: if IsParked(rows[id]) && id in done then rows[id].(nextFire := Some(now)) else rows[id]
  }

  method RearmStuckRunAtTasks(store: InMemoryStore, now: u64) returns (rearmed: nat)
    requires Keyed(store.View())
    modifies store
    ensures store.View() == old(store.View()).(tasks := RearmAll(old(store.tasks), now))
    ensures rearmed == |Parked(old(store.tasks))|
  {
    var active := store.LoadActive();
    rearmed := RearmListed(store, active, now);
    AllParkedDone(old(store.View()), active, ListedIds(active), now);
  }

  function ListedIds(list: seq<Task>): set<Id> {
    if list == [] then {} else ListedIds(list[..|list| - 1]) + {list[|list| - 1].id}
  }

  lemma {:induction false} ListedIdsAre(list: seq<Task>)
    ensures forall i :: 0 <= i < |list| ==> list[i].id in ListedIds(list)
    ensures forall id :: id in ListedIds(list) ==> exists i :: 0 <= i < |list| && list[i].id == id
  {
    if list != [] {
      var front := list[..|list| - 1];
      ListedIdsAre(front);
      forall id | id in ListedIds(list)
        ensures exists i :: 0 <= i < |list| && list[i].id == id
      {
        if id in ListedIds(front) {
          var i :| 0 <= i < |front| && front[i].id == id;
          assert list[i].id == id;
        } else {
          assert list[|list| - 1].id == id;
        }
      }
    }
  }

  ghost predicate ListsRows(rows: map<Id, Task>, list: seq<Task>) {
    && (forall i :: 0 <= i < |list| ==> list[i].id in rows && rows[list[i].id] == list[i])
    && (forall i, j :: 0 <= i < j < |list| ==> list[i].id != list[j].id)
  }

  lemma NotYetListed(rows: map<Id, Task>, list: seq<Task>, i: nat)
    requires ListsRows(rows, list) && i < |list|
    ensures list[i].id in rows && rows[list[i].id] == list[i] && list[i].id !in ListedIds(list[..i])
    ensures ListedIds(list[..i + 1]) == ListedIds(list[..i]) + {list[i].id}
  {
    assert list[..i + 1][..i] == list[..i];
    ListedIdsAre(list[..i]);
  }

  lemma ParkedGrows(rows: map<Id, Task>, done: set<Id>, id: Id)
    requires id in rows && id !in done
    ensures |Parked(rows) * (done + {id})| == |Parked(rows) * done| + (if IsParked(rows[id]) then 1 else 0)
  {
    if IsParked(rows[id]) {
      assert Parked(rows) * (done + {id}) == Parked(rows) * done + {id};
    } else {
      assert Parked(rows) * (done + {id}) == Parked(rows) * done;
    }
  }

  lemma RearmGrows(rows: map<Id, Task>, now: u64, done: set<Id>, id: Id)
    requires id in rows && id !in done
    ensures RearmSome(rows, now, done + {id})
         == if IsParked(rows[id]) then RearmSome(rows, now, done)[id := rows[id].(nextFire := Some(now))]
            else RearmSome(rows, now, done)
    ensures RearmSome(rows, now, done)[id] == rows[id]
  {
  }

  /** The store after one more task. */
  lemma RearmStep(s: StoreState, rows: map<Id, Task>, now: u64, done: set<Id>, t: Task)
    requires s.tasks == RearmSome(rows, now, done) && t.id in rows && rows[t.id] == t && t.id !in done
    ensures (if IsParked(t) then UpdateNextFire(s, t.id, Some(now)) else s)
         == s.(tasks := RearmSome(rows, now, done + {t.id}))
  {
    RearmGrows(rows, now, done, t.id);
  }

  /** What the loop does, task by task, and how many it re-arms. */
  function RearmEach(s: StoreState, list: seq<Task>, now: u64): StoreState {
    if list == [] then s
    else
      var s1, t := RearmEach(s, list[..|list| - 1], now), list[|list| - 1];
      if IsParked(t) then UpdateNextFire(s1, t.id, Some(now)) else s1
  }

  function ParkedIn(list: seq<Task>): nat {
    if list == [] then 0 else ParkedIn(list[..|list| - 1]) + (if IsParked(list[|list| - 1]) then 1 else 0)
  }

  lemma {:induction false} RearmEachIs(s: StoreState, list: seq<Task>, now: u64)
    requires ListsRows(s.tasks, list)
    ensures RearmEach(s, list, now) == s.(tasks := RearmSome(s.tasks, now, ListedIds(list)))
    ensures ParkedIn(list) == |Parked(s.tasks) * ListedIds(list)|
  {
    if list == [] {
      assert RearmSome(s.tasks, now, {}) == s.tasks;
    } else {
      var front, t := list[..|list| - 1], list[|list| - 1];
      RearmEachIs(s, front, now);
      NotYetListed(s.tasks, list, |list| - 1);
      ParkedGrows(s.tasks, ListedIds(front), t.id);
      RearmStep(RearmEach(s, front, now), s.tasks, now, ListedIds(front), t);
    }
  }

  /** The body of the loop. */
  method RearmOne(store: InMemoryStore, t: Task, now: u64) returns (armed: bool)
    modifies store
    ensures armed <==> IsParked(t)
    ensures store.View() == if IsParked(t) then UpdateNextFire(old(store.View()), t.id, Some(now))
                            else old(store.View())
  {
    armed := t.cfg.runAt.Some? && t.state == Pending && t.nextFire == Some(U64_MAX);
    if armed {
      store.SetNextFire(t.id, Some(now));
    }
  }

  /** The loop over the active tasks. */
  method RearmListed(store: InMemoryStore, active: seq<Task>, now: u64) returns (rearmed: nat)
    requires ListsRows(store.tasks, active)
    modifies store
    ensures store.View() == old(store.View()).(tasks := RearmSome(old(store.tasks), now, ListedIds(active)))
    ensures rearmed == |Parked(old(store.tasks)) * ListedIds(active)|
  {
    rearmed := 0;
    var i := 0;
    while i < |active|
      invariant 0 <= i <= |active|
      invariant store.View() == RearmEach(old(store.View()), active[..i], now)
      invariant rearmed == ParkedIn(active[..i])
    {
      assert active[..i + 1][..i] == active[..i];
      var armed := RearmOne(store, active[i], now);
      if armed {
        rearmed := rearmed + 1;
      }
      i := i + 1;
    }
    assert active[..i] == active;
    RearmEachIs(old(store.View()), active, now);
  }

  lemma AllParkedDone(s: StoreState, active: seq<Task>, done: set<Id>, now: u64)
    requires Keyed(s) && IsActiveList(s, active)
    requires done == ListedIds(active)
    ensures RearmSome(s.tasks, now, done) == RearmAll(s.tasks, now)
    ensures Parked(s.tasks) * done == Parked(s.tasks)
  {
    ListedIdsAre(active);
    forall id | id in Parked(s.tasks)
      ensures id in done
    {
      var k :| 0 <= k < |active| && active[k] == s.tasks[id];
      assert active[k].id == id;
    }
  }

  // ----- what startup achieves -----

  /** Startup: reset at `now1`, re-arm at `now2`. */
  function Recover(rows: map<Id, Task>, alive: Liveness, now1: u64, now2: u64): map<Id, Task> {
    RearmAll(ResetAll(rows, alive, now1), now2)
  }

  /** After startup a Running or Interrupted row is unchanged if the process its
      lease names, by its id and start time, is alive, and otherwise Pending, due
      at once, with cleared timestamps; terminal rows are untouched; and no Pending
      run-at row holds the sentinel. */
  lemma RecoveryIsComplete(rows: map<Id, Task>, alive: Liveness, now1: u64, now2: u64, id: Id)
    requires id in rows && now1 < U64_MAX && now2 < U64_MAX
    ensures var t, r := rows[id], Recover(rows, alive, now1, now2)[id];
            var orphan := t.workerPid.Some? && alive(t.workerPid.value, t.workerStarttime);
            && (t.state in {Running, Interrupted} && orphan ==> r == t)
            && (t.state in {Running, Interrupted} && !orphan ==>
                  r == t.(state := Pending, nextFire := Some(now1), startedAt := None, finishedAt := None))
            && (t.state in {Success, Failed, Cancelled, Expired} ==> r == t)
            && (t.state == Pending ==>
                  r == if t.cfg.runAt.Some? && t.nextFire == Some(0xFFFF_FFFF_FFFF_FFFF) then t.(nextFire := Some(now2))
                       else t)
            && !IsParked(r)
  {
  }

  /** Running startup again with the same processes alive changes nothing. */
  lemma RecoveryIsIdempotent(rows: map<Id, Task>, alive: Liveness, now1: u64, now2: u64, later1: u64, later2: u64)
    requires now1 < U64_MAX && now2 < U64_MAX
    ensures var r := Recover(rows, alive, now1, now2);
            ToReset(r, alive) == {} && Parked(r) == {} && Recover(r, alive, later1, later2) == r
  {
    var r := Recover(rows, alive, now1, now2);
    forall id | id in rows
      ensures !IsReset(alive, r[id]) && !IsParked(r[id])
    {
      RecoveryIsComplete(rows, alive, now1, now2, id);
    }
    assert ResetAll(r, alive, later1) == r;
  }

  /** The two counts a startup logs: the reset rows, and exactly the rows that
      were parked before, since resetting parks nothing. */
  lemma RearmCountIsExact(rows: map<Id, Task>, alive: Liveness, now1: u64)
    requires now1 < U64_MAX
    ensures Parked(ResetAll(rows, alive, now1)) == Parked(rows)
  {
  }

  // ----- shutdown -----

  function InterruptAll(rows: map<Id, Task>, now: u64): map<Id, Task> {
    map id | id in rows ::
      if rows[id].state.Running? then rows[id].(state := Interrupted, finishedAt := Some(now)) else rows[id]
  }

  /** `ids` lists a set, each member once. */
  ghost predicate ListsSet(ids: seq<Id>, members: set<Id>) {
    && (forall i :: 0 <= i < |ids| ==> ids[i] in members)
    && (forall id :: id in members ==> id in ids)
    && (forall i, j :: 0 <= i < j < |ids| ==> ids[i] != ids[j])
  }

  lemma ListsOneMore(rows: map<Id, Task>, visited: set<Id>, ids: seq<Id>, id: Id)
    requires ListsSet(ids, RunningIds(rows) * visited) && id in rows && id !in visited
    ensures ListsSet(if rows[id].state.Running? then ids + [id] else ids, RunningIds(rows) * (visited + {id}))
  {
    if rows[id].state.Running? {
      assert RunningIds(rows) * (visited + {id}) == RunningIds(rows) * visited + {id};
      assert (ids + [id])[|ids|] == id;
      assert forall x :: x in ids ==> x in ids + [id];
    } else {
      assert RunningIds(rows) * (visited + {id}) == RunningIds(rows) * visited;
    }
  }

  ghost function RunningIds(rows: map<Id, Task>): set<Id> {
    set id | id in rows && rows[id].state.Running?
  }

  method MarkRunningAsInterrupted(store: InMemoryStore, now: u64) returns (transitioned: seq<Id>)
    modifies store
    ensures store.View() == old(store.View()).(
              tasks := InterruptAll(old(store.tasks), now),
              events := old(store.events) + EventsFor(transitioned, InterruptedEvent, now))
    ensures ListsSet(transitioned, RunningIds(old(store.tasks)))
  {
    var rows;
    rows, transitioned := InterruptRows(store.tasks, now);
    store.tasks := rows;
    RecordAll(store, transitioned, InterruptedEvent, now);
  }

  function InterruptSome(rows: map<Id, Task>, now: u64, visited: set<Id>): map<Id, Task> {
    map id | id in rows ::
      if id in visited && rows[id].state.Running? then rows[id].(state := Interrupted, finishedAt := Some(now))
      else rows[id]
  }

  lemma NoRowInterrupted(rows: map<Id, Task>, now: u64)
    ensures InterruptSome(rows, now, {}) == rows
    ensures ListsSet([], RunningIds(rows) * {})
  {
  }

  lemma InterruptRow(rows: map<Id, Task>, now: u64, visited: set<Id>, id: Id)
    requires id in rows && id !in visited
    ensures InterruptSome(rows, now, visited)[id] == rows[id]
    ensures InterruptSome(rows, now, visited + {id})
         == if rows[id].state.Running?
            then InterruptSome(rows, now, visited)[id := rows[id].(state := Interrupted, finishedAt := Some(now))]
            else InterruptSome(rows, now, visited)
  {
  }

  method InterruptRows(before: map<Id, Task>, now: u64) returns (rows: map<Id, Task>, transitioned: seq<Id>)
    ensures rows == InterruptAll(before, now)
    ensures ListsSet(transitioned, RunningIds(before))
  {
    rows, transitioned := before, [];
    var todo := before.Keys;
    ghost var visited: set<Id> := {};
    NoRowInterrupted(before, now);
    while todo != {}
      invariant todo == before.Keys - visited
      invariant rows == InterruptSome(before, now, visited)
      invariant ListsSet(transitioned, RunningIds(before) * visited)
      decreases todo
    {
      var id :| id in todo;
      InterruptRow(before, now, visited, id);
      ListsOneMore(before, visited, transitioned, id);
      if rows[id].state == Running {
        rows := rows[id := rows[id].(state := Interrupted, finishedAt := Some(now))];
        transitioned := transitioned + [id];
      }
      todo := todo - {id};
      visited := visited + {id};
    }
    EveryRowInterrupted(before, now, visited);
  }

  lemma EveryRowInterrupted(rows: map<Id, Task>, now: u64, visited: set<Id>)
    requires rows.Keys <= visited
    ensures InterruptSome(rows, now, visited) == InterruptAll(rows, now)
    ensures RunningIds(rows) * visited == RunningIds(rows)
  {
  }

  /** A shutdown followed by a startup brings a row that was Running, or left so by
      an earlier end, back to Pending and due, with its progress; unless the process
      its lease names survived, and then the row stays Interrupted. */
  lemma ShutdownThenStartup(rows: map<Id, Task>, alive: Liveness, stop: u64, now1: u64, now2: u64, id: Id)
    requires id in rows && now1 < U64_MAX && now2 < U64_MAX && rows[id].state in {Running, Interrupted}
    ensures var t, r := rows[id], Recover(InterruptAll(rows, stop), alive, now1, now2)[id];
            if t.workerPid.Some? && alive(t.workerPid.value, t.workerStarttime) then
              r == if t.state == Running then t.(state := Interrupted, finishedAt := Some(stop)) else t
            else r == t.(state := Pending, nextFire := Some(now1), startedAt := None, finishedAt := None)
  {
    RecoveryIsComplete(InterruptAll(rows, stop), alive, now1, now2, id);
  }
}
