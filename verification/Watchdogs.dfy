/** The running-task watchdog, working from a possibly stale listing. */
module Watchdogs {
  import opened Types
  import opened Store

  /** Judged from the listed copy alone. */
  predicate LooksHung(t: Task, now: u64, factor: u64) {
    && t.state.Running?
    && t.cfg.timeout != 0
    && t.startedAt.Some?
    && SaturatingSub(now, t.startedAt.value) > SaturatingMul(t.cfg.timeout, factor)
  }

  /** One iteration: the listed copy, against the store as it is by then. */
  function WatchTask(s: StoreState, listed: Task, now: u64, factor: u64): StoreState {
    if !LooksHung(listed, now, factor) then s
    else if listed.id !in s.tasks || !s.tasks[listed.id].state.Running? then s
    else RecordEvent(UpdateState(s, listed.id, Interrupted, None, Some(now)), listed.id, HungDetected, now)
  }

  function WatchAll(s: StoreState, list: seq<Task>, now: u64, factor: u64): StoreState {
    if list == [] then s
    else WatchTask(WatchAll(s, list[..|list| - 1], now, factor), list[|list| - 1], now, factor)
  }

  class Watchdog {
    const store: InMemoryStore
    const factor: u64

    constructor (store: InMemoryStore, factor: u64)
      ensures this.store == store && this.factor == factor
    {
      this.store := store;
      this.factor := factor;
    }

    method ScanOnce(now: u64) returns (active: seq<Task>)
      requires Keyed(store.View())
      modifies store
      ensures IsActiveList(old(store.View()), active)
      ensures store.View() == WatchAll(old(store.View()), active, now, factor)
    {
      active := store.LoadActive();
      var i := 0;
      while i < |active|
        invariant 0 <= i <= |active|
        invariant store.View() == WatchAll(old(store.View()), active[..i], now, factor)
      {
        assert active[..i + 1][..i] == active[..i];
        ScanOne(active[i], now);
        i := i + 1;
      }
      assert active[..i] == active;
    }

    /** The body of the scan loop; signalling the executor is left out. */
    method ScanOne(task: Task, now: u64)
      modifies store
      ensures store.View() == WatchTask(old(store.View()), task, now, factor)
    {
      if task.state != Running {
        return;
      }
      if task.cfg.timeout == 0 {
        return;
      }
      if task.startedAt.None? {
        return;
      }
      var elapsed := SaturatingSub(now, task.startedAt.value);
      var threshold := SaturatingMul(task.cfg.timeout, factor);
      if elapsed <= threshold {
        return;
      }
      var reloaded := store.LoadTask(task.id);
      if reloaded.None? || reloaded.value.state != Running {
        return;
      }
      store.SetState(task.id, Interrupted, None, Some(now));
      store.AddEvent(task.id, HungDetected, now);
    }
  }

  /** Running for longer than its timeout times the factor, in whole numbers. */
  predicate IsOverdue(t: Task, now: u64, factor: u64) {
    && t.state == Running && t.cfg.timeout > 0 && t.startedAt.Some?
    && now - t.startedAt.value > t.cfg.timeout * factor
  }

  /** For an arbitrarily stale listing and an arbitrary store: the watchdog
      changes a row only from live Running to Interrupted, only when the listed
      copy exceeded its tolerance, and records exactly one event for it. */
  lemma WatchdogOnlyInterruptsRunning(s: StoreState, listed: Task, now: u64, factor: u64, id: Id)
    ensures var s' := WatchTask(s, listed, now, factor);
            var hit := id in s.tasks && s.tasks[id].state.Running? && listed.id == id && IsOverdue(listed, now, factor);
            && s'.tasks.Keys == s.tasks.Keys
            && (id in s.tasks ==>
                  s'.tasks[id]
                  == if hit then s.tasks[id].(state := Interrupted, finishedAt := Some(now)) else s.tasks[id])
            && CountEvents(s'.events, id, HungDetected)
               == CountEvents(s.events, id, HungDetected) + (if hit then 1 else 0)
  {
    CountAppend(s.events, Event(listed.id, HungDetected, now), id, HungDetected);
  }

  /** An uninterrupted scan interrupts exactly the rows that look hung. */
  lemma {:induction false} ScanInterruptsExactlyTheHung(s: StoreState, list: seq<Task>, now: u64, factor: u64, id: Id)
    requires id in s.tasks
    requires forall i :: 0 <= i < |list| && list[i].id == id ==> list[i] == s.tasks[id]
    requires forall i, j :: 0 <= i < j < |list| ==> list[i].id != list[j].id
    ensures var s' := WatchAll(s, list, now, factor);
            var hit := IsOverdue(s.tasks[id], now, factor) && exists i :: 0 <= i < |list| && list[i].id == id;
            && id in s'.tasks
            && s'.tasks[id] == if hit then s.tasks[id].(state := Interrupted, finishedAt := Some(now)) else s.tasks[id]
  {
    if list != [] {
      var front, last := list[..|list| - 1], list[|list| - 1];
      ScanInterruptsExactlyTheHung(s, front, now, factor, id);
      WatchdogOnlyInterruptsRunning(WatchAll(s, front, now, factor), last, now, factor, id);
      if last.id == id {
        assert list[|list| - 1].id == id;
      } else if exists i :: 0 <= i < |list| && list[i].id == id {
        var i :| 0 <= i < |list| && list[i].id == id;
        assert front[i].id == id;
      }
    }
  }

  /** The reload compares only the state. When the live execution is the one the
      listing saw, an interrupted row truly exceeded its tolerance. */
  lemma SameExecutionIsTrulyHung(s: StoreState, listed: Task, now: u64, factor: u64)
    requires listed.id in s.tasks && WatchTask(s, listed, now, factor) != s
    requires s.tasks[listed.id].startedAt == listed.startedAt && s.tasks[listed.id].cfg == listed.cfg
    ensures IsOverdue(s.tasks[listed.id], now, factor)
  {
  }
}
