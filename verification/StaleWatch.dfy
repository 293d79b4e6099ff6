/** Exactly when the watchdog, working from a listing that went stale, can
    interrupt an execution that has only just begun. */
module StaleWatch {
  import opened Types
  import opened Store
  import opened Queue
  import opened Engine
  import opened Lives
  import opened Steps
  import opened Guarantees
  import opened Clocks
  import opened Scenarios
  import opened Cancels
  import Chord
  import Cron
  import Overlap
  import RateRuns
  import Watchdogs

  /** The watchdog's next step interrupts a live execution of the unaltered task
      although it does not look hung. */
  ghost predicate InterruptsFresh(p: Params, s: Sys, id: Id) {
    && Enabled(p, s.e, DogTask) && id in s.e.q.store.tasks && Unaltered(LifeOf(s, id))
    && TaskOf(s, id).state.Running? && FlightsOf(s.e.q, id) != []
    && !Watchdogs.LooksHung(TaskOf(s, id), s.e.dog.now, p.factor)
    && var s' := Next(p, s, DogTask);
       id in s'.e.q.store.tasks && TaskOf(s', id).state.Interrupted?
  }

  /** In some reachable state it does so to a task of the configuration, created
      as it builds, neither refused nor parked, although no clock went back or
      left the signed range. */
  ghost predicate CanInterruptFresh(p: Params, cfg: TaskConfig) {
    exists s, id :: Reachable(p, s) && IsTaskOf(p, s, id, cfg) && InterruptsFresh(p, s, id)
  }

  ghost predicate IsTaskOf(p: Params, s: Sys, id: Id, cfg: TaskConfig) {
    && LifeOf(s, id).made != [] && LifeOf(s, id).made[0].cfg == cfg
    && Cron.IsBuilt(p.oracle, LifeOf(s, id).made[0])
    && id !in s.e.q.refused && id !in s.h.parked && s.h.clock.Some?
  }

  /** The signed range leaves an execution begun then the time to look hung. */
  ghost predicate LooksHungAfter(p: Params, created: Task, start: u64) {
    && StartsAt(p.oracle, created, start)
    && created.cfg.timeout > 0 && start + created.cfg.timeout * p.factor < I64_MAX
  }

  ghost predicate CanLookHung(p: Params, cfg: TaskConfig) {
    exists created: Task, start: u64 :: created.cfg == cfg && LooksHungAfter(p, created, start)
  }

  // ----- it can, if the first execution has the time to look hung -----

  lemma ListStep(p: Params, s: Sys, made: Task, row: Task, f: Task, now: u64) returns (s': Sys)
    requires Reachable(p, s) && Sole(s, made, row, [], [f]) && Calm(s) && s.e.dog.todo == []
    requires row.id == ID && row.state.Running?
    ensures Reachable(p, s') && Sole(s', made, row, [], [f]) && Calm(s') && s'.e.dog == Scan([row], now)
    ensures s'.e.q == s.e.q && Ticks(s, s', now)
  {
    assert row in [row];
    NothingParked(s.e, DogBegin([row], now), Step(p, s.e, DogBegin([row], now)));
    s' := PlainStep(p, s, DogBegin([row], now));
  }

  lemma RequestStep(p: Params, s: Sys, made: Task, row: Task, f: Task, now: u64) returns (s': Sys)
    requires Reachable(p, s) && Sole(s, made, row, [], [f]) && Calm(s) && row.state.Running?
    ensures Reachable(p, s') && Sole(s', made, row.(cancelRequested := true), [], [f]) && Calm(s')
    ensures s'.e.dog == s.e.dog && s'.e.q.buckets == s.e.q.buckets && Ticks(s, s', now)
  {
    MapUpdate(row, row.(cancelRequested := true));
    NothingParked(s.e, Cancel(ID, now), Step(p, s.e, Cancel(ID, now)));
    s' := PlainStep(p, s, Cancel(ID, now));
  }

  lemma AbortedQueue(q: QueueState, cap: nat, row: Task, f: Task, now: u64)
    requires q.store.tasks == map[ID := row] && FlightsOf(q, ID) == [f] && f.id == ID && row.cancelRequested
    requires Overlap.CountOf(q.running, ID) == 1
    ensures !Consults(Row(q.store, ID), f, ABORT)
    ensures var q' := Complete(q, cap, ID, 0, ABORT, Builds(None, None), now);
            && q'.store.tasks == map[ID := CancelledRow(row, now)] && q'.store.inserted == q.store.inserted
            && q'.store.events == q.store.events + [Event(ID, CancelledEvent, now)]
            && q'.pending == q.pending && q'.timers == q.timers && q'.refused == q.refused
            && q'.buckets == q.buckets
            && FlightsOf(q', ID) == [] && Overlap.CountOf(q'.running, ID) == 0
  {
    MapUpdate(row, CancelledRow(row, now));
  }

  lemma AbortedEngine(p: Params, e: EngineState, row: Task, f: Task, now: u64)
    requires e.q.store.tasks == map[ID := row] && FlightsOf(e.q, ID) == [f] && f.id == ID && row.cancelRequested
    requires Overlap.CountOf(e.q.running, ID) == 1
    ensures Enabled(p, e, AbortOf(ID, now))
    ensures Step(p, e, AbortOf(ID, now)) == e.(q := Complete(e.q, p.cap, ID, 0, ABORT, Builds(None, None), now))
    ensures Parks(e, AbortOf(ID, now), Step(p, e, AbortOf(ID, now))) == {}
  {
    AbortedQueue(e.q, p.cap, row, f, now);
    NothingParked(e, AbortOf(ID, now), Step(p, e, AbortOf(ID, now)));
  }

  lemma AbortReaches(p: Params, s: Sys, row: Task, f: Task, now: u64) returns (s': Sys)
    requires Reachable(p, s)
    requires s.e.q.store.tasks == map[ID := row] && FlightsOf(s.e.q, ID) == [f] && f.id == ID && row.cancelRequested
    requires Overlap.CountOf(s.e.q.running, ID) == 1
    ensures Reachable(p, s') && KeepsBooks(s, s') && Ticks(s, s', now)
    ensures s'.e == s.e.(q := Complete(s.e.q, p.cap, ID, 0, ABORT, Builds(None, None), now))
  {
    AbortedEngine(p, s.e, row, f, now);
    s' := PlainStep(p, s, AbortOf(ID, now));
  }

  lemma AbortStep(p: Params, s: Sys, made: Task, row: Task, f: Task, now: u64) returns (s': Sys)
    requires Reachable(p, s) && Sole(s, made, row, [], [f]) && Calm(s) && f.id == ID && row.cancelRequested
    ensures Reachable(p, s') && Sole(s', made, CancelledRow(row, now), [], []) && Calm(s')
    ensures s'.e.dog == s.e.dog && s'.e.q.buckets == s.e.q.buckets && Ticks(s, s', now)
  {
    AbortedQueue(s.e.q, p.cap, row, f, now);
    SilentEvent(s.e.q.store.events, ID, CancelledEvent, now, ID);
    s' := AbortReaches(p, s, row, f, now);
  }

  /** A configuration with no cron expression, expiry or rate limit. */
  predicate IsUnhurried(cfg: TaskConfig) {
    cfg.cron.None? && cfg.expires == 0 && cfg.rateCount == 0
  }

  /** Due and not queued, the task is queued by the retry scan and started. */
  lemma DueStarts(p: Params, s: Sys, made: Task, due: Task, listed: u64, now: u64) returns (s': Sys)
    requires p.cap >= 1 && Reachable(p, s) && Sole(s, made, due, [], []) && Calm(s)
    requires due.id == ID && due.state.Pending? && due.nextFire.Some? && due.nextFire.value <= listed
    requires IsUnhurried(due.cfg) && !Cron.BeforeStart(due.cfg, now)
    requires s.h.clock.Some? && s.h.clock.value <= listed <= now <= I64_MAX
    ensures var run := due.(nextFire := None);
            Reachable(p, s') && Sole(s', made, Launched(run, now), [], [run]) && Calm(s')
    ensures s'.e.dog == s.e.dog && s'.h.clock == Some(now)
  {
    var run := due.(nextFire := None);
    var s1 := RetryBegins(p, s, made, due, listed);
    var s2 := RetryVisits(p, s1, made, due, listed);
    s' := StartStep(p, s2, made, run, EntryOf(due.cfg), now);
  }

  /** The moment the execution is listed as hung. */
  function HungAt(p: Params, t: Task, start: u64): nat {
    start + t.cfg.timeout * p.factor + 1
  }

  /** The first execution, listed as hung. */
  lemma FirstExecution(p: Params, t: Task, start: u64) returns (s: Sys)
    requires p.cap >= 1 && t == Created(t.cfg, t.nextFire, t.createdAt)
    requires IsUnhurried(t.cfg) && LooksHungAfter(p, t, start)
    ensures var run, late := t.(nextFire := None), HungAt(p, t, start);
            && Reachable(p, s) && Sole(s, t, Launched(run, start), [], [run]) && Calm(s)
            && s.e.dog == Scan([Launched(run, start)], late) && s.h.clock == Some(late)
  {
    var run := t.(nextFire := None);
    var s0 := Primed(p, t);
    var s1 := DueStarts(p, s0, t, t.(nextFire := Some(t.createdAt)), t.createdAt, start);
    s := ListStep(p, s1, t, Launched(run, start), run, HungAt(p, t, start));
  }

  /** It is cancelled, and its task requeued. */
  lemma CancelledAndRequeued(p: Params, t: Task, start: u64) returns (s: Sys)
    requires p.cap >= 1 && t == Created(t.cfg, t.nextFire, t.createdAt)
    requires IsUnhurried(t.cfg) && LooksHungAfter(p, t, start)
    ensures var run, late := t.(nextFire := None), HungAt(p, t, start);
            && Reachable(p, s) && Sole(s, t, t.(nextFire := Some(late)), [], []) && Calm(s)
            && s.e.dog == Scan([Launched(run, start)], late) && s.h.clock == Some(late)
  {
    var late := HungAt(p, t, start);
    var run := t.(nextFire := None);
    var running := Launched(run, start);
    var s2 := FirstExecution(p, t, start);
    var s3 := RequestStep(p, s2, t, running, run, late);
    var s4 := AbortStep(p, s3, t, running.(cancelRequested := true), run, late);
    s := RequeueStep(p, s4, t, CancelledRow(running.(cancelRequested := true), late), late);
    assert Requeued(CancelledRow(running.(cancelRequested := true), late), late) == t.(nextFire := Some(late));
  }

  /** The task is executed again at the very moment its first execution was
      listed as hung, and the watchdog, reaching the listed copy, interrupts the
      new execution. */
  lemma StaleListingInterruptsFreshRun(p: Params, t: Task, start: u64) returns (s: Sys)
    requires p.cap >= 1 && t == Created(t.cfg, t.nextFire, t.createdAt)
    requires IsUnhurried(t.cfg) && LooksHungAfter(p, t, start)
    ensures Reachable(p, s) && LifeOf(s, ID).made == [t] && InterruptsFresh(p, s, ID)
    ensures ID !in s.e.q.refused && ID !in s.h.parked && s.h.clock.Some?
  {
    var late := HungAt(p, t, start);
    var run := t.(nextFire := None);
    var s1 := CancelledAndRequeued(p, t, start);
    s := DueStarts(p, s1, t, t.(nextFire := Some(late)), late, late);
    InsertedOnce(s, t);
    FreshIsInterrupted(p, s, t, run, start, late);
  }

  lemma FreshIsInterrupted(p: Params, s: Sys, made: Task, run: Task, start: u64, late: u64)
    requires Sole(s, made, Launched(run, late), [], [run]) && Calm(s) && LifeOf(s, ID).made == [made]
    requires run == made.(nextFire := None) && made.id == ID
    requires made.cfg.timeout > 0 && late == HungAt(p, made, start)
    requires s.e.dog == Scan([Launched(run, start)], late)
    ensures InterruptsFresh(p, s, ID)
  {
    assert Watchdogs.LooksHung(Launched(run, start), late, p.factor);
  }

  // ----- only then -----

  /** The row's start time stays, or is cleared. */
  predicate KeepsStart(s: StoreState, s': StoreState, id: Id) {
    id in s'.tasks ==>
      || s'.tasks[id].startedAt.None?
      || (id in s.tasks && s'.tasks[id].startedAt == s.tasks[id].startedAt)
  }

  lemma AddsKeepsStart(q: QueueState, q': QueueState, cap: nat, t: Task, id: Id)
    requires Adds(q, q', cap, t) && t.startedAt.None?
    ensures KeepsStart(q.store, q'.store, id)
  {
  }

  lemma AdvanceKeepsStart(q: QueueState, cap: nat, c: Id, built: Option<Chord.Built>, now: u64, id: Id)
    ensures KeepsStart(q.store, AdvanceAndDispatch(q, cap, c, built, now).store, id)
  {
    AdvanceAdds(q, cap, c, built, now);
  }

  lemma NotifyKeepsStart(q: QueueState, cap: nat, f: Task, final: TaskState, builds: Builds, now: u64, id: Id)
    ensures KeepsStart(q.store, Notify(q, cap, f, final, builds, now).store, id)
  {
    var mid := NotifyChain(q, cap, f, final, builds.step, now);
    if f.cfg.chainId.Some? {
      AdvanceKeepsStart(q, cap, f.cfg.chainId.value, builds.step, now, id);
    }
    ChordAdds(mid, cap, f, builds.callback, now);
  }

  lemma SettleKeepsStart(s: StoreState, f: Task, out: Outcome, now: u64, id: Id)
    ensures KeepsStart(s, Settle(s, f, out, now), id)
  {
  }

  lemma CompletionKeepsStart(q: QueueState, cap: nat, id': Id, k: nat, out: Outcome, builds: Builds, now: u64, id: Id)
    requires id' in q.flights && k < |q.flights[id']|
    ensures KeepsStart(q.store, Complete(q, cap, id', k, out, builds, now).store, id)
  {
    var f, q1 := q.flights[id'][k], Landed(q, id', k, out, now);
    CompleteIsNotified(q, id', k, cap, out, builds, now);
    SettleKeepsStart(q.store, f, out, now, id);
    NotifyKeepsStart(q1, cap, f, FinalState(q1.store, f), builds, now, id);
  }

  lemma InsertionKeepsStart(p: Params, e: EngineState, a: Action, id: Id)
    requires Enabled(p, e, a) && IsInsertion(a)
    ensures KeepsStart(e.q.store, Step(p, e, a).q.store, id)
  {
    match a
    case Dispatch(b, cfg, now) =>
      if cfg.replaceExisting || b.id !in e.q.store.tasks {
        DispatchAdds(e.q, p.cap, b, cfg, now);
      }
    case NewChain(c, tasks, built, now) =>
      AdvanceKeepsStart(e.q.(store := CreateChain(e.q.store, c, tasks)), p.cap, c, built, now, id);
    case _ =>
  }

  lemma CancelKeepsStart(s: StoreState, id': Id, now: u64, id: Id)
    ensures KeepsStart(s, CancelTask(s, id', now).0, id)
    ensures KeepsStart(s, RequeueTask(s, id', now).0, id)
  {
  }

  lemma ModifyKeepsStart(s: StoreState, id': Id, cfg: TaskConfig, paused: bool, next: Option<u64>, id: Id)
    ensures KeepsStart(s, ModifyTask(s, id', cfg, paused, next), id)
  {
  }

  lemma PauseKeepsStart(s: StoreState, id': Id, paused: bool, id: Id)
    ensures KeepsStart(s, PauseTask(s, id', paused), id)
    ensures KeepsStart(s, DeleteTask(s, id'), id)
  {
  }

  lemma RequestKeepsStart(p: Params, e: EngineState, a: Action, id: Id)
    requires Enabled(p, e, a) && (IsRowRequest(a) || a.Cancel?)
    ensures KeepsStart(e.q.store, Step(p, e, a).q.store, id)
  {
    match a
    case Cancel(id', now) => CancelKeepsStart(e.q.store, id', now, id);
    case Requeue(id', now) => CancelKeepsStart(e.q.store, id', now, id);
    case Modify(id', cfg, paused, next) => ModifyKeepsStart(e.q.store, id', cfg, paused, next, id);
    case SetPaused(id', paused) => PauseKeepsStart(e.q.store, id', paused, id);
    case Remove(id') => PauseKeepsStart(e.q.store, id', false, id);
  }

  lemma ScanKeepsStart(p: Params, e: EngineState, draw: nat, id: Id)
    requires e.cron.todo != []
    ensures KeepsStart(e.q.store, CronStep(p, e, draw).q.store, id)
  {
    var t, now := e.cron.todo[0], e.cron.now;
    Cron.EffectOnRows(e.q.store, t.id, Cron.ScanTask(p.oracle, t, now, draw), now);
  }

  lemma StepKeepsStart(p: Params, e: EngineState, a: Action, id: Id)
    requires Enabled(p, e, a) && !a.ProcessOne?
    ensures KeepsStart(e.q.store, Step(p, e, a).q.store, id)
  {
    if a.Completion? {
      CompletionKeepsStart(e.q, p.cap, a.id, a.k, a.out, a.builds, a.now, id);
    } else if IsInsertion(a) {
      InsertionKeepsStart(p, e, a, id);
    } else if IsRowRequest(a) || a.Cancel? {
      RequestKeepsStart(p, e, a, id);
    } else if a.CronTask? {
      ScanKeepsStart(p, e, a.draw, id);
    }
  }

  lemma AdmitMovesStart(q: QueueState, t: Task, now: u64, id: Id)
    requires Row(q.store, t.id) == Some(t)
    ensures KeepsStart(q.store, Admit(q, t, now).store, id)
         || (id == t.id && MayStart(t, now) && id in Admit(q, t, now).store.tasks
             && Admit(q, t, now).store.tasks[id].startedAt == Some(now))
  {
    AdmitOwn(q, t, now);
  }

  lemma PrologueMovesStart(q: QueueState, now: u64, id: Id)
    requires Keyed(q.store)
    ensures KeepsStart(q.store, Prologue(q, now).store, id)
         || (id in q.store.tasks && MayStart(q.store.tasks[id], now) && id in Prologue(q, now).store.tasks
             && Prologue(q, now).store.tasks[id].startedAt == Some(now))
  {
    if q.pending != [] && q.pending[0].id in q.store.tasks {
      AdmitMovesStart(q.(pending := q.pending[1..]), q.store.tasks[q.pending[0].id], now, id);
    }
  }

  /** Started, if at all, after its creation and not before its start date. */
  predicate StartedFairly(created: Task, t: Task) {
    t.startedAt.Some? ==>
      created.createdAt <= t.startedAt.value <= I64_MAX && !Cron.BeforeStart(created.cfg, t.startedAt.value)
  }

  ghost predicate ListedFairly(created: Task, listed: set<Task>) {
    forall t :: t in listed ==> t.cfg == created.cfg && StartedFairly(created, t)
  }

  /** While the clock runs, the row of an unaltered task and its copies in the
      watchdog's listing started fairly; other ids are not listed. */
  ghost predicate DogFair(s: Sys, id: Id) {
    && (LifeOf(s, id).made == [] ==> Listed(s.e.dog.todo, id) == {})
    && (s.h.clock.Some? ==>
          && s.e.dog.now <= I64_MAX
          && (Unaltered(LifeOf(s, id)) && id in s.e.q.store.tasks ==>
                && StartedFairly(LifeOf(s, id).made[0], TaskOf(s, id))
                && ListedFairly(LifeOf(s, id).made[0], Listed(s.e.dog.todo, id))))
  }

  /** The listing shrinks, or is made anew. */
  lemma DogListing(p: Params, e: EngineState, a: Action, id: Id)
    requires Enabled(p, e, a)
    ensures a.DogBegin? ==>
              Step(p, e, a).dog == Scan(a.list, a.now)
              && (Listed(a.list, id) == {}
                  || (id in e.q.store.tasks && Listed(a.list, id) == {e.q.store.tasks[id]}))
    ensures !a.DogBegin? ==>
              Step(p, e, a).dog.now == e.dog.now && Listed(Step(p, e, a).dog.todo, id) <= Listed(e.dog.todo, id)
  {
    if a.DogBegin? {
      ListedIsRow(e.q.store, a.list, id);
    }
  }

  lemma MoveStartsFairly(p: Params, s: Sys, a: Action, s': Sys, id: Id, created: Task)
    requires AllWell(s) && Moves(p, s, a, s') && s'.h.clock.Some? && id in s'.e.q.store.tasks
    requires id in s.e.q.store.tasks ==> TaskOf(s, id).cfg == created.cfg && StartedFairly(created, TaskOf(s, id))
    requires Reading(a).Some? && id in s.e.q.store.tasks ==> created.createdAt <= Reading(a).value <= I64_MAX
    ensures StartedFairly(created, TaskOf(s', id))
  {
    if a.ProcessOne? {
      RateRuns.KeyedRows(s);
      PrologueMovesStart(s.e.q, a.now, id);
    } else {
      StepKeepsStart(p, s.e, a, id);
    }
  }

  lemma NewIsDogFair(p: Params, s: Sys, a: Action, s': Sys, id: Id)
    requires AllWell(s) && Moves(p, s, a, s') && DogFair(s, id) && LifeOf(s, id).made == []
    requires s'.h.clock.Some? ==> s'.e.dog.now <= I64_MAX
    ensures DogFair(s', id)
  {
    assert Well(s, id);
    DogListing(p, s.e, a, id);
    if s'.h.clock.Some? && Unaltered(LifeOf(s', id)) && id in s'.e.q.store.tasks {
      MoveStartsFairly(p, s, a, s', id, LifeOf(s', id).made[0]);
    }
  }

  lemma OldIsDogFair(p: Params, s: Sys, a: Action, s': Sys, id: Id)
    requires AllWell(s) && Moves(p, s, a, s') && DogFair(s, id) && Timely(s, id) && LifeOf(s, id).made != []
    requires s'.h.clock.Some? && Unaltered(LifeOf(s', id)) && id in s'.e.q.store.tasks
    ensures StartedFairly(LifeOf(s', id).made[0], TaskOf(s', id))
    ensures ListedFairly(LifeOf(s', id).made[0], Listed(s'.e.dog.todo, id))
  {
    assert Well(s, id);
    ScanClock(p, s, a, s');
    UnalteredBefore(p, s, a, s', id);
    DogListing(p, s.e, a, id);
    MoveStartsFairly(p, s, a, s', id, LifeOf(s, id).made[0]);
  }

  lemma DogClock(p: Params, s: Sys, a: Action, s': Sys, id: Id)
    requires Moves(p, s, a, s') && Timely(s, id) && DogFair(s, id) && s'.h.clock.Some?
    ensures s'.e.dog.now <= I64_MAX
  {
    ScanClock(p, s, a, s');
    DogListing(p, s.e, a, id);
  }

  lemma StepIsDogFair(p: Params, s: Sys, a: Action, s': Sys, id: Id)
    requires AllWell(s) && Moves(p, s, a, s') && DogFair(s, id) && Timely(s, id)
    ensures DogFair(s', id)
  {
    if s'.h.clock.Some? {
      DogClock(p, s, a, s', id);
    }
    if LifeOf(s, id).made == [] {
      NewIsDogFair(p, s, a, s', id);
    } else {
      MadeStays(p, s, a, s', id);
      if s'.h.clock.Some? && Unaltered(LifeOf(s', id)) && id in s'.e.q.store.tasks {
        OldIsDogFair(p, s, a, s', id);
      }
    }
  }

  lemma {:induction false} TraceIsDogFair(p: Params, states: seq<Sys>, actions: seq<Action>, k: nat, id: Id)
    requires IsTrace(p, states, actions) && k <= |actions|
    ensures DogFair(states[k], id)
  {
    if k > 0 {
      TraceIsDogFair(p, states, actions, k - 1, id);
      TraceIsTimely(p, states, actions, k - 1, id);
      TraceIsWell(p, states, actions, k - 1);
      assert MovesAt(p, states, actions, k - 1);
      StepIsDogFair(p, states[k - 1], actions[k - 1], states[k], id);
    }
  }

  lemma ReachableIsDogFair(p: Params, s: Sys, id: Id)
    requires Reachable(p, s)
    ensures DogFair(s, id)
  {
    var states, actions :| IsTrace(p, states, actions) && states[|actions|] == s;
    TraceIsDogFair(p, states, actions, |actions|, id);
  }

  /** Only a listed copy that looks hung interrupts. */
  lemma FreshIsListedHung(p: Params, s: Sys, id: Id)
    requires InterruptsFresh(p, s, id)
    ensures s.e.dog.todo[0] in Listed(s.e.dog.todo, id)
    ensures Watchdogs.LooksHung(s.e.dog.todo[0], s.e.dog.now, p.factor)
  {
  }

  lemma HungTakes(p: Params, created: Task, t: Task, now: u64)
    requires Watchdogs.LooksHung(t, now, p.factor) && now <= I64_MAX
    requires t.cfg == created.cfg && StartedFairly(created, t)
    requires created.cfg.expires == 0 && Cron.IsBuilt(p.oracle, created) && created.nextFire != Some(U64_MAX)
    ensures CanLookHung(p, created.cfg)
  {
    assert created.cfg == created.cfg && LooksHungAfter(p, created, t.startedAt.value);
  }

  lemma InterruptTakes(p: Params, s: Sys, id: Id, cfg: TaskConfig)
    requires Reachable(p, s) && IsTaskOf(p, s, id, cfg) && InterruptsFresh(p, s, id) && cfg.expires == 0
    ensures CanLookHung(p, cfg)
  {
    ReachableIsDogFair(p, s, id);
    ReachableIsWell(p, s, id);
    FreshIsListedHung(p, s, id);
    HungTakes(p, LifeOf(s, id).made[0], s.e.dog.todo[0], s.e.dog.now);
  }

  /** For every configuration with no cron expression, expiry or rate limit: the
      watchdog can interrupt a fresh execution of a task of it if and only if the
      configuration has a timeout, and some task of it builds and can start at a
      time that leaves an execution the time to look hung. */
  lemma CanInterruptFreshIff(p: Params, cfg: TaskConfig)
    requires p.cap >= 1 && IsUnhurried(cfg)
    ensures CanInterruptFresh(p, cfg) <==> CanLookHung(p, cfg)
  {
    if CanLookHung(p, cfg) {
      var created: Task, start: u64 :| created.cfg == cfg && LooksHungAfter(p, created, start);
      var t := Created(cfg, created.nextFire, created.createdAt);
      BuiltAlike(p.oracle, created);
      var s := StaleListingInterruptsFreshRun(p, t, start);
      assert Reachable(p, s) && IsTaskOf(p, s, ID, cfg) && InterruptsFresh(p, s, ID);
    } else if CanInterruptFresh(p, cfg) {
      var s, id :| Reachable(p, s) && IsTaskOf(p, s, id, cfg) && InterruptsFresh(p, s, id);
      InterruptTakes(p, s, id, cfg);
    }
  }
}
