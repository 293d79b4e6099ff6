/** Steps of the engine while it holds a single task of any configuration: the
    building blocks of the runs that show which guarantees cannot be had. */
module Scenarios {
  import opened Types
  import opened PriorityQueue
  import opened Store
  import opened Queue
  import opened Handlers
  import opened Engine
  import opened Lives
  import opened Steps
  import opened Clocks
  import Chord
  import Cron
  import Overlap
  import RateLimiting

  const ID: Id := "a"

  /** The queue entry of the task. */
  function EntryOf(cfg: TaskConfig): Entry {
    Entry(cfg.priority, ID)
  }

  /** The only task's row, the pending queue and the executions in flight. */
  ghost predicate Sole(s: Sys, made: Task, row: Task, queue: seq<Entry>, flights: seq<Task>) {
    && s.e.q.store.tasks == map[ID := row] && s.e.q.store.inserted == [made] && made.id == ID
    && s.e.q.pending == queue && s.e.q.timers == []
    && FlightsOf(s.e.q, ID) == flights && Overlap.CountOf(s.e.q.running, ID) == |flights|
    && CountEvents(s.e.q.store.events, ID, Succeeded) == row.executionCount
  }

  /** Nothing removed, replaced, modified, refused or saturated so far. */
  ghost predicate Untroubled(s: Sys) {
    s.e.q.refused == {} && s.h.touched == {} && s.h.parked == {}
  }

  /** No scan under way, and no callback waiting. */
  ghost predicate Calm(s: Sys) {
    && s.e.callbacks == [] && s.e.due == [] && s.e.cron.todo == [] && s.e.retry.todo == []
    && Untroubled(s)
  }

  /** A clock reading that does not go back keeps the clock running. */
  ghost predicate Ticks(s: Sys, s': Sys, now: u64) {
    s.h.clock.Some? && s.h.clock.value <= now <= I64_MAX ==> s'.h.clock == Some(now)
  }

  ghost predicate Rests(s: Sys, s': Sys) {
    s'.h.clock == s.h.clock
  }

  lemma NothingParked(e: EngineState, a: Action, e': EngineState)
    requires GivenMax(e, a) == {}
    requires e'.q.store.tasks.Keys == {ID} && !BecameMax(e, a, e', ID)
    ensures Parks(e, a, e') == {}
  {
  }

  lemma HistoryOfStep(p: Params, s: Sys, a: Action)
    requires Enabled(p, s.e, a) && Touches(s.e, a) == {} && Parks(s.e, a, Step(p, s.e, a)) == {}
    ensures var h' := Next(p, s, a).h;
            && h'.touched == s.h.touched && h'.parked == s.h.parked
            && h'.requeued == s.h.requeued + Requeues(s.e, a)
  {
  }

  /** The history of `s`, but for the clock and what was requeued. */
  ghost predicate KeepsBooks(s: Sys, s': Sys) {
    s'.h.touched == s.h.touched && s'.h.parked == s.h.parked && s'.h.requeued == s.h.requeued
  }

  /** A step that touches and parks nothing, told apart from the history. */
  lemma PlainStep(p: Params, s: Sys, a: Action) returns (s': Sys)
    requires Reachable(p, s) && Enabled(p, s.e, a)
    requires Touches(s.e, a) == {} && Parks(s.e, a, Step(p, s.e, a)) == {}
    ensures Reachable(p, s') && s'.e == Step(p, s.e, a)
    ensures s'.h.touched == s.h.touched && s'.h.parked == s.h.parked
    ensures s'.h.requeued == s.h.requeued + Requeues(s.e, a)
    ensures s'.h.clock == Ticked(s.h.clock, Reading(a))
  {
    ReachStep(p, s, a);
    s' := Next(p, s, a);
    HistoryOfStep(p, s, a);
    ClockOfStep(p, s, a);
  }

  lemma MapUpdate(t: Task, t': Task)
    ensures map[ID := t][ID := t'] == map[ID := t']
  {
  }

  lemma OneEntry(cap: nat, e: Entry)
    requires cap >= 1
    ensures Push([], cap, e) == [e]
  {
    assert [e][..0] == [];
    assert StableSort([e]) == [e];
    assert [] + [e] == [e];
  }

  lemma NoIds()
    ensures Ids([]) == {}
  {
  }

  lemma InsertedOnce(s: Sys, t: Task)
    requires s.e.q.store.inserted == [t]
    ensures LifeOf(s, t.id).made == [t]
  {
    MadeAppend([], t, t.id);
    assert [] + [t] == [t];
  }

  lemma SoleIsUnaltered(s: Sys, made: Task, row: Task)
    requires Sole(s, made, row, [], []) && Calm(s)
    ensures LifeOf(s, ID).made == [made] && Unaltered(LifeOf(s, ID)) && Unwrapped(LifeOf(s, ID))
    ensures ID !in s.e.q.refused && ID !in s.h.parked && !Held(LifeOf(s, ID))
  {
    InsertedOnce(s, made);
    NoIds();
  }

  // ----- dispatch, cancel, drop, requeue -----

  /** The task as it is created. */
  function Created(cfg: TaskConfig, nextFire: Option<u64>, now: u64): Task {
    NewTask(ID, cfg, nextFire, now)
  }

  lemma BuiltAlike(o: Cron.Oracle, created: Task)
    requires Cron.IsBuilt(o, created)
    ensures Cron.IsBuilt(o, Created(created.cfg, created.nextFire, created.createdAt))
  {
    var draw: nat :| Cron.InitialNextFire(o, created.cfg, created.createdAt, draw) == Some(created.nextFire);
    var t := Created(created.cfg, created.nextFire, created.createdAt);
    assert Cron.InitialNextFire(o, t.cfg, t.createdAt, draw) == Some(t.nextFire);
  }

  function DispatchOf(t: Task): Action {
    Action.Dispatch(Chord.Built(t.id, t.nextFire), t.cfg, t.createdAt)
  }

  /** What the dispatch queues. */
  function QueueOf(t: Task): seq<Entry> {
    if Waits(t) then [] else [EntryOf(t.cfg)]
  }

  lemma DispatchedQueue(cap: nat, t: Task)
    requires cap >= 1 && t == Created(t.cfg, t.nextFire, t.createdAt)
    ensures DispatchOp(EMPTY_QUEUE, cap, Chord.Built(ID, t.nextFire), t.cfg, t.createdAt).0
         == EMPTY_QUEUE.(store := EMPTY_STORE.(tasks := map[ID := t], inserted := [t]), pending := QueueOf(t))
  {
    OneEntry(cap, EntryOf(t.cfg));
    assert DeleteTask(EMPTY_STORE, ID) == EMPTY_STORE;
  }

  lemma DispatchStep(p: Params, t: Task) returns (s: Sys)
    requires p.cap >= 1 && t == Created(t.cfg, t.nextFire, t.createdAt) && t.nextFire != Some(U64_MAX)
    ensures Reachable(p, s) && Sole(s, t, t, QueueOf(t), []) && Calm(s)
    ensures s.e.q.buckets == map[] && s.h.requeued == {} && s.e.dog == IDLE && s.e.q.store.events == []
    ensures t.createdAt <= I64_MAX ==> s.h.clock == Some(t.createdAt)
  {
    StartIsReachable(p);
    ReachStep(p, START, DispatchOf(t));
    s := Next(p, START, DispatchOf(t));
    DispatchedQueue(p.cap, t);
    NothingParked(START.e, DispatchOf(t), s.e);
    ClockOfStep(p, START, DispatchOf(t));
  }

  function CancelledRow(row: Task, now: u64): Task {
    row.(state := Cancelled, finishedAt := Some(now))
  }

  /** The engine after the cancel of the Pending task. */
  lemma CancelledEngine(p: Params, e: EngineState, row: Task, now: u64)
    requires e.q.store.tasks == map[ID := row] && row.state.Pending?
    ensures Step(p, e, Cancel(ID, now)) == WithStore(e, e.q.store.(
              tasks := map[ID := CancelledRow(row, now)],
              events := e.q.store.events + [Event(ID, CancelledEvent, now)]))
    ensures Parks(e, Cancel(ID, now), Step(p, e, Cancel(ID, now))) == {}
  {
    MapUpdate(row, CancelledRow(row, now));
    NothingParked(e, Cancel(ID, now), Step(p, e, Cancel(ID, now)));
  }

  lemma CancelReaches(p: Params, s: Sys, row: Task, now: u64) returns (s': Sys)
    requires Reachable(p, s) && s.e.q.store.tasks == map[ID := row] && row.state.Pending?
    ensures Reachable(p, s') && KeepsBooks(s, s') && Ticks(s, s', now)
    ensures s'.e == WithStore(s.e, s.e.q.store.(
              tasks := map[ID := CancelledRow(row, now)],
              events := s.e.q.store.events + [Event(ID, CancelledEvent, now)]))
  {
    CancelledEngine(p, s.e, row, now);
    s' := PlainStep(p, s, Cancel(ID, now));
  }

  lemma CancelStep(p: Params, s: Sys, made: Task, row: Task, queue: seq<Entry>, now: u64) returns (s': Sys)
    requires Reachable(p, s) && Sole(s, made, row, queue, []) && Calm(s) && row.state.Pending?
    ensures Reachable(p, s') && Sole(s', made, CancelledRow(row, now), queue, [])
    ensures Calm(s') && s'.e.q.buckets == s.e.q.buckets && s'.e.dog == s.e.dog
    ensures Ticks(s, s', now)
  {
    SilentEvent(s.e.q.store.events, ID, CancelledEvent, now, ID);
    s' := CancelReaches(p, s, row, now);
  }

  /** The prologue drops the queued id of a terminal task. */
  lemma DropStep(p: Params, s: Sys, made: Task, row: Task, e: Entry, now: u64) returns (s': Sys)
    requires Reachable(p, s) && Sole(s, made, row, [e], []) && Calm(s) && row.state.IsTerminal() && e.id == ID
    ensures Reachable(p, s') && Sole(s', made, row, [], []) && Calm(s') && s'.e.q.buckets == s.e.q.buckets
    ensures s'.e.dog == s.e.dog
    ensures Ticks(s, s', now)
  {
    assert s.e.q.pending[1..] == [];
    assert Step(p, s.e, ProcessOne(now)).q == s.e.q.(pending := []);
    NothingParked(s.e, ProcessOne(now), Step(p, s.e, ProcessOne(now)));
    s' := PlainStep(p, s, ProcessOne(now));
  }

  function Requeued(t: Task, now: u64): Task {
    t.(state := Pending, attempts := 0, lastError := None, startedAt := None, finishedAt := None,
       cancelRequested := false, nextFire := Some(now))
  }

  lemma RequeueStep(p: Params, s: Sys, made: Task, row: Task, now: u64) returns (s': Sys)
    requires Reachable(p, s) && Sole(s, made, row, [], []) && Calm(s) && row.state.IsTerminal() && now < U64_MAX
    ensures Reachable(p, s') && Sole(s', made, Requeued(row, now), [], []) && Calm(s')
    ensures s'.e.q.buckets == s.e.q.buckets
    ensures s'.e.dog == s.e.dog
    ensures Ticks(s, s', now)
  {
    MapUpdate(row, Requeued(row, now));
    NothingParked(s.e, Requeue(ID, now), Step(p, s.e, Requeue(ID, now)));
    s' := PlainStep(p, s, Requeue(ID, now));
  }

  /** A task of any configuration can be Pending and due with nothing queued:
      dispatched, cancelled, dropped from the queue if it was queued, and
      requeued. */
  lemma Primed(p: Params, t: Task) returns (s: Sys)
    requires p.cap >= 1 && t == Created(t.cfg, t.nextFire, t.createdAt)
    requires t.nextFire != Some(U64_MAX) && t.createdAt <= I64_MAX
    ensures Reachable(p, s) && Sole(s, t, t.(nextFire := Some(t.createdAt)), [], []) && Calm(s)
    ensures s.e.q.buckets == map[] && s.e.dog == IDLE && s.h.clock == Some(t.createdAt)
  {
    var now := t.createdAt;
    var s1 := DispatchStep(p, t);
    var s2 := CancelStep(p, s1, t, t, QueueOf(t), now);
    var cancelled := CancelledRow(t, now);
    var s3 := s2;
    if !Waits(t) {
      s3 := DropStep(p, s2, t, cancelled, EntryOf(t.cfg), now);
    }
    s := RequeueStep(p, s3, t, cancelled, now);
    assert Requeued(cancelled, now) == t.(nextFire := Some(now));
  }

  // ----- a cron scan -----

  /** Calm but for a cron scan that has listed the row, or has just visited it. */
  ghost predicate Scanning(s: Sys, scan: Scan, due: seq<Id>) {
    && s.e.callbacks == [] && s.e.due == due && s.e.cron == scan && s.e.retry.todo == []
    && Untroubled(s)
  }

  lemma ScanBegins(p: Params, s: Sys, made: Task, row: Task, queue: seq<Entry>, flights: seq<Task>, now: u64)
    returns (s': Sys)
    requires Reachable(p, s) && Sole(s, made, row, queue, flights) && Calm(s)
    requires !row.state.IsTerminal() && row.id == ID
    ensures Reachable(p, s') && Sole(s', made, row, queue, flights) && Scanning(s', Scan([row], now), [])
    ensures s'.e.q == s.e.q && s'.h.requeued == s.h.requeued
    ensures Ticks(s, s', now)
  {
    assert row in [row];
    NothingParked(s.e, CronBegin([row], now), Step(p, s.e, CronBegin([row], now)));
    s' := PlainStep(p, s, CronBegin([row], now));
  }

  /** The visit rewrites the row by the effect of the listed copy. A visit that
      moves the fire time to the sentinel is a run-at task's. */
  lemma ScanVisits(p: Params, s: Sys, made: Task, row: Task, queue: seq<Entry>, flights: seq<Task>, listed: Task,
                   now: u64)
    returns (s': Sys)
    requires Reachable(p, s) && Sole(s, made, row, queue, flights) && Scanning(s, Scan([listed], now), [])
    requires p.batch >= 1 && listed.id == ID
    requires var e := Cron.ScanTask(p.oracle, listed, now, 0);
             e.setNextFire != Some(U64_MAX) || row.cfg.runAt.Some?
    ensures var e := Cron.ScanTask(p.oracle, listed, now, 0);
            && Reachable(p, s') && Sole(s', made, Cron.RowAfter(row, e, now), queue, flights)
            && Scanning(s', Scan([], now), if e.due then [ID] else [])
    ensures Enabled(p, s.e, CronTask(0)) && s'.e == Step(p, s.e, CronTask(0))
    ensures s'.e.q.buckets == s.e.q.buckets && s'.h.requeued == s.h.requeued
    ensures Rests(s, s')
  {
    VisitedEngine(p, s.e, row, listed, now);
    NothingParked(s.e, CronTask(0), Step(p, s.e, CronTask(0)));
    s' := PlainStep(p, s, CronTask(0));
  }

  lemma VisitedEngine(p: Params, e: EngineState, row: Task, listed: Task, now: u64)
    requires e.q.store.tasks == map[ID := row] && e.cron == Scan([listed], now) && listed.id == ID
    ensures var f := Cron.ScanTask(p.oracle, listed, now, 0);
            var e' := CronStep(p, e, 0);
            && e' == e.(q := e.q.(store := e'.q.store), cron := Scan([], now),
                        due := if f.due then e.due + [ID] else e.due)
            && e'.q.store.tasks == map[ID := Cron.RowAfter(row, f, now)]
            && e'.q.store.inserted == e.q.store.inserted
            && CountEvents(e'.q.store.events, ID, Succeeded) == CountEvents(e.q.store.events, ID, Succeeded)
  {
    var f := Cron.ScanTask(p.oracle, listed, now, 0);
    VisitedStore(e.q.store, row, f, now);
    ScanEffects(p.oracle, listed, now, 0);
    ScanTale(e.q.store, ID, f, now, ID);
    assert [listed][1..] == [];
  }

  lemma VisitedStore(s: StoreState, row: Task, e: Cron.ScanEffect, now: u64)
    requires s.tasks == map[ID := row]
    ensures Cron.ApplyEffect(s, ID, e, now).tasks == map[ID := Cron.RowAfter(row, e, now)]
    ensures Cron.ApplyEffect(s, ID, e, now).inserted == s.inserted
  {
    Cron.EffectOnRows(s, ID, e, now);
  }

  /** The batch of one id goes to its callback, and the callback enqueues it. */
  lemma ScanEnds(p: Params, s: Sys, made: Task, row: Task, now: u64) returns (s': Sys)
    requires Reachable(p, s) && Sole(s, made, row, [], []) && Scanning(s, Scan([], now), [ID]) && p.cap >= 1
    ensures Reachable(p, s') && Sole(s', made, row, [EntryOf(row.cfg)], []) && Calm(s')
    ensures s'.e.q.buckets == s.e.q.buckets
    ensures s'.h.requeued == s.h.requeued
    ensures Rests(s, s')
  {
    var mid := BatchGoes(p, s, made, row, now);
    s' := CallbackRuns(p, mid, made, row);
  }

  lemma BatchGoes(p: Params, s: Sys, made: Task, row: Task, now: u64) returns (s': Sys)
    requires Reachable(p, s) && Sole(s, made, row, [], []) && Scanning(s, Scan([], now), [ID])
    ensures Reachable(p, s') && Sole(s', made, row, [], []) && Untroubled(s') && s'.e.q == s.e.q
    ensures s'.e.callbacks == [ID] && s'.e.due == [] && s'.e.cron.todo == [] && s'.e.retry.todo == []
    ensures s'.h.requeued == s.h.requeued
    ensures Rests(s, s')
  {
    NothingParked(s.e, CronEnd, Step(p, s.e, CronEnd));
    s' := PlainStep(p, s, CronEnd);
  }

  lemma SoleEnqueued(q: QueueState, cap: nat, row: Task)
    requires cap >= 1 && q.store.tasks == map[ID := row] && q.pending == []
    ensures CallbackEnqueue(q, cap, ID) == q.(pending := [EntryOf(row.cfg)])
  {
    OneEntry(cap, EntryOf(row.cfg));
  }

  /** The engine after the callback of the only task. */
  lemma CalledEngine(p: Params, e: EngineState, row: Task)
    requires p.cap >= 1 && e.q.store.tasks == map[ID := row] && e.q.pending == [] && e.callbacks == [ID]
    ensures Step(p, e, CallbackEnqueues(0)) == e.(q := e.q.(pending := [EntryOf(row.cfg)]), callbacks := [])
  {
    SoleEnqueued(e.q, p.cap, row);
    assert Without([ID], 0) == [];
  }

  lemma CallbackRuns(p: Params, s: Sys, made: Task, row: Task) returns (s': Sys)
    requires Reachable(p, s) && Sole(s, made, row, [], []) && Untroubled(s) && p.cap >= 1
    requires s.e.callbacks == [ID] && s.e.due == [] && s.e.cron.todo == [] && s.e.retry.todo == []
    ensures Reachable(p, s') && Sole(s', made, row, [EntryOf(row.cfg)], []) && Calm(s')
    ensures s'.e.q.buckets == s.e.q.buckets
    ensures s'.h.requeued == s.h.requeued
    ensures Rests(s, s')
  {
    CalledEngine(p, s.e, row);
    NothingParked(s.e, CallbackEnqueues(0), Step(p, s.e, CallbackEnqueues(0)));
    s' := PlainStep(p, s, CallbackEnqueues(0));
  }

  // ----- a retry scan -----

  lemma RetryBegins(p: Params, s: Sys, made: Task, row: Task, now: u64) returns (s': Sys)
    requires Reachable(p, s) && Sole(s, made, row, [], []) && Calm(s) && !row.state.IsTerminal() && row.id == ID
    ensures Reachable(p, s') && Sole(s', made, row, [], []) && Untroubled(s') && s'.e.q == s.e.q
    ensures s'.e.callbacks == [] && s'.e.due == [] && s'.e.cron.todo == [] && s'.e.retry == Scan([row], now)
    ensures s'.e.dog == s.e.dog
    ensures s'.h.requeued == s.h.requeued
    ensures Ticks(s, s', now)
  {
    assert row in [row];
    NothingParked(s.e, RetryBegin([row], now), Step(p, s.e, RetryBegin([row], now)));
    s' := PlainStep(p, s, RetryBegin([row], now));
  }

  /** The engine after the visit to the only task, which is due. */
  lemma RetriedEngine(p: Params, e: EngineState, row: Task, now: u64)
    requires p.cap >= 1 && e.q.store.tasks == map[ID := row] && e.q.pending == [] && e.retry == Scan([row], now)
    requires IsRetryDue(row, now) && row.id == ID
    ensures Step(p, e, RetryTask) == e.(
              q := e.q.(store := e.q.store.(tasks := map[ID := row.(nextFire := None)]),
                        pending := [EntryOf(row.cfg)]),
              retry := Scan([], now))
    ensures Parks(e, RetryTask, Step(p, e, RetryTask)) == {}
  {
    OneEntry(p.cap, EntryOf(row.cfg));
    MapUpdate(row, row.(nextFire := None));
    assert [row][1..] == [];
    NothingParked(e, RetryTask, Step(p, e, RetryTask));
  }

  /** A due task is queued and its fire time cleared. */
  lemma RetryVisits(p: Params, s: Sys, made: Task, row: Task, now: u64) returns (s': Sys)
    requires Reachable(p, s) && Sole(s, made, row, [], []) && Untroubled(s) && p.cap >= 1
    requires s.e.callbacks == [] && s.e.due == [] && s.e.cron.todo == [] && s.e.retry == Scan([row], now)
    requires IsRetryDue(row, now) && row.id == ID
    ensures Reachable(p, s') && Sole(s', made, row.(nextFire := None), [EntryOf(row.cfg)], []) && Calm(s')
    ensures s'.e.q.buckets == s.e.q.buckets
    ensures s'.e.dog == s.e.dog
    ensures s'.h.requeued == s.h.requeued
    ensures Rests(s, s')
  {
    RetriedEngine(p, s.e, row, now);
    s' := PlainStep(p, s, RetryTask);
  }

  // ----- an execution -----

  function Launched(t: Task, now: u64): Task {
    TaskWithState(t, Running, Some(now), None)
  }

  predicate RateAllows(q: QueueState, t: Task, now: u64) {
    RateLimiting.CheckAndRecord(q.buckets, t.id, t.cfg.rateCount, t.cfg.rateWindow, now).1
  }

  /** No limit, or room in the bucket for one more. */
  predicate HasRoom(q: QueueState, cfg: TaskConfig) {
    cfg.rateCount == 0 || cfg.rateWindow == 0 || |RateLimiting.BucketOf(q.buckets, ID)| < cfg.rateCount
  }

  lemma RoomAllows(q: QueueState, t: Task, now: u64)
    requires t.id == ID && HasRoom(q, t.cfg)
    ensures RateAllows(q, t, now)
    ensures |RateLimiting.BucketOf(Limited(q, t, now).buckets, ID)| <= |RateLimiting.BucketOf(q.buckets, ID)| + 1
  {
    var cutoff := SaturatingSub(now, t.cfg.rateWindow);
    RateLimiting.AboveLength(RateLimiting.BucketOf(q.buckets, ID), cutoff, cutoff);
  }

  /** Nothing of the id in flight and room in its rate-limit bucket: the
      prologue starts a task that is neither expired nor before its start. */
  lemma Admitted(q: QueueState, t: Task, e: Entry, now: u64)
    requires q.store.tasks == map[ID := t] && q.pending == [e] && e.id == ID && t.id == ID && t.state.Pending?
    requires FlightsOf(q, ID) == [] && Overlap.CountOf(q.running, ID) == 0 && RateAllows(q, t, now)
    requires !Cron.IsExpired(t, now) && !Cron.BeforeStart(t.cfg, now)
    ensures Prologue(q, now) == StartTask(Limited(q.(pending := []), t, now), t, now)
  {
    assert q.pending[1..] == [];
  }

  lemma LaunchedQueue(q: QueueState, t: Task, now: u64)
    requires q.store.tasks == map[ID := t] && t.id == ID
    requires FlightsOf(q, ID) == [] && Overlap.CountOf(q.running, ID) == 0
    ensures var q' := StartTask(q, t, now);
            && q'.store.tasks == map[ID := Launched(t, now)] && q'.store.inserted == q.store.inserted
            && CountEvents(q'.store.events, ID, Succeeded) == CountEvents(q.store.events, ID, Succeeded)
            && q'.pending == q.pending && q'.timers == q.timers && q'.refused == q.refused
            && FlightsOf(q', ID) == [t] && Overlap.CountOf(q'.running, ID) == 1
  {
    StartTale(q, t, now, ID);
    MapUpdate(t, Launched(t, now));
  }

  /** The engine after the prologue that starts the only task. */
  lemma StartedEngine(p: Params, e: EngineState, t: Task, entry: Entry, now: u64)
    requires e.q.store.tasks == map[ID := t] && e.q.pending == [entry] && e.retry.todo == []
    requires entry.id == ID && t.id == ID && t.state.Pending? && RateAllows(e.q, t, now)
    requires FlightsOf(e.q, ID) == [] && Overlap.CountOf(e.q.running, ID) == 0
    requires !Cron.IsExpired(t, now) && !Cron.BeforeStart(t.cfg, now)
    ensures Step(p, e, ProcessOne(now)) == e.(q := StartTask(Limited(e.q.(pending := []), t, now), t, now))
  {
    Admitted(e.q, t, entry, now);
  }

  lemma StartParksNothing(p: Params, e: EngineState, t: Task, entry: Entry, now: u64)
    requires e.q.store.tasks == map[ID := t] && e.q.pending == [entry] && e.retry.todo == []
    requires entry.id == ID && t.id == ID && t.state.Pending? && RateAllows(e.q, t, now)
    requires FlightsOf(e.q, ID) == [] && Overlap.CountOf(e.q.running, ID) == 0
    requires !Cron.IsExpired(t, now) && !Cron.BeforeStart(t.cfg, now)
    ensures Parks(e, ProcessOne(now), Step(p, e, ProcessOne(now))) == {}
  {
    StartedEngine(p, e, t, entry, now);
    LaunchedQueue(Limited(e.q.(pending := []), t, now), t, now);
    NothingParked(e, ProcessOne(now), Step(p, e, ProcessOne(now)));
  }

  lemma StartReaches(p: Params, s: Sys, t: Task, entry: Entry, now: u64) returns (s': Sys)
    requires Reachable(p, s)
    requires s.e.q.store.tasks == map[ID := t] && s.e.q.pending == [entry] && s.e.retry.todo == []
    requires entry.id == ID && t.id == ID && t.state.Pending? && RateAllows(s.e.q, t, now)
    requires FlightsOf(s.e.q, ID) == [] && Overlap.CountOf(s.e.q.running, ID) == 0
    requires !Cron.IsExpired(t, now) && !Cron.BeforeStart(t.cfg, now)
    ensures Reachable(p, s') && KeepsBooks(s, s') && Ticks(s, s', now)
    ensures s'.e == s.e.(q := StartTask(Limited(s.e.q.(pending := []), t, now), t, now))
  {
    StartedEngine(p, s.e, t, entry, now);
    StartParksNothing(p, s.e, t, entry, now);
    s' := PlainStep(p, s, ProcessOne(now));
  }

  lemma StartStep(p: Params, s: Sys, made: Task, t: Task, e: Entry, now: u64) returns (s': Sys)
    requires Reachable(p, s) && Sole(s, made, t, [e], []) && Calm(s) && HasRoom(s.e.q, t.cfg)
    requires e.id == ID && t.id == ID && t.state.Pending?
    requires !Cron.IsExpired(t, now) && !Cron.BeforeStart(t.cfg, now)
    ensures Reachable(p, s') && Sole(s', made, Launched(t, now), [], [t]) && Calm(s')
    ensures s'.h.requeued == s.h.requeued && s'.e.dog == s.e.dog
    ensures |RateLimiting.BucketOf(s'.e.q.buckets, ID)| <= |RateLimiting.BucketOf(s.e.q.buckets, ID)| + 1
    ensures Ticks(s, s', now)
  {
    RoomAllows(s.e.q, t, now);
    LaunchedQueue(Limited(s.e.q.(pending := []), t, now), t, now);
    s' := StartReaches(p, s, t, e, now);
  }

  const SUCCESS: Outcome := Completed(DEFAULT_RESULT)

  function FinishOf(now: u64): Action {
    Completion(ID, 0, SUCCESS, Builds(None, None), now)
  }

  /** A periodic task that goes on after its next success. */
  predicate GoesOn(t: Task) {
    && IsPeriodic(t.cfg) && t.executionCount <= 1
    && !(t.cfg.maxExecutions > 0 && t.executionCount + 1 >= t.cfg.maxExecutions)
  }

  /** Such a task after a success. */
  function Finished(t: Task, now: u64): Task {
    t.(state := Pending, finishedAt := Some(now), executionCount := WrappingIncrement(t.executionCount))
  }

  lemma Landing(q: QueueState, cap: nat, row: Task, f: Task, now: u64)
    requires q.store.tasks == map[ID := row] && FlightsOf(q, ID) == [f] && f.id == ID && f.cfg == row.cfg
    requires Overlap.CountOf(q.running, ID) == 1 && GoesOn(row) && !row.cancelRequested
    ensures !Consults(Row(q.store, ID), f, SUCCESS)
    ensures var q' := Complete(q, cap, ID, 0, SUCCESS, Builds(None, None), now);
            && q'.store.tasks == map[ID := Finished(row, now)] && q'.store.inserted == q.store.inserted
            && q'.store.events == q.store.events + [Event(ID, Succeeded, now)]
            && q'.pending == q.pending && q'.timers == q.timers && q'.refused == q.refused
            && q'.buckets == q.buckets
            && FlightsOf(q', ID) == [] && Overlap.CountOf(q'.running, ID) == 0
  {
    assert SettleRow(row, f, SUCCESS, now) == Finished(row, now);
    MapUpdate(row, Finished(row, now));
  }

  lemma FinishGivesNoMax(e: EngineState, f: Task, now: u64)
    requires FlightsOf(e.q, ID) == [f] && !Consults(Row(e.q.store, ID), f, SUCCESS)
    ensures GivenMax(e, FinishOf(now)) == {}
  {
  }

  /** The engine after the success. */
  lemma FinishedEngine(p: Params, e: EngineState, row: Task, f: Task, now: u64)
    requires e.q.store.tasks == map[ID := row] && FlightsOf(e.q, ID) == [f] && f.id == ID && f.cfg == row.cfg
    requires Overlap.CountOf(e.q.running, ID) == 1 && GoesOn(row) && !row.cancelRequested
    ensures Enabled(p, e, FinishOf(now))
    ensures var e' := Step(p, e, FinishOf(now));
            && e' == e.(q := Complete(e.q, p.cap, ID, 0, SUCCESS, Builds(None, None), now))
            && Parks(e, FinishOf(now), e') == {}
  {
    Landing(e.q, p.cap, row, f, now);
    FinishGivesNoMax(e, f, now);
    NothingParked(e, FinishOf(now), Step(p, e, FinishOf(now)));
  }

  lemma FinishReaches(p: Params, s: Sys, row: Task, f: Task, now: u64) returns (s': Sys)
    requires Reachable(p, s)
    requires s.e.q.store.tasks == map[ID := row] && FlightsOf(s.e.q, ID) == [f] && f.id == ID && f.cfg == row.cfg
    requires Overlap.CountOf(s.e.q.running, ID) == 1 && GoesOn(row) && !row.cancelRequested
    ensures Reachable(p, s') && KeepsBooks(s, s') && Ticks(s, s', now)
    ensures s'.e == s.e.(q := Complete(s.e.q, p.cap, ID, 0, SUCCESS, Builds(None, None), now))
  {
    FinishedEngine(p, s.e, row, f, now);
    s' := PlainStep(p, s, FinishOf(now));
  }

  lemma FinishStep(p: Params, s: Sys, made: Task, row: Task, f: Task, now: u64) returns (s': Sys)
    requires Reachable(p, s) && Sole(s, made, row, [], [f]) && Calm(s) && f.id == ID && f.cfg == row.cfg
    requires GoesOn(row) && !row.cancelRequested
    ensures Reachable(p, s') && Sole(s', made, Finished(row, now), [], []) && Calm(s')
    ensures s'.h.requeued == s.h.requeued && s'.e.q.buckets == s.e.q.buckets
    ensures Ticks(s, s', now)
  {
    Landing(s.e.q, p.cap, row, f, now);
    CountAppend(s.e.q.store.events, Event(ID, Succeeded, now), ID, Succeeded);
    s' := FinishReaches(p, s, row, f, now);
  }

  /** A queued periodic task runs once, succeeds and is Pending again, with the
      fire time it had. */
  lemma Executed(p: Params, s: Sys, made: Task, t: Task, e: Entry, now: u64) returns (s': Sys)
    requires Reachable(p, s) && Sole(s, made, t, [e], []) && Calm(s) && HasRoom(s.e.q, t.cfg)
    requires e.id == ID && t.id == ID && t.state.Pending?
    requires !Cron.IsExpired(t, now) && !Cron.BeforeStart(t.cfg, now)
    requires GoesOn(t) && !t.cancelRequested
    ensures Reachable(p, s') && Sole(s', made, Finished(Launched(t, now), now), [], []) && Calm(s')
    ensures s'.h.requeued == s.h.requeued
    ensures |RateLimiting.BucketOf(s'.e.q.buckets, ID)| <= |RateLimiting.BucketOf(s.e.q.buckets, ID)| + 1
    ensures Ticks(s, s', now)
  {
    var s1 := StartStep(p, s, made, t, e, now);
    s' := FinishStep(p, s1, made, Launched(t, now), t, now);
  }
}
