/** The background task queue: the dispatch prologue, the completion of a task
    future, the retry scan, and the object that performs them.

    A store or counter access of the program is one call here. Each operation is
    a function on the queue's whole state and a method proved equal to it. */
module Queue {
  import opened Types
  import opened PriorityQueue
  import opened RateLimiting
  import opened Store
  import opened Overlap
  import opened Retry
  import Cron
  import Chain
  import Chord

  /** `timers` are the spawned delayed re-enqueues; `flights` the spawned task
      futures, each holding the copy of the task it was dispatched with;
      `refused` is a history of the ids whose only enqueue met a full queue. */
  datatype QueueState = QueueState(
    store: StoreState,
    pending: seq<Entry>,
    timers: seq<Entry>,
    flights: map<Id, seq<Task>>,
    running: Counters,
    buckets: Buckets,
    refused: set<Id>)

  const EMPTY_QUEUE: QueueState := QueueState(EMPTY_STORE, [], [], map[], map[], map[], {})

  /** What the executor did: a result, or an error without one. */
  datatype Outcome = Completed(result: TaskResult) | DispatchError(message: string)

  function FlightsOf(q: QueueState, id: Id): seq<Task> {
    if id in q.flights then q.flights[id] else []
  }

  function AddFlight(flights: map<Id, seq<Task>>, t: Task): map<Id, seq<Task>> {
    flights[t.id := (if t.id in flights then flights[t.id] else []) + [t]]
  }

  function EnqueueId(q: QueueState, cap: nat, id: Id, priority: int): QueueState {
    q.(pending := Push(q.pending, cap, Entry(priority, id)),
       refused := if |q.pending| >= cap then q.refused + {id} else q.refused)
  }

  function AddTimer(q: QueueState, t: Task): QueueState {
    q.(timers := q.timers + [Entry(t.cfg.priority, t.id)])
  }

  // ----- the dispatch prologue -----

  function ExpireNow(q: QueueState, t: Task, now: u64): QueueState {
    q.(store := RecordEvent(UpdateState(q.store, t.id, Expired, None, Some(now)), t.id, ExpiredEvent, now))
  }

  function HoldForRate(q: QueueState, t: Task, now: u64): QueueState {
    var s := RecordEvent(q.store, t.id, RateLimited, now);
    var s' := if t.cfg.cron.Some? || t.cfg.interval.Some?
              then UpdateNextFire(s, t.id, Some(WrappingAdd(now, t.cfg.rateWindow)))
              else s;
    AddTimer(q.(store := s'), t)
  }

  function HoldForOverlap(q: QueueState, t: Task, now: u64): QueueState {
    AddTimer(q.(store := RecordEvent(q.store, t.id, MaxInstancesReached, now)), t)
  }

  function StartTask(q: QueueState, t: Task, now: u64): QueueState {
    q.(store := RecordEvent(UpdateState(q.store, t.id, Running, Some(now), None), t.id, Started, now),
       running := CountUp(q.running, t.id),
       flights := AddFlight(q.flights, t))
  }

  function LimitThenStart(q: QueueState, t: Task, now: u64): QueueState {
    var (buckets, allowed) := CheckAndRecord(q.buckets, t.id, t.cfg.rateCount, t.cfg.rateWindow, now);
    var q1 := q.(buckets := buckets);
    if !allowed then HoldForRate(q1, t, now)
    else if !MayFire(q1.running, q1.store, t) then HoldForOverlap(q1, t, now)
    else StartTask(q1, t, now)
  }

  /** Everything after the drained task was loaded and found not terminal. */
  function Admit(q: QueueState, t: Task, now: u64): QueueState {
    if Cron.IsExpired(t, now) then ExpireNow(q, t, now)
    else if Cron.BeforeStart(t.cfg, now) then AddTimer(q, t)
    else LimitThenStart(q, t, now)
  }

  function Prologue(q: QueueState, now: u64): QueueState {
    if q.pending == [] then q
    else
      var id := q.pending[0].id;
      var q1 := q.(pending := q.pending[1..]);
      if id !in q1.store.tasks || q1.store.tasks[id].state.IsTerminal() then q1
      else Admit(q1, q1.store.tasks[id], now)
  }

  // ----- what a completion does to the task's row -----

  function GivenUp(t: Task, f: Task, error: ErrorText, now: u64): Task {
    t.(state := Failed, finishedAt := Some(now), attempts := SaturatingIncrement(f.attempts), lastError := Some(error))
  }

  function Rescheduled(t: Task, f: Task, error: ErrorText, next: u64): Task {
    t.(state := Pending, nextFire := Some(next), attempts := SaturatingIncrement(f.attempts), lastError := Some(error))
  }

  /** `schedule_retry` on a row, and whether a retry was scheduled. */
  function ScheduleRetry(t: Task, f: Task, error: ErrorText, maxAttempts: u32, now: u64): (Task, bool) {
    if f.attempts >= maxAttempts then (GivenUp(t, f, error, now), false)
    else (Rescheduled(t, f, error, NextRetryTs(f.cfg, f.attempts, now)), true)
  }

  /** A failed execution: consult the policy, then fail for good or retry. */
  function FailOrRetry(t: Task, f: Task, result: TaskResult, error: ErrorText, now: u64): Task {
    if ShouldRetry(f.cfg, f.attempts, EffectiveMax(f.cfg), result) then
      ScheduleRetry(t, f, error, EffectiveMax(f.cfg), now).0
    else GivenUp(t, f, NotRetryable(error), now)
  }

  predicate IsPeriodic(cfg: TaskConfig) {
    cfg.cron.Some? || cfg.interval.Some?
  }

  /** A successful execution is counted; it ends the task unless the task is
      periodic and below its maximum. */
  function Succeed(t: Task, f: Task, now: u64): Task {
    var n := WrappingIncrement(t.executionCount);
    var goesOn := IsPeriodic(f.cfg) && !(f.cfg.maxExecutions > 0 && n >= f.cfg.maxExecutions);
    t.(state := if goesOn then Pending else Success, finishedAt := Some(now), executionCount := n)
  }

  function FailureText(f: Task, result: TaskResult): ErrorText {
    match f.cfg.taskType
    case Http => HttpStatus(result.statusCode.GetOr(0))
    case Shell => ShellExit(result.exitCode.GetOr(-1))
  }

  /** The four ways a future ends, given the row as it is by then. */
  function ExitOf(row: Option<Task>, out: Outcome): ExitPath {
    if row.Some? && row.value.cancelRequested then CancelExit
    else if out.Completed? then NormalExit
    else if row.Some? && row.value.state.Interrupted? then AlreadyInterruptedExit
    else DispatchErrorExit
  }

  function SettleRow(t: Task, f: Task, out: Outcome, now: u64): Task {
    match ExitOf(Some(t), out)
    case CancelExit => t.(state := Cancelled, finishedAt := Some(now))
    case AlreadyInterruptedExit => t
    case DispatchErrorExit => FailOrRetry(t, f, DEFAULT_RESULT, Dispatch(out.message), now)
    case NormalExit =>
      if IsSuccess(f.cfg, out.result) then Succeed(t, f, now)
      else FailOrRetry(t, f, out.result, FailureText(f, out.result), now)
  }

  /** The event a completion records, if any. */
  function SettleEvent(row: Option<Task>, f: Task, out: Outcome): Option<EventType> {
    match ExitOf(row, out)
    case CancelExit => Some(CancelledEvent)
    case AlreadyInterruptedExit => None
    case DispatchErrorExit => None
    case NormalExit =>
      if !IsSuccess(f.cfg, out.result) then Some(FailedEvent)
      else if IsPeriodic(f.cfg) && row.None? then None
      else Some(Succeeded)
  }

  function Row(s: StoreState, id: Id): Option<Task> {
    if id in s.tasks then Some(s.tasks[id]) else None
  }

  /** One row rewritten, if it is there. */
  function RowChanged(s: StoreState, id: Id, change: Task -> Task): StoreState {
    if id in s.tasks then s.(tasks := s.tasks[id := change(s.tasks[id])]) else s
  }

  function Settle(s: StoreState, f: Task, out: Outcome, now: u64): StoreState {
    var event := SettleEvent(Row(s, f.id), f, out);
    s.(tasks := if f.id in s.tasks then s.tasks[f.id := SettleRow(s.tasks[f.id], f, out, now)] else s.tasks,
       results := if out.Completed? && !f.cfg.ignoreResult then s.results[f.id := out.result] else s.results,
       events := if event.Some? then s.events + [Event(f.id, event.value, now)] else s.events)
  }

  /** A completion that reaches the retry policy. */
  predicate Consults(row: Option<Task>, f: Task, out: Outcome) {
    match ExitOf(row, out)
    case DispatchErrorExit => true
    case NormalExit => !IsSuccess(f.cfg, out.result)
    case _ => false
  }

  /** A retry whose time saturates. */
  predicate RetriesAtMax(row: Option<Task>, f: Task, out: Outcome, now: u64) {
    && row.Some? && Consults(row, f, out)
    && SettleRow(row.value, f, out, now).state.Pending?
    && SettleRow(row.value, f, out, now).nextFire == Some(U64_MAX)
  }

  /** The normal exit, with the task left terminal: a completion that notifies,
      and forgets the task's rate-limit bucket. */
  predicate Ends(row: Option<Task>, f: Task, out: Outcome, now: u64) {
    && ExitOf(row, out).NormalExit?
    && (if row.Some? then SettleRow(row.value, f, out, now).state else f.state).IsTerminal()
  }

  predicate Answers(out: Outcome) {
    out.Completed? && out.result.statusCode.Some?
  }

  // ----- completion -----

  function FinalState(s: StoreState, f: Task): TaskState {
    if f.id in s.tasks then s.tasks[f.id].state else f.state
  }

  /** Advance a chain and dispatch its next step; `built` is what building the
      step's task yields. */
  function AdvanceAndDispatch(q: QueueState, cap: nat, chainId: Id, built: Option<Chord.Built>, now: u64): QueueState {
    var (s, r) := Chain.Advance(q.store, chainId);
    var q1 := q.(store := s);
    if !r.NextStep? || built.None? then q1
    else
      var cfg := r.cfg.(chainId := Some(chainId));
      var t := NewTask(built.value.id, cfg, built.value.nextFire, now);
      EnqueueId(q1.(store := PutTask(q1.store, t)), cap, t.id, cfg.priority)
  }

  function NotifyChain(q: QueueState, cap: nat, f: Task, final: TaskState, built: Option<Chord.Built>,
                       now: u64): QueueState {
    if f.cfg.chainId.None? then q
    else if final.Success? then AdvanceAndDispatch(q, cap, f.cfg.chainId.value, built, now)
    else if final.Failed? || final.Cancelled? then q.(store := Chain.MarkFailed(q.store, f.cfg.chainId.value))
    else q
  }

  function NotifyChord(q: QueueState, cap: nat, f: Task, built: Option<Chord.Built>, now: u64): QueueState {
    if f.cfg.chordId.None? then q
    else
      var (s, r) := Chord.Refresh(q.store, f.cfg.chordId.value, built, now);
      var q1 := q.(store := s);
      if r.None? || r.value.callbackTaskId.None? then q1
      else
        var cb := r.value.callbackTaskId.value;
        if cb !in s.tasks then q1 else EnqueueId(q1, cap, cb, s.tasks[cb].cfg.priority)
  }

  /** What building the next chain step and the chord callback would yield. */
  datatype Builds = Builds(step: Option<Chord.Built>, callback: Option<Chord.Built>)

  function Notify(q: QueueState, cap: nat, f: Task, final: TaskState, builds: Builds, now: u64): QueueState {
    NotifyChord(NotifyChain(q, cap, f, final, builds.step, now), cap, f, builds.callback, now)
  }

  function EndFlight(q: QueueState, id: Id, k: nat): QueueState
    requires id in q.flights && k < |q.flights[id]|
  {
    q.(running := CountDown(q.running, q.flights[id][k].id), flights := q.flights[id := Without(q.flights[id], k)])
  }

  /** Everything a future does after its executor returned. */
  function Complete(q: QueueState, cap: nat, id: Id, k: nat, out: Outcome, builds: Builds, now: u64): QueueState
    requires id in q.flights && k < |q.flights[id]|
  {
    var f := q.flights[id][k];
    var exit := ExitOf(Row(q.store, f.id), out);
    var q1 := q.(store := Settle(q.store, f, out, now));
    var final := FinalState(q1.store, f);
    var ended := exit.NormalExit? && final.IsTerminal();
    var q2 := if ended then Notify(q1, cap, f, final, builds, now) else q1;
    NotifyKeepsFlights(q1, cap, f, final, builds, now);
    var q3 := EndFlight(q2, id, k);
    if ended && f.cfg.rateCount > 0 then q3.(buckets := q3.buckets - {f.id}) else q3
  }

  /** Only the store and the pending queue differ. */
  ghost predicate OnlyStoreAndPending(q: QueueState, q': QueueState) {
    q' == q.(store := q'.store, pending := q'.pending, refused := q'.refused)
  }

  lemma NotifyChainKeepsFlights(q: QueueState, cap: nat, f: Task, final: TaskState, built: Option<Chord.Built>,
                                now: u64)
    ensures OnlyStoreAndPending(q, NotifyChain(q, cap, f, final, built, now))
  {
  }

  lemma NotifyChordKeepsFlights(q: QueueState, cap: nat, f: Task, built: Option<Chord.Built>, now: u64)
    ensures OnlyStoreAndPending(q, NotifyChord(q, cap, f, built, now))
  {
  }

  lemma NotifyKeepsFlights(q: QueueState, cap: nat, f: Task, final: TaskState, builds: Builds, now: u64)
    ensures OnlyStoreAndPending(q, Notify(q, cap, f, final, builds, now))
  {
    NotifyChainKeepsFlights(q, cap, f, final, builds.step, now);
    NotifyChordKeepsFlights(NotifyChain(q, cap, f, final, builds.step, now), cap, f, builds.callback, now);
  }

  // ----- re-enqueues -----

  function FireTimer(q: QueueState, cap: nat, i: nat): QueueState
    requires i < |q.timers|
  {
    EnqueueId(q.(timers := Without(q.timers, i)), cap, q.timers[i].id, q.timers[i].priority)
  }

  predicate IsRetryDue(t: Task, now: u64) {
    t.state.Pending? && t.cfg.cron.None? && t.nextFire.Some? && t.nextFire.value <= now
  }

  /** One task of `scan_retries`; a refused enqueue keeps the fire time. */
  function RetryOne(q: QueueState, cap: nat, t: Task, now: u64): QueueState {
    if !IsRetryDue(t, now) || |q.pending| >= cap then q
    else
      var q1 := EnqueueId(q, cap, t.id, t.cfg.priority);
      q1.(store := UpdateNextFire(q1.store, t.id, None))
  }

  function RetryAll(q: QueueState, cap: nat, list: seq<Task>, now: u64): QueueState {
    if list == [] then q
    else RetryOne(RetryAll(q, cap, list[..|list| - 1], now), cap, list[|list| - 1], now)
  }

  /** The cron callback for one due id: its priority comes from the store. */
  function CallbackEnqueue(q: QueueState, cap: nat, id: Id): QueueState {
    EnqueueId(q, cap, id, if id in q.store.tasks then q.store.tasks[id].cfg.priority else 0)
  }

  // ----- the queue object -----

  class TaskQueue {
    const store: InMemoryStore
    const overlap: OverlapController
    const limiter: RateLimiter
    const maxPending: nat
    var pending: seq<Entry>
    var timers: seq<Entry>
    var flights: map<Id, seq<Task>>
    ghost var refused: set<Id>

    ghost function View(): QueueState
      reads this, store, overlap, limiter
    {
      QueueState(store.View(), pending, timers, flights, overlap.running, limiter.buckets, refused)
    }

    constructor (store: InMemoryStore, overlap: OverlapController, limiter: RateLimiter, maxPending: nat)
      requires store.View() == EMPTY_STORE && overlap.running == map[] && limiter.buckets == map[]
      ensures this.store == store && this.overlap == overlap && this.limiter == limiter
      ensures this.maxPending == maxPending && View() == EMPTY_QUEUE
    {
      this.store, this.overlap, this.limiter, this.maxPending := store, overlap, limiter, maxPending;
      pending, timers, flights := [], [], map[];
      refused := {};
    }

    method Enqueue(id: Id, priority: int) returns (ok: bool)
      modifies this`pending
      ensures ok <==> |old(pending)| < maxPending
      ensures pending == Push(old(pending), maxPending, Entry(priority, id))
    {
      if |pending| >= maxPending {
        return false;
      }
      pending := pending + [Entry(priority, id)];
      pending := StableSort(pending);
      ok := true;
    }

    /** An enqueue whose refusal is only logged. */
    method EnqueueOrLog(id: Id, priority: int)
      modifies this`pending, this`refused
      ensures View() == EnqueueId(old(View()), maxPending, id, priority)
    {
      var ok := Enqueue(id, priority);
      if !ok {
        refused := refused + {id};
      }
    }

    method DrainNext() returns (id: Option<Id>)
      modifies this`pending
      ensures old(pending) == [] ==> id == None && pending == []
      ensures old(pending) != [] ==> id == Some(old(pending)[0].id) && pending == old(pending)[1..]
    {
      if pending == [] {
        return None;
      }
      id := Some(pending[0].id);
      pending := pending[1..];
    }

    method SpawnTimer(t: Task)
      modifies this`timers
      ensures timers == old(timers) + [Entry(t.cfg.priority, t.id)]
    {
      timers := timers + [Entry(t.cfg.priority, t.id)];
    }

    method ProcessOne(now: u64)
      modifies this, store, overlap, limiter
      ensures View() == Prologue(old(View()), now)
    {
      var taskId := DrainNext();
      if taskId.None? {
        return;
      }
      var task := store.LoadTask(taskId.value);
      if task.None? || task.value.state.IsTerminal() {
        return;
      }
      AdmitTask(task.value, now);
    }

    method AdmitTask(t: Task, now: u64)
      modifies this, store, overlap, limiter
      ensures View() == Admit(old(View()), t, now)
    {
      if t.cfg.expires > 0 && t.state == Pending {
        var expiryTs := SaturatingAdd(t.createdAt, t.cfg.expires);
        if now > expiryTs {
          store.SetState(t.id, Expired, None, Some(now));
          store.AddEvent(t.id, ExpiredEvent, now);
          return;
        }
      }
      if t.cfg.startDate.Some? {
        if AsI64(now) < t.cfg.startDate.value {
          SpawnTimer(t);
          return;
        }
      }
      LimitAndDispatch(t, now);
    }

    /** The rate-limit check, and past it the overlap check. */
    method LimitAndDispatch(t: Task, now: u64)
      modifies this, store, overlap, limiter
      ensures View() == LimitThenStart(old(View()), t, now)
    {
      var allowed := limiter.Check(t.id, t.cfg, now);
      if !allowed {
        store.AddEvent(t.id, RateLimited, now);
        if t.cfg.cron.Some? || t.cfg.interval.Some? {
          store.SetNextFire(t.id, Some(WrappingAdd(now, t.cfg.rateWindow)));
        }
        SpawnTimer(t);
        return;
      }
      DispatchTask(t, now);
    }

    /** The overlap check, and past it the start of the execution. */
    method DispatchTask(t: Task, now: u64)
      modifies this, store, overlap
      ensures View() == if MayFire(old(overlap.running), old(store.View()), t) then StartTask(old(View()), t, now)
                        else HoldForOverlap(old(View()), t, now)
    {
      var fire := overlap.ShouldFire(store, t, now);
      if !fire {
        SpawnTimer(t);
        return;
      }
      store.SetState(t.id, Running, Some(now), None);
      overlap.OnStart(t.id);
      store.AddEvent(t.id, Started, now);
      flights := AddFlight(flights, t);
    }

    method ScheduleRetryOf(f: Task, error: ErrorText, maxAttempts: u32, now: u64) returns (scheduled: bool)
      modifies store
      ensures store.View() == RowChanged(old(store.View()), f.id,
                                         (t: Task) => ScheduleRetry(t, f, error, maxAttempts, now).0)
      ensures scheduled <==> f.attempts < maxAttempts
    {
      if f.attempts >= maxAttempts {
        GiveUp(f, error, now);
        return false;
      }
      var next := NextRetryTs(f.cfg, f.attempts, now);
      Reschedule(f, error, next);
      scheduled := true;
    }

    method GiveUp(f: Task, error: ErrorText, now: u64)
      modifies store
      ensures store.View() == RowChanged(old(store.View()), f.id, (t: Task) => GivenUp(t, f, error, now))
    {
      store.SetState(f.id, Failed, None, Some(now));
      store.SetAttempts(f.id, SaturatingIncrement(f.attempts), Some(error));
    }

    method Reschedule(f: Task, error: ErrorText, next: u64)
      modifies store
      ensures store.View() == RowChanged(old(store.View()), f.id, (t: Task) => Rescheduled(t, f, error, next))
    {
      store.SetAttempts(f.id, SaturatingIncrement(f.attempts), Some(error));
      store.SetState(f.id, Pending, None, None);
      store.SetNextFire(f.id, Some(next));
    }

    method HandleFailure(f: Task, result: TaskResult, error: ErrorText, now: u64)
      modifies store
      ensures store.View() == RowChanged(old(store.View()), f.id,
                                         (t: Task) => FailOrRetry(t, f, result, error, now))
    {
      var effectiveRetryMax := if f.cfg.acksOnFailure then f.cfg.retryMax else U32_MAX;
      if !ShouldRetry(f.cfg, f.attempts, effectiveRetryMax, result) {
        GiveUp(f, NotRetryable(error), now);
      } else {
        var _ := ScheduleRetryOf(f, error, effectiveRetryMax, now);
      }
    }

    method HandleSuccess(f: Task, now: u64)
      modifies store
      ensures store.tasks == RowChanged(old(store.View()), f.id, (t: Task) => Succeed(t, f, now)).tasks
      ensures store.View() == old(store.View()).(
                tasks := store.tasks,
                events := if IsPeriodic(f.cfg) && f.id !in old(store.tasks) then old(store.events)
                          else old(store.events) + [Event(f.id, Succeeded, now)])
    {
      if f.cfg.cron.Some? || f.cfg.interval.Some? {
        SucceedPeriodic(f, now);
      } else {
        SucceedOnce(f, now);
      }
    }

    method SucceedPeriodic(f: Task, now: u64)
      requires IsPeriodic(f.cfg)
      modifies store
      ensures store.tasks == RowChanged(old(store.View()), f.id, (t: Task) => Succeed(t, f, now)).tasks
      ensures store.View() == old(store.View()).(
                tasks := store.tasks,
                events := if f.id !in old(store.tasks) then old(store.events)
                          else old(store.events) + [Event(f.id, Succeeded, now)])
    {
      var newCount := store.IncrementExecutions(f.id);
      if newCount.Some? {
        if f.cfg.maxExecutions > 0 && newCount.value >= f.cfg.maxExecutions {
          store.SetState(f.id, Success, None, Some(now));
        } else {
          store.SetState(f.id, Pending, None, Some(now));
        }
        store.AddEvent(f.id, Succeeded, now);
      }
    }

    method SucceedOnce(f: Task, now: u64)
      requires !IsPeriodic(f.cfg)
      modifies store
      ensures store.tasks == RowChanged(old(store.View()), f.id, (t: Task) => Succeed(t, f, now)).tasks
      ensures store.View() == old(store.View()).(
                tasks := store.tasks,
                events := old(store.events) + [Event(f.id, Succeeded, now)])
    {
      store.SetState(f.id, Success, None, Some(now));
      store.AddEvent(f.id, Succeeded, now);
      var newCount := store.IncrementExecutions(f.id);
      if newCount.Some? && f.cfg.maxExecutions > 0 && newCount.value >= f.cfg.maxExecutions {
        store.SetState(f.id, Success, None, Some(now));
      }
    }

    /** The state changes of a completion; true on the normal path. */
    method SettleTask(f: Task, out: Outcome, now: u64) returns (normal: bool)
      modifies store
      ensures store.View() == Settle(old(store.View()), f, out, now)
      ensures normal <==> ExitOf(Row(old(store.View()), f.id), out).NormalExit?
    {
      if out.Completed? && !f.cfg.ignoreResult {
        store.StoreResult(f.id, out.result);
      }
      var current := store.LoadTask(f.id);
      if current.Some? && current.value.cancelRequested {
        store.SetState(f.id, Cancelled, None, Some(now));
        store.AddEvent(f.id, CancelledEvent, now);
        return false;
      }
      if out.DispatchError? {
        var reloaded := store.LoadTask(f.id);
        if reloaded.Some? && reloaded.value.state == Interrupted {
          assert store.tasks == store.tasks[f.id := reloaded.value];
          return false;
        }
        HandleFailure(f, DEFAULT_RESULT, Dispatch(out.message), now);
        return false;
      }
      if IsSuccess(f.cfg, out.result) {
        HandleSuccess(f, now);
      } else {
        HandleFailure(f, out.result, FailureText(f, out.result), now);
        store.AddEvent(f.id, FailedEvent, now);
      }
      normal := true;
    }

    method AdvanceChainAndDispatch(chainId: Id, built: Option<Chord.Built>, now: u64)
      modifies this`pending, this`refused, store
      ensures View() == AdvanceAndDispatch(old(View()), maxPending, chainId, built, now)
    {
      var r := Chain.AdvanceChain(store, chainId);
      if !r.NextStep? || built.None? {
        return;
      }
      var cfg := r.cfg.(chainId := Some(chainId));
      var t := NewTask(built.value.id, cfg, built.value.nextFire, now);
      store.InsertTask(t);
      EnqueueOrLog(t.id, cfg.priority);
    }

    method NotifyChainAndChord(f: Task, final: TaskState, builds: Builds, now: u64)
      modifies this`pending, this`refused, store
      ensures View() == Notify(old(View()), maxPending, f, final, builds, now)
    {
      if f.cfg.chainId.Some? {
        match final {
          case Success => AdvanceChainAndDispatch(f.cfg.chainId.value, builds.step, now);
          case Failed | Cancelled => store.SetChainStep(f.cfg.chainId.value, 0, RecFailed);
          case _ =>
        }
      }
      if f.cfg.chordId.Some? {
        RefreshChordAndEnqueue(f.cfg.chordId.value, builds.callback, now);
      }
    }

    method RefreshChordAndEnqueue(chordId: Id, built: Option<Chord.Built>, now: u64)
      modifies this`pending, this`refused, store
      ensures forall f: Task :: f.cfg.chordId == Some(chordId) ==>
                View() == NotifyChord(old(View()), maxPending, f, built, now)
    {
      var r := Chord.RefreshState(store, chordId, built, now);
      if r.Some? && r.value.callbackTaskId.Some? {
        var cb := r.value.callbackTaskId.value;
        var t := store.LoadTask(cb);
        if t.Some? {
          EnqueueOrLog(cb, t.value.cfg.priority);
        }
      }
    }

    method CompleteFlight(id: Id, k: nat, out: Outcome, builds: Builds, now: u64)
      requires id in flights && k < |flights[id]|
      modifies this, store, overlap, limiter
      ensures View() == Complete(old(View()), maxPending, id, k, out, builds, now)
    {
      var f := flights[id][k];
      var normal := SettleTask(f, out, now);
      var ended := false;
      if normal {
        var reloaded := store.LoadTask(f.id);
        var final := if reloaded.Some? then reloaded.value.state else f.state;
        ended := final.IsTerminal();
        if ended {
          NotifyChainAndChord(f, final, builds, now);
        }
      }
      FinishFlight(f, id, k, ended && f.cfg.rateCount > 0);
    }

    method FinishFlight(f: Task, id: Id, k: nat, forget: bool)
      requires id in flights && k < |flights[id]| && f == flights[id][k]
      modifies this`flights, overlap, limiter
      ensures View() == (if forget then EndFlight(old(View()), id, k).(buckets := old(limiter.buckets) - {f.id})
                         else EndFlight(old(View()), id, k))
    {
      overlap.OnFinish(f.id);
      if forget {
        limiter.Forget(f.id);
      }
      flights := flights[id := Without(flights[id], k)];
    }

    method TimerFires(i: nat)
      requires i < |timers|
      modifies this`pending, this`timers, this`refused
      ensures View() == FireTimer(old(View()), maxPending, i)
    {
      var e := timers[i];
      timers := Without(timers, i);
      EnqueueOrLog(e.id, e.priority);
    }

    method ScanRetries(now: u64) returns (active: seq<Task>)
      requires Keyed(store.View())
      modifies this`pending, store
      ensures IsActiveList(old(store.View()), active)
      ensures View() == RetryAll(old(View()), maxPending, active, now)
    {
      active := store.LoadActive();
      var i := 0;
      while i < |active|
        invariant 0 <= i <= |active|
        invariant View() == RetryAll(old(View()), maxPending, active[..i], now)
      {
        assert active[..i + 1][..i] == active[..i];
        RetryTask(active[i], now);
        i := i + 1;
      }
      assert active[..i] == active;
    }

    /** The body of the retry scan's loop. */
    method RetryTask(t: Task, now: u64)
      modifies this`pending, store
      ensures View() == RetryOne(old(View()), maxPending, t, now)
    {
      if t.state != Pending || t.cfg.cron.Some? {
        return;
      }
      if t.nextFire.Some? && t.nextFire.value <= now {
        var ok := Enqueue(t.id, t.cfg.priority);
        if ok {
          store.SetNextFire(t.id, None);
        }
      }
    }
  }
}
