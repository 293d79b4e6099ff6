/** Who is queued, who starts and who waits, told from the task's own fields: each
    operation of the queue against a flat account of its whole effect. */
module Admissions {
  import opened Types
  import opened PriorityQueue
  import opened Store
  import opened Queue
  import opened Handlers
  import Chord
  import Overlap
  import RateLimiting

  // ----- queueing -----

  /** One entry more in the pending queue, or, if it is full, one refusal more. */
  ghost predicate Queues(q: QueueState, q': QueueState, cap: nat, id: Id, priority: int) {
    && q' == q.(pending := q'.pending, refused := q'.refused)
    && (|q.pending| < cap ==>
          && multiset(q'.pending) == multiset(q.pending) + multiset{Entry(priority, id)}
          && q'.refused == q.refused)
    && (|q.pending| >= cap ==> q'.pending == q.pending && q'.refused == q.refused + {id})
  }

  lemma EnqueueQueues(q: QueueState, cap: nat, id: Id, priority: int)
    ensures Queues(q, EnqueueId(q, cap, id, priority), cap, id, priority)
  {
    if |q.pending| < cap {
      PushContents(q.pending, cap, Entry(priority, id));
    }
  }

  /** The retry scan queues a listed task, with its priority, and clears its fire
      time if and only if it is Pending without a cron expression, its fire time
      has come and the queue has room. */
  lemma RetryScanIff(q: QueueState, cap: nat, t: Task, now: u64)
    ensures if && t.state == Pending && t.cfg.cron.None? && t.nextFire.Some? && t.nextFire.value <= now
               && |q.pending| < cap
            then
              && Queues(q.(store := RetryOne(q, cap, t, now).store), RetryOne(q, cap, t, now), cap, t.id,
                        t.cfg.priority)
              && RetryOne(q, cap, t, now).store.tasks
                 == (if t.id in q.store.tasks then q.store.tasks[t.id := q.store.tasks[t.id].(nextFire := None)]
                     else q.store.tasks)
              && RetryOne(q, cap, t, now).store == q.store.(tasks := RetryOne(q, cap, t, now).store.tasks)
            else RetryOne(q, cap, t, now) == q
  {
    if |q.pending| < cap {
      PushContents(q.pending, cap, Entry(t.cfg.priority, t.id));
    }
  }

  /** A timer's entry is queued as it is. */
  lemma TimerQueues(q: QueueState, cap: nat, i: nat)
    requires i < |q.timers|
    ensures Queues(q.(timers := q.timers[..i] + q.timers[i + 1..]), FireTimer(q, cap, i), cap,
                   q.timers[i].id, q.timers[i].priority)
  {
    EnqueueQueues(q.(timers := Without(q.timers, i)), cap, q.timers[i].id, q.timers[i].priority);
  }

  /** A callback queues the id with its row's priority, or 0 without a row. */
  lemma CallbackQueues(q: QueueState, cap: nat, id: Id)
    ensures Queues(q, CallbackEnqueue(q, cap, id), cap, id,
                   if id in q.store.tasks then q.store.tasks[id].cfg.priority else 0)
  {
    EnqueueQueues(q, cap, id, if id in q.store.tasks then q.store.tasks[id].cfg.priority else 0);
  }

  // ----- dispatching -----

  /** The task a dispatch inserts: Pending, untried, and with the fire time it was
      built with. */
  predicate IsFresh(t: Task, id: Id, cfg: TaskConfig, nextFire: Option<u64>, now: u64) {
    && t.id == id && t.cfg == cfg && t.createdAt == now && t.state == Pending && t.nextFire == nextFire
    && t.attempts == 0 && t.executionCount == 0 && !t.paused && !t.cancelRequested
    && t.startedAt.None? && t.finishedAt.None? && t.lastError.None? && t.workerPid.None? && t.workerStarttime.None?
  }

  /** A dispatch is refused if and only if its id is taken and it does not replace;
      otherwise the task is inserted, without the result of the one it replaces,
      and queued unless it has a date still to come and neither a cron expression
      nor an interval. */
  lemma DispatchIff(q: QueueState, cap: nat, b: Chord.Built, cfg: TaskConfig, now: u64)
    ensures var (q', reply) := DispatchOp(q, cap, b, cfg, now);
            if !cfg.replaceExisting && b.id in q.store.tasks then q' == q && reply == IdConflict
            else
              && q'.store.inserted == q.store.inserted + [q'.store.tasks[b.id]]
              && q'.store.tasks == q.store.tasks[b.id := q'.store.tasks[b.id]]
              && IsFresh(q'.store.tasks[b.id], b.id, cfg, b.nextFire, now)
              && q'.store == q.store.(tasks := q'.store.tasks, inserted := q'.store.inserted,
                                      results := if cfg.replaceExisting then q.store.results - {b.id}
                                                 else q.store.results)
              && (if && cfg.runAt.Some? && cfg.cron.None? && cfg.interval.None?
                     && b.nextFire.Some? && b.nextFire.value > now
                  then q' == q.(store := q'.store) && reply == Accepted
                  else
                    && Queues(q.(store := q'.store), q', cap, b.id, cfg.priority)
                    && reply == (if |q.pending| < cap then Accepted else QueueFull))
  {
    EnqueueQueues(q.(store := DispatchOp(q, cap, b, cfg, now).0.store), cap, b.id, cfg.priority);
    var t := NewTask(b.id, cfg, b.nextFire, now);
    assert (q.store.tasks - {b.id})[b.id := t] == q.store.tasks[b.id := t];
  }

  // ----- starting -----

  /** Its expiry has passed while it was Pending. */
  predicate HasExpired(t: Task, now: u64) {
    t.cfg.expires > 0 && t.state == Pending && now > t.createdAt + t.cfg.expires
  }

  /** Its start date, a signed number, is still to come. */
  predicate ComesTooEarly(t: Task, now: u64) {
    t.cfg.startDate.Some?
    && (if now <= 0x7FFF_FFFF_FFFF_FFFF then now else now - 0x1_0000_0000_0000_0000) < t.cfg.startDate.value
  }

  /** The triggers of the id the limiter still remembers from the window. */
  function Recent(q: QueueState, t: Task, now: u64): seq<u64> {
    RateLimiting.Within(if t.id in q.buckets then q.buckets[t.id] else [],
                        if now < t.cfg.rateWindow then 0 else now - t.cfg.rateWindow, 0xFFFF_FFFF_FFFF_FFFF)
  }

  predicate HasRateLimit(t: Task) {
    t.cfg.rateCount > 0 && t.cfg.rateWindow > 0
  }

  /** Enough of its executions run already: as many as its maximum, if that is
      above 1, and otherwise any unless overlap is allowed. */
  predicate IsBusy(q: QueueState, t: Task) {
    var running := if t.id in q.running then q.running[t.id] else 0;
    var row := if t.id in q.store.tasks && q.store.tasks[t.id].state == Running then 1 else 0;
    if t.cfg.maxInstances > 1 then running >= t.cfg.maxInstances || row >= t.cfg.maxInstances
    else !t.cfg.allowOverlap && (running > 0 || row > 0)
  }

  lemma {:induction false} AboveIsWithin(s: seq<u64>, floor: int)
    ensures RateLimiting.Above(s, floor) == RateLimiting.Within(s, floor, 0xFFFF_FFFF_FFFF_FFFF)
  {
    if s != [] {
      AboveIsWithin(s[..|s| - 1], floor);
    }
  }

  /** The queue once the limiter was asked: what it remembers is pruned, and the
      trigger recorded if it is allowed. */
  function Asked(q: QueueState, t: Task, now: u64): QueueState {
    if !HasRateLimit(t) then q
    else if |Recent(q, t, now)| >= t.cfg.rateCount then q.(buckets := q.buckets[t.id := Recent(q, t, now)])
    else q.(buckets := q.buckets[t.id := Recent(q, t, now) + [now]])
  }

  /** The id is queued again later, with the task's priority. */
  predicate Delays(q: QueueState, q': QueueState, t: Task) {
    q'.timers == q.timers + [Entry(t.cfg.priority, t.id)]
  }

  /** One event more, and perhaps one row rewritten. */
  predicate Notes(s: StoreState, s': StoreState, t: Task, t': Task, kind: EventType, now: u64) {
    s' == s.(tasks := s.tasks[t.id := t'], events := s.events + [Event(t.id, kind, now)])
  }

  predicate Expires(q: QueueState, q': QueueState, t: Task, now: u64) {
    && Notes(q.store, q'.store, t, t.(state := Expired, finishedAt := Some(now)), ExpiredEvent, now)
    && q' == q.(store := q'.store)
  }

  /** Held back until its window has passed: a task with a cron expression or an
      interval also gets that moment as its fire time. */
  predicate WaitsForRate(q: QueueState, q': QueueState, t: Task, now: u64) {
    && Notes(q.store, q'.store, t,
             if t.cfg.cron.Some? || t.cfg.interval.Some?
             then t.(nextFire := Some((now + t.cfg.rateWindow) % 0x1_0000_0000_0000_0000)) else t,
             RateLimited, now)
    && Delays(q, q', t)
    && q' == q.(store := q'.store, timers := q'.timers)
  }

  predicate WaitsForRoom(q: QueueState, q': QueueState, t: Task, now: u64) {
    && Notes(q.store, q'.store, t, t, MaxInstancesReached, now)
    && Delays(q, q', t)
    && q' == q.(store := q'.store, timers := q'.timers)
  }

  predicate IsStarted(q: QueueState, q': QueueState, t: Task, now: u64) {
    && Notes(q.store, q'.store, t, t.(state := Running, startedAt := Some(now)), Started, now)
    && q'.running == q.running[t.id := (if t.id in q.running then q.running[t.id] else 0) + 1]
    && q'.flights == q.flights[t.id := (if t.id in q.flights then q.flights[t.id] else []) + [t]]
    && q' == q.(store := q'.store, running := q'.running, flights := q'.flights)
  }

  lemma HoldingNotes(q: QueueState, t: Task, now: u64)
    requires t.id in q.store.tasks && q.store.tasks[t.id] == t
    ensures Expires(q, ExpireNow(q, t, now), t, now)
    ensures WaitsForRate(q, HoldForRate(q, t, now), t, now)
    ensures WaitsForRoom(q, HoldForOverlap(q, t, now), t, now)
  {
    assert q.store.tasks == q.store.tasks[t.id := t];
  }

  lemma StartingNotes(q: QueueState, t: Task, now: u64)
    requires t.id in q.store.tasks && q.store.tasks[t.id] == t
    ensures IsStarted(q, StartTask(q, t, now), t, now)
  {
  }

  /** The limiter answers, and remembers, by the recent triggers. */
  lemma AskingIs(q: QueueState, t: Task, now: u64)
    ensures RateLimiting.CheckAndRecord(q.buckets, t.id, t.cfg.rateCount, t.cfg.rateWindow, now)
         == (Asked(q, t, now).buckets, !HasRateLimit(t) || |Recent(q, t, now)| < t.cfg.rateCount)
  {
    AboveIsWithin(if t.id in q.buckets then q.buckets[t.id] else [],
                  if now < t.cfg.rateWindow then 0 else now - t.cfg.rateWindow);
  }

  /** What becomes of the drained task: it expires; or it waits, because its start
      date, its rate limit or its own executions hold it back; or it starts. */
  lemma AdmissionIff(q: QueueState, t: Task, now: u64)
    requires t.id in q.store.tasks && q.store.tasks[t.id] == t
    ensures var q', q1 := Admit(q, t, now), Asked(q, t, now);
            if HasExpired(t, now) then Expires(q, q', t, now)
            else if ComesTooEarly(t, now) then Delays(q, q', t) && q' == q.(timers := q'.timers)
            else if HasRateLimit(t) && |Recent(q, t, now)| >= t.cfg.rateCount then WaitsForRate(q1, q', t, now)
            else if IsBusy(q, t) then WaitsForRoom(q1, q', t, now)
            else IsStarted(q1, q', t, now)
  {
    var q1 := Asked(q, t, now);
    AskingIs(q, t, now);
    HoldingNotes(q, t, now);
    HoldingNotes(q1, t, now);
    StartingNotes(q1, t, now);
    Overlap.AdmittedIff(q.running, q.store, t);
  }

  /** The prologue takes the front of the queue; a task that is gone or over is
      dropped, and any other admitted as above. */
  lemma PrologueIff(q: QueueState, now: u64)
    ensures var q' := Prologue(q, now);
            if q.pending == [] then q' == q
            else
              var id, q1 := q.pending[0].id, q.(pending := q.pending[1..]);
              if id !in q.store.tasks || q.store.tasks[id].state in {Success, Failed, Cancelled, Expired} then q' == q1
              else q' == Admit(q1, q.store.tasks[id], now)
  {
  }

  // ----- telling the chain -----

  /** A chain is told of the end of one of its steps. A failure, or a cancel, sets
      its record back to step 0 and to failed; a success moves an unended record
      on to the next configuration, or to success after the last; anything else,
      and an ended record, changes nothing. */
  lemma ChainIsTold(q: QueueState, cap: nat, f: Task, final: TaskState, built: Option<Chord.Built>, now: u64)
    requires f.cfg.chainId.Some?
    ensures var c, q' := f.cfg.chainId.value, NotifyChain(q, cap, f, final, built, now);
            if c !in q.store.chains || final !in {Success, Failed, Cancelled} then q' == q
            else
              var r := q.store.chains[c];
              if final == Failed || final == Cancelled then
                q' == q.(store := q.store.(chains := q.store.chains[c := ChainRecord(r.tasks, 0, RecFailed)]))
              else if r.state == RecSuccess || r.state == RecFailed then q' == q
              else if r.currentStep >= |r.tasks| then
                q' == q.(store := q.store.(
                  chains := q.store.chains[c := ChainRecord(r.tasks, r.currentStep, RecSuccess)]))
              else
                && q'.store.chains
                   == q.store.chains[c := ChainRecord(r.tasks, r.currentStep + 1,
                                                      if r.state == RecPending then RecRunning else r.state)]
                && (built.None? ==> q' == q.(store := q.store.(chains := q'.store.chains)))
                && (built.Some? ==>
                      && q'.store.inserted == q.store.inserted + [q'.store.tasks[built.value.id]]
                      && q'.store.tasks == q.store.tasks[built.value.id := q'.store.tasks[built.value.id]]
                      && IsFresh(q'.store.tasks[built.value.id], built.value.id,
                                 r.tasks[r.currentStep].(chainId := Some(c)), built.value.nextFire, now)
                      && q'.store == q.store.(chains := q'.store.chains, tasks := q'.store.tasks,
                                              inserted := q'.store.inserted)
                      && Queues(q.(store := q'.store), q', cap, built.value.id, r.tasks[r.currentStep].priority))
  {
    var c := f.cfg.chainId.value;
    if c in q.store.chains {
      assert q.store.chains[c := q.store.chains[c]] == q.store.chains;
      if built.Some? && q.store.chains[c].currentStep < |q.store.chains[c].tasks| {
        EnqueueQueues(q.(store := NotifyChain(q, cap, f, final, built, now).store), cap, built.value.id,
                      q.store.chains[c].tasks[q.store.chains[c].currentStep].priority);
      }
    }
  }

  // ----- bookkeeping of an ended execution -----

  /** The execution is no longer counted nor in flight, whatever its outcome. */
  lemma FlightIsOver(q: QueueState, id: Id, k: nat)
    requires id in q.flights && k < |q.flights[id]| && q.flights[id][k].id == id
    ensures var q' := EndFlight(q, id, k);
            && q'.flights == q.flights[id := q.flights[id][..k] + q.flights[id][k + 1..]]
            && (forall other :: other != id ==> (other in q'.running <==> other in q.running))
            && (forall other :: other != id && other in q.running ==> q'.running[other] == q.running[other])
            && (if id in q.running && q.running[id] > 1 then id in q'.running && q'.running[id] == q.running[id] - 1
                else id !in q'.running)
            && q' == q.(flights := q'.flights, running := q'.running)
  {
  }

  /** The triggers of a task with a rate limit are forgotten exactly when a result,
      with no cancel requested, ends it. */
  lemma EndForgetsTriggers(q: QueueState, cap: nat, id: Id, k: nat, out: Outcome, builds: Builds, now: u64)
    requires id in q.flights && k < |q.flights[id]| && q.flights[id][k].id == id && id in q.store.tasks
    ensures var t, f := Settle(q.store, q.flights[id][k], out, now).tasks[id], q.flights[id][k];
            Complete(q, cap, id, k, out, builds, now).buckets
            == if && out.Completed? && !q.store.tasks[id].cancelRequested
                  && t.state in {Success, Failed, Cancelled, Expired} && f.cfg.rateCount != 0
               then q.buckets - {id} else q.buckets
  {
    var f, q1 := q.flights[id][k], q.(store := Settle(q.store, q.flights[id][k], out, now));
    NotifyKeepsFlights(q1, cap, f, FinalState(q1.store, f), builds, now);
  }
}
