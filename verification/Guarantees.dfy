/** What the task engine promises over all runs from an empty store, whatever the
    executors return and however its actors interleave. */
module Guarantees {
  import opened Types
  import opened PriorityQueue
  import opened Store
  import opened Queue
  import opened Engine
  import opened Lives
  import opened Steps
  import opened Retry
  import Overlap

  function TaskOf(s: Sys, id: Id): Task
    requires id in s.e.q.store.tasks
  {
    s.e.q.store.tasks[id]
  }

  // ----- no lost task -----

  /** A task inserted once and never touched by request, none of whose enqueues
      met a full queue and none of whose fire times saturated. If it is over at
      its first success or has not succeeded yet, and no filter skipped its date,
      then while it is Pending or Running it is queued, waiting in a timer, in a cron batch or callback,
      in flight, or has a fire time that will come. A pure interval task never
      holds the sentinel, so a scan can always compute when it is due; a cron
      task created with a fire time always has one; a run-at task holds the
      sentinel only once a scan used up its trigger. */
  lemma NoTaskIsLost(p: Params, s: Sys, id: Id)
    requires Reachable(p, s) && Unaltered(LifeOf(s, id)) && id !in s.e.q.refused && id !in s.h.parked
    ensures id in s.e.q.store.tasks
    ensures var t, created := TaskOf(s, id), LifeOf(s, id).made[0];
            && t.cfg == created.cfg
            && (!HasGoneOn(LifeOf(s, id)) && id !in s.h.skipped && Unwrapped(LifeOf(s, id))
                && (t.state.Pending? || t.state.Running?) ==>
                  || id in Ids(s.e.q.pending) || id in Ids(s.e.q.timers)
                  || id in s.e.callbacks || id in s.e.due
                  || FlightsOf(s.e.q, id) != []
                  || HasFireTime(t))
            && (IsPureInterval(t.cfg) ==> t.nextFire != Some(U64_MAX))
            && (IsCron(t.cfg) && created.nextFire.Some? ==> HasFireTime(t))
            && (t.cfg.runAt.Some? && id !in s.h.fired ==> t.nextFire != Some(U64_MAX))
  {
    ReachableIsWell(p, s, id);
  }

  /** Rows are always stored under their own id, as the listings assume. */
  lemma ReachableIsKeyed(p: Params, s: Sys)
    requires Reachable(p, s)
    ensures Keyed(s.e.q.store)
  {
    forall id | id in s.e.q.store.tasks
      ensures s.e.q.store.tasks[id].id == id
    {
      ReachableIsWell(p, s, id);
    }
  }

  // ----- concurrency -----

  /** The counter of an id is the number of its executions in flight, no row is
      Running without one, and a task with a limit never exceeds it. */
  lemma ExecutionsWithinLimit(p: Params, s: Sys, id: Id)
    requires Reachable(p, s)
    ensures Overlap.CountOf(s.e.q.running, id) == |FlightsOf(s.e.q, id)|
    ensures id in s.e.q.store.tasks && TaskOf(s, id).state.Running? ==> FlightsOf(s.e.q, id) != []
    ensures Unaltered(LifeOf(s, id)) ==>
              var cfg := LifeOf(s, id).made[0].cfg;
              && (cfg.maxInstances > 1 ==> |FlightsOf(s.e.q, id)| <= cfg.maxInstances)
              && (cfg.maxInstances <= 1 && !cfg.allowOverlap ==> |FlightsOf(s.e.q, id)| <= 1)
  {
    ReachableIsWell(p, s, id);
  }

  /** Quiet, and at most one execution at a time. */
  predicate QuietLimitOne(s: Sys, id: Id) {
    Quiet(LifeOf(s, id)) && LimitOne(LifeOf(s, id).made[0].cfg)
  }

  lemma PendingMeansIdle(p: Params, s: Sys, id: Id)
    requires Reachable(p, s) && QuietLimitOne(s, id)
    ensures id in s.e.q.store.tasks && |FlightsOf(s.e.q, id)| <= 1
    ensures TaskOf(s, id).state.Pending? ==> FlightsOf(s.e.q, id) == []
  {
    ReachableIsWell(p, s, id);
  }

  // ----- at most one success -----

  /** However often its id is queued, a limit-1 one-shot succeeds at most once,
      and once it did it is terminal and nothing of it is in flight. */
  lemma AtMostOneSuccess(p: Params, s: Sys, id: Id)
    requires Reachable(p, s) && QuietLimitOne(s, id) && !IsPeriodic(LifeOf(s, id).made[0].cfg)
    ensures CountEvents(s.e.q.store.events, id, Succeeded) <= 1
    ensures id in s.e.q.store.tasks
    ensures CountEvents(s.e.q.store.events, id, Succeeded) == 1 ==>
              TaskOf(s, id).state.IsTerminal() && FlightsOf(s.e.q, id) == []
  {
    ReachableIsWell(p, s, id);
  }

  // ----- max_executions -----

  lemma MaxExecutionsIsKept(p: Params, s: Sys, id: Id)
    requires Reachable(p, s) && QuietLimitOne(s, id) && LifeOf(s, id).made[0].cfg.maxExecutions > 0
    ensures id in s.e.q.store.tasks
    ensures var t := TaskOf(s, id);
            && t.executionCount <= t.cfg.maxExecutions
            && (!t.state.IsTerminal() || FlightsOf(s.e.q, id) != [] ==> t.executionCount < t.cfg.maxExecutions)
  {
    ReachableIsWell(p, s, id);
  }

  // ----- retries -----

  /** At most retry_max + 1 executions fail; while the task lives, the attempts
      it stores are exactly its failures so far. */
  lemma RetriesTerminate(p: Params, s: Sys, id: Id)
    requires Reachable(p, s) && QuietLimitOne(s, id)
    ensures id in s.e.q.store.tasks
    ensures var max := if TaskOf(s, id).cfg.acksOnFailure then TaskOf(s, id).cfg.retryMax else 0xFFFF_FFFF;
            && Engine.Tally(s.h.consults, id) <= max + 1
            && (!TaskOf(s, id).state.IsTerminal() || FlightsOf(s.e.q, id) != [] ==>
                  Engine.Tally(s.h.consults, id) == TaskOf(s, id).attempts <= max)
  {
    ReachableIsWell(p, s, id);
  }

  /** Each failing completion uses up one of the attempts left: it either
      reschedules the task with one attempt fewer or fails it for good. */
  lemma FailureUsesUpAnAttempt(p: Params, s: Sys, id: Id, k: nat, out: Outcome, now: u64)
    requires Reachable(p, s) && QuietLimitOne(s, id)
    requires id in s.e.q.flights && k < |s.e.q.flights[id]|
    requires Consults(Row(s.e.q.store, id), s.e.q.flights[id][k], out)
    ensures id in s.e.q.store.tasks
    ensures var t, max := TaskOf(s, id), EffectiveMax(TaskOf(s, id).cfg);
            var t' := SettleRow(t, s.e.q.flights[id][k], out, now);
            && t.attempts <= max
            && (|| t'.state.Failed?
                || (t'.state.Pending? && t'.attempts <= max && max + 1 - t'.attempts < max + 1 - t.attempts))
  {
    ReachableIsWell(p, s, id);
    assert k == 0 && FlightsOf(s.e.q, id)[0] == s.e.q.flights[id][k];
    OnlyFlightSettles(TaskOf(s, id), s.e.q.flights[id][k], out, now);
  }

  /** Past the policy's consent, `schedule_retry` never finds the attempts used
      up: its own exhausted branch is dead when called from the queue. */
  lemma ExhaustedBranchIsDead(t: Task, f: Task, result: TaskResult, error: ErrorText, now: u64)
    requires ShouldRetry(f.cfg, f.attempts, EffectiveMax(f.cfg), result)
    ensures ScheduleRetry(t, f, error, EffectiveMax(f.cfg), now).1
    ensures FailOrRetry(t, f, result, error, now).state.Pending?
    ensures FailOrRetry(t, f, result, error, now).nextFire == Some(NextRetryTs(f.cfg, f.attempts, now))
  {
  }

  // ----- histories over a run -----

  lemma {:induction false} MadePrefix(log: seq<Task>, log': seq<Task>, id: Id)
    requires log <= log'
    ensures |Made(log, id)| <= |Made(log', id)|
    ensures Made(log, id) <= Made(log', id)
  {
    if |log| < |log'| {
      var front := log'[..|log'| - 1];
      assert log <= front;
      MadePrefix(log, front, id);
    } else {
      assert log == log';
    }
  }

  lemma NotifyGrows(q: QueueState, cap: nat, f: Task, final: TaskState, builds: Builds, now: u64)
    ensures q.store.inserted <= Notify(q, cap, f, final, builds, now).store.inserted
  {
    var mid := NotifyChain(q, cap, f, final, builds.step, now);
    ChordAdds(mid, cap, f, builds.callback, now);
  }

  lemma CompletionGrows(q: QueueState, cap: nat, id: Id, k: nat, out: Outcome, builds: Builds, now: u64)
    requires id in q.flights && k < |q.flights[id]|
    ensures q.store.inserted <= Complete(q, cap, id, k, out, builds, now).store.inserted
  {
    var f := q.flights[id][k];
    CompleteIsNotified(q, id, k, cap, out, builds, now);
    var q1 := Landed(q, id, k, out, now);
    NotifyGrows(q1, cap, f, FinalState(q1.store, f), builds, now);
  }

  lemma LogGrows(p: Params, e: EngineState, a: Action)
    requires Enabled(p, e, a)
    ensures e.q.store.inserted <= Step(p, e, a).q.store.inserted
  {
    if a.Completion? {
      CompletionGrows(e.q, p.cap, a.id, a.k, a.out, a.builds, a.now);
    } else if a.ProcessOne? {
      PrologueGrows(e.q, a.now);
    } else if IsInsertion(a) {
      InsertionGrows(p, e, a);
    }
  }

  lemma PrologueGrows(q: QueueState, now: u64)
    ensures Prologue(q, now).store.inserted == q.store.inserted
  {
    if q.pending != [] {
      var id, q1 := q.pending[0].id, q.(pending := q.pending[1..]);
      if id in q.store.tasks {
        AdmitOwn(q1, q.store.tasks[id], now);
      }
    }
  }

  lemma InsertionGrows(p: Params, e: EngineState, a: Action)
    requires Enabled(p, e, a) && IsInsertion(a)
    ensures e.q.store.inserted <= Step(p, e, a).q.store.inserted
  {
    match a
    case NewChain(c, tasks, built, now) =>
      AdvanceAdds(e.q.(store := CreateChain(e.q.store, c, tasks)), p.cap, c, built, now);
    case Dispatch(b, cfg, now) =>
      if cfg.replaceExisting || b.id !in e.q.store.tasks {
        DispatchAdds(e.q, p.cap, b, cfg, now);
      }
    case _ =>
  }

  /** What a later state remembers of an earlier one. */
  ghost predicate Follows(s: Sys, s': Sys) {
    && s.e.q.store.inserted <= s'.e.q.store.inserted
    && s.h.touched <= s'.h.touched && s.h.requeued <= s'.h.requeued
    && (forall id :: id in s.h.halted ==> id in s'.h.halted && s'.h.halted[id] == s.h.halted[id])
  }

  lemma StepFollows(p: Params, s: Sys, a: Action)
    requires Enabled(p, s.e, a)
    ensures Follows(s, Next(p, s, a))
  {
    LogGrows(p, s.e, a);
  }

  lemma {:induction false} RunFollows(p: Params, s: Sys, actions: seq<Action>, s': Sys)
    requires IsRun(p, s, actions, s')
    ensures Follows(s, s')
    decreases |actions|
  {
    if actions != [] {
      StepFollows(p, s, actions[0]);
      RunFollows(p, Next(p, s, actions[0]), actions[1..], s');
    }
  }

  lemma QuietBefore(s: Sys, s': Sys, id: Id)
    requires Follows(s, s') && Quiet(LifeOf(s', id)) && LifeOf(s, id).made != []
    ensures Quiet(LifeOf(s, id)) && LifeOf(s, id).made[0] == LifeOf(s', id).made[0]
  {
    MadePrefix(s.e.q.store.inserted, s'.e.q.store.inserted, id);
  }

  lemma WellAfter(p: Params, s: Sys, a: Action, actions: seq<Action>, s': Sys)
    requires Reachable(p, s) && Enabled(p, s.e, a) && IsRun(p, Next(p, s, a), actions, s')
    ensures AllWell(s')
  {
    ReachStep(p, s, a);
    ReachableAllWell(p, Next(p, s, a));
    RunKeeps(p, Next(p, s, a), actions, s');
  }

  lemma ContinuesAfter(p: Params, s: Sys, a: Action, actions: seq<Action>, s': Sys)
    requires Reachable(p, s) && Enabled(p, s.e, a) && IsRun(p, Next(p, s, a), actions, s')
    ensures AllWell(s') && Follows(s, Next(p, s, a)) && Follows(Next(p, s, a), s')
  {
    StepFollows(p, s, a);
    RunFollows(p, Next(p, s, a), actions, s');
    WellAfter(p, s, a, actions, s');
  }

  // ----- cancel is honoured -----

  /** After an accepted cancel of a quiet limit-1 task, over every continuation:
      no execution starts, none is counted as failed or retried, the task is
      never Pending again, and with nothing in flight it is terminal, and
      Cancelled exactly if no cron scan overruled it from a stale listing; always
      if no clock reading is past its expiry or its end date. `Cancels` tells
      from the state the cancel arrives in whether it can be overruled. */
  lemma CancelIsHonoured(p: Params, s: Sys, id: Id, now: u64, actions: seq<Action>, s': Sys)
    requires Reachable(p, s) && CancelTask(s.e.q.store, id, now).1.CancelOk?
    requires IsRun(p, Next(p, s, Cancel(id, now)), actions, s')
    requires QuietLimitOne(s', id)
    ensures id in s'.e.q.store.tasks && !TaskOf(s', id).state.Pending?
    ensures CountEvents(s'.e.q.store.events, id, Started) == CountEvents(s.e.q.store.events, id, Started)
    ensures Engine.Tally(s'.h.consults, id) == Engine.Tally(s.h.consults, id)
    ensures FlightsOf(s'.e.q, id) == [] ==>
              && TaskOf(s', id).state.IsTerminal()
              && (TaskOf(s', id).state.Cancelled? <==> id !in s'.h.overruled)
    ensures FlightsOf(s'.e.q, id) == [] && !CanBeOverruled(TaskOf(s', id).cfg) ==> TaskOf(s', id).state.Cancelled?
  {
    ReachableIsWell(p, s, id);
    ContinuesAfter(p, s, Cancel(id, now), actions, s');
    assert Well(s', id);
    QuietBefore(s, s', id);
  }

  // ----- the watchdog against a completion -----

  lemma ErrorSettles(s: StoreState, f: Task, out: Outcome, now: u64)
    requires f.id in s.tasks && s.tasks[f.id].state.Interrupted? && out.DispatchError?
    ensures !ExitOf(Row(s, f.id), out).NormalExit? && !Consults(Row(s, f.id), f, out)
    ensures !s.tasks[f.id].cancelRequested ==> Settle(s, f, out, now) == s
    ensures s.tasks[f.id].cancelRequested ==>
              && Settle(s, f, out, now).tasks
                 == s.tasks[f.id := s.tasks[f.id].(state := Cancelled, finishedAt := Some(now))]
              && Settle(s, f, out, now).events == s.events + [Event(f.id, CancelledEvent, now)]
  {
    assert s.tasks[f.id := s.tasks[f.id]] == s.tasks;
  }

  /** The error of an execution the watchdog interrupted changes nothing but the
      books of the execution itself: the row, the events and the queue stay as
      they are, unless a cancel was requested, which then wins. */
  lemma AbortedRunStaysInterrupted(p: Params, s: Sys, id: Id, k: nat, out: Outcome, builds: Builds, now: u64)
    requires Reachable(p, s) && id in s.e.q.flights && k < |s.e.q.flights[id]|
    requires id in s.e.q.store.tasks && TaskOf(s, id).state.Interrupted? && out.DispatchError?
    ensures var q, q' := s.e.q, Complete(s.e.q, p.cap, id, k, out, builds, now);
            && q'.pending == q.pending && q'.timers == q.timers
            && (!TaskOf(s, id).cancelRequested ==> q'.store == q.store)
            && (TaskOf(s, id).cancelRequested ==>
                  q'.store.tasks == q.store.tasks[id := TaskOf(s, id).(state := Cancelled, finishedAt := Some(now))])
  {
    ReachableIsWell(p, s, id);
    var f := s.e.q.flights[id][k];
    assert FlightsOf(s.e.q, id)[k].id == id;
    ErrorSettles(s.e.q.store, f, out, now);
  }

  /** A completion leaves an interrupted row interrupted exactly when it is such
      an error: a result that arrives after all still decides the state. */
  lemma StaysInterruptedIff(t: Task, f: Task, out: Outcome, now: u64)
    requires t.state.Interrupted?
    ensures SettleRow(t, f, out, now).state.Interrupted? <==> out.DispatchError? && !t.cancelRequested
  {
  }
}
