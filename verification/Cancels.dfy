/** Exactly when an accepted cancel is final: told from the state it arrives in,
    and from the task's configuration. */
module Cancels {
  import opened Types
  import opened Store
  import opened Queue
  import opened Engine
  import opened Lives
  import opened Steps
  import opened Guarantees
  import opened Clocks
  import opened Scenarios
  import Cron

  // ----- what the running cron scan is still going to do -----

  /** The scan decides the state of the listed copy: maximum, expiry or end. */
  predicate Decides(o: Cron.Oracle, t: Task, now: u64) {
    Cron.ScanTask(o, t, now, 0).setState.Some?
  }

  lemma DrawIsIrrelevant(o: Cron.Oracle, t: Task, now: u64, draw: nat)
    ensures Cron.ScanTask(o, t, now, draw).setState == Cron.ScanTask(o, t, now, 0).setState
    ensures Cron.ScanTask(o, t, now, draw).due == Cron.ScanTask(o, t, now, 0).due
  {
  }

  /** Before its batch is full, the scan reaches a listed copy of the id whose
      state it decides. */
  predicate WillDecide(p: Params, todo: seq<Task>, now: u64, due: nat, id: Id) {
    && todo != [] && due < p.batch
    && (|| (todo[0].id == id && Decides(p.oracle, todo[0], now))
        || WillDecide(p, todo[1..], now, due + (if Cron.ScanTask(p.oracle, todo[0], now, 0).due then 1 else 0), id))
  }

  predicate ScanWillDecide(p: Params, e: EngineState, id: Id) {
    WillDecide(p, e.cron.todo, e.cron.now, |e.due|, id)
  }

  lemma {:induction false} DeciderIsListed(p: Params, todo: seq<Task>, now: u64, due: nat, id: Id) returns (t: Task)
    requires WillDecide(p, todo, now, due, id)
    ensures t in todo && t.id == id && Decides(p.oracle, t, now)
  {
    if todo[0].id == id && Decides(p.oracle, todo[0], now) {
      t := todo[0];
    } else {
      var more := if Cron.ScanTask(p.oracle, todo[0], now, 0).due then 1 else 0;
      t := DeciderIsListed(p, todo[1..], now, due + more, id);
    }
  }

  // ----- without such a copy the cancel is final -----

  /** Cancelled or about to be, and no scan under way will decide otherwise. */
  ghost predicate Undisputed(p: Params, s: Sys, id: Id) {
    id in s.h.halted && id !in s.h.overruled && !ScanWillDecide(p, s.e, id)
  }

  /** A listing made after the cancel holds at most a copy that is marked for
      cancelling, which the scan passes over. */
  lemma LaterListingIsHarmless(p: Params, s: Sys, list: seq<Task>, now: u64, id: Id)
    requires AllWell(s) && QuietLimitOne(s, id) && id in s.h.halted && IsActiveList(s.e.q.store, list)
    ensures !WillDecide(p, list, now, 0, id)
  {
    if WillDecide(p, list, now, 0, id) {
      var t := DeciderIsListed(p, list, now, 0, id);
      assert Well(s, id);
      ListedIsRow(s.e.q.store, list, id);
      assert t in Listed(list, id);
      CancelledRowIsPassedOver(p.oracle, LifeOf(s, id), now);
      assert false;
    }
  }

  lemma CancelledRowIsPassedOver(o: Cron.Oracle, l: Life, now: u64)
    requires Quiet(l) && LimitOne(l.made[0].cfg) && l.row.Some? && l.row.value.cfg == l.made[0].cfg
    requires QuietLife(l) && CancelKept(l) && l.halt.Some? && !l.row.value.state.IsTerminal()
    ensures !Decides(o, l.row.value, now)
  {
  }

  lemma ScanStaysUndisputed(p: Params, s: Sys, draw: nat, id: Id)
    requires Undisputed(p, s, id) && Enabled(p, s.e, CronTask(draw))
    ensures Undisputed(p, Next(p, s, CronTask(draw)), id)
  {
    DrawIsIrrelevant(p.oracle, s.e.cron.todo[0], s.e.cron.now, draw);
  }

  lemma StepStaysUndisputed(p: Params, s: Sys, a: Action, id: Id)
    requires AllWell(s) && Enabled(p, s.e, a) && Undisputed(p, s, id) && QuietLimitOne(s, id)
    ensures Undisputed(p, Next(p, s, a), id)
  {
    if a.CronTask? {
      ScanStaysUndisputed(p, s, a.draw, id);
    } else if a.CronBegin? {
      LaterListingIsHarmless(p, s, a.list, a.now, id);
    } else {
      OtherStepsScanNothing(p, s, a);
    }
  }

  lemma OtherStepsScanNothing(p: Params, s: Sys, a: Action)
    requires Enabled(p, s.e, a) && !a.CronTask? && !a.CronBegin?
    ensures var s' := Next(p, s, a);
            && (s'.e.cron.todo == [] || (s'.e.cron == s.e.cron && s'.e.due == s.e.due))
            && s'.h.overruled <= s.h.overruled && s.h.halted.Keys <= s'.h.halted.Keys
  {
  }

  lemma {:induction false} RunStaysUndisputed(p: Params, s: Sys, actions: seq<Action>, s': Sys, id: Id)
    requires AllWell(s) && IsRun(p, s, actions, s') && Undisputed(p, s, id) && LifeOf(s, id).made != []
    requires QuietLimitOne(s', id)
    ensures Undisputed(p, s', id) && AllWell(s')
    decreases |actions|
  {
    RunFollows(p, s, actions, s');
    QuietBefore(s, s', id);
    if actions != [] {
      var next := Next(p, s, actions[0]);
      StepStaysUndisputed(p, s, actions[0], id);
      StepKeepsAll(p, s, actions[0]);
      LogGrows(p, s.e, actions[0]);
      MadePrefix(s.e.q.store.inserted, next.e.q.store.inserted, id);
      RunStaysUndisputed(p, next, actions[1..], s', id);
    }
  }

  // ----- with such a copy the cancel can be undone -----

  /** Over, quiet and limit 1. */
  ghost predicate Idle(s: Sys, id: Id) {
    QuietLimitOne(s, id) && FlightsOf(s.e.q, id) == [] && id in s.e.q.store.tasks
  }

  lemma ScanStepStaysIdle(p: Params, s: Sys, id: Id)
    requires Idle(s, id) && Enabled(p, s.e, CronTask(0))
    ensures Idle(Next(p, s, CronTask(0)), id)
    ensures s.e.cron.todo[0].id == id && Decides(p.oracle, s.e.cron.todo[0], s.e.cron.now) ==>
              !TaskOf(Next(p, s, CronTask(0)), id).state.Cancelled?
  {
    VisitLeavesIdle(p, s.e, id);
    ScanTouchesNothing(p, s);
  }

  /** What a visit does to the row, the executions and the insertions of an id. */
  lemma VisitLeavesIdle(p: Params, e: EngineState, id: Id)
    requires e.cron.todo != [] && id in e.q.store.tasks
    ensures var q' := CronStep(p, e, 0).q;
            && id in q'.store.tasks && FlightsOf(q', id) == FlightsOf(e.q, id)
            && q'.store.inserted == e.q.store.inserted
            && (e.cron.todo[0].id == id && Decides(p.oracle, e.cron.todo[0], e.cron.now) ==>
                  !q'.store.tasks[id].state.Cancelled?)
  {
    var t, now := e.cron.todo[0], e.cron.now;
    Cron.EffectOnRows(e.q.store, t.id, Cron.ScanTask(p.oracle, t, now, 0), now);
    SameInserted(e.q.store, t.id, Cron.ScanTask(p.oracle, t, now, 0), now);
  }

  lemma ScanTouchesNothing(p: Params, s: Sys)
    requires Enabled(p, s.e, CronTask(0))
    ensures Next(p, s, CronTask(0)).h.touched == s.h.touched
    ensures Next(p, s, CronTask(0)).h.requeued == s.h.requeued
  {
  }

  lemma SameInserted(s: StoreState, id: Id, e: Cron.ScanEffect, now: u64)
    ensures Cron.ApplyEffect(s, id, e, now).inserted == s.inserted
  {
  }

  /** Letting the scan run on until it decides. */
  lemma {:induction false} ScanRunsOn(p: Params, s: Sys, id: Id) returns (actions: seq<Action>, s': Sys)
    requires Idle(s, id) && ScanWillDecide(p, s.e, id)
    ensures IsRun(p, s, actions, s') && Idle(s', id) && !TaskOf(s', id).state.Cancelled?
    decreases |s.e.cron.todo|
  {
    var next := Next(p, s, CronTask(0));
    ScanStepStaysIdle(p, s, id);
    var t := s.e.cron.todo[0];
    var rest;
    if t.id == id && Decides(p.oracle, t, s.e.cron.now) {
      rest, s' := [], next;
    } else {
      rest, s' := ScanRunsOn(p, next, id);
    }
    RunCons(p, s, CronTask(0), rest, s');
    actions := [CronTask(0)] + rest;
  }

  const ABORT: Outcome := DispatchError("cancelled")

  function AbortOf(id: Id, now: u64): Action {
    Completion(id, 0, ABORT, Builds(None, None), now)
  }

  lemma HaltedFlight(id: Id, l: Life)
    requires Inv(id, l) && Quiet(l) && LimitOne(l.made[0].cfg) && l.halt.Some? && l.flights != []
    ensures |l.flights| == 1 && l.flights[0].id == id && l.row.Some? && l.row.value.cancelRequested
  {
  }

  lemma AbortTouchesNothing(p: Params, s: Sys, id: Id, now: u64)
    requires Enabled(p, s.e, AbortOf(id, now))
    ensures var s' := Next(p, s, AbortOf(id, now));
            && s'.h.touched == s.h.touched && s'.h.requeued == s.h.requeued
            && s'.e.cron == s.e.cron && s'.e.due == s.e.due
  {
  }

  /** The execution in flight, if any, ends as the cancel asked. */
  lemma FlightEnds(p: Params, s: Sys, id: Id, now: u64)
    requires Well(s, id) && QuietLimitOne(s, id) && id in s.h.halted && FlightsOf(s.e.q, id) != []
    ensures Enabled(p, s.e, AbortOf(id, now))
    ensures Idle(Next(p, s, AbortOf(id, now)), id)
    ensures Next(p, s, AbortOf(id, now)).e.cron == s.e.cron && Next(p, s, AbortOf(id, now)).e.due == s.e.due
  {
    HaltedFlight(id, LifeOf(s, id));
    AbortedQueue(s.e.q, p.cap, id, now);
    AbortTouchesNothing(p, s, id, now);
  }

  lemma AbortedQueue(q: QueueState, cap: nat, id: Id, now: u64)
    requires id in q.flights && |q.flights[id]| == 1 && q.flights[id][0].id == id
    requires id in q.store.tasks && q.store.tasks[id].cancelRequested
    ensures var q' := Complete(q, cap, id, 0, ABORT, Builds(None, None), now);
            && FlightsOf(q', id) == [] && id in q'.store.tasks && q'.store.inserted == q.store.inserted
  {
  }

  lemma CancelIsUndone(p: Params, s: Sys, id: Id, now: u64) returns (actions: seq<Action>, s': Sys)
    requires AllWell(s) && QuietLimitOne(s, id) && id in s.h.halted && ScanWillDecide(p, s.e, id)
    ensures IsRun(p, s, actions, s') && Idle(s', id) && !TaskOf(s', id).state.Cancelled?
  {
    assert Well(s, id);
    if FlightsOf(s.e.q, id) == [] {
      actions, s' := ScanRunsOn(p, s, id);
    } else {
      FlightEnds(p, s, id, now);
      var next := Next(p, s, AbortOf(id, now));
      var rest;
      rest, s' := ScanRunsOn(p, next, id);
      RunCons(p, s, AbortOf(id, now), rest, s');
      actions := [AbortOf(id, now)] + rest;
    }
  }

  // ----- the two conditions -----

  /** Over every continuation in which the task stays quiet: whenever nothing is
      in flight, the task is Cancelled. */
  ghost predicate StaysCancelled(p: Params, s: Sys, id: Id) {
    forall actions, s' :: IsRun(p, s, actions, s') && Idle(s', id) ==> TaskOf(s', id).state.Cancelled?
  }

  lemma CancelHalts(p: Params, s: Sys, id: Id, now: u64)
    requires CancelTask(s.e.q.store, id, now).1.CancelOk?
    ensures var s1 := Next(p, s, Cancel(id, now));
            && id in s1.h.halted && id !in s1.h.overruled && s1.e.cron == s.e.cron && s1.e.due == s.e.due
            && s1.e.q.store.inserted == s.e.q.store.inserted
            && s1.h.touched == s.h.touched && s1.h.requeued == s.h.requeued
  {
  }

  lemma UndisputedIsFinal(p: Params, s: Sys, id: Id)
    requires AllWell(s) && Undisputed(p, s, id) && LifeOf(s, id).made != []
    ensures StaysCancelled(p, s, id)
  {
    forall actions, s' | IsRun(p, s, actions, s') && Idle(s', id)
      ensures TaskOf(s', id).state.Cancelled?
    {
      RunStaysUndisputed(p, s, actions, s', id);
      assert Well(s', id);
    }
  }

  /** An accepted cancel of a quiet limit-1 task is final if and only if the cron
      scan under way will not reach a copy of it, listed before the cancel, whose
      state it decides. */
  lemma CancelIsFinalIff(p: Params, s: Sys, id: Id, now: u64)
    requires Reachable(p, s) && QuietLimitOne(s, id) && CancelTask(s.e.q.store, id, now).1.CancelOk?
    ensures StaysCancelled(p, Next(p, s, Cancel(id, now)), id) <==> !ScanWillDecide(p, s.e, id)
  {
    var s1 := Next(p, s, Cancel(id, now));
    ReachableAllWell(p, s);
    StepKeepsAll(p, s, Cancel(id, now));
    CancelHalts(p, s, id, now);
    if ScanWillDecide(p, s.e, id) {
      var actions, s' := CancelIsUndone(p, s1, id, now);
      assert IsRun(p, s1, actions, s') && Idle(s', id);
    } else {
      UndisputedIsFinal(p, s1, id);
    }
  }

  /** In some reachable state an accepted cancel of a quiet task of the
      configuration, created as it builds, is not final, although no clock went
      back or left the signed range. */
  ghost predicate CancelCanBeUndone(p: Params, cfg: TaskConfig) {
    exists s, id, now: u64 ::
      && Reachable(p, s) && IsQuietTaskOf(p, s, id, cfg)
      && CancelTask(s.e.q.store, id, now).1.CancelOk? && Next(p, s, Cancel(id, now)).h.clock.Some?
      && !StaysCancelled(p, Next(p, s, Cancel(id, now)), id)
  }

  ghost predicate IsQuietTaskOf(p: Params, s: Sys, id: Id, cfg: TaskConfig) {
    && QuietLimitOne(s, id)
    && LifeOf(s, id).made[0].cfg == cfg && Cron.IsBuilt(p.oracle, LifeOf(s, id).made[0])
  }

  /** The expiry of a task created like this, or its end date, passes within the
      signed range. */
  predicate DatesPass(created: Task) {
    && created.createdAt <= I64_MAX
    && (|| (created.cfg.expires > 0 && created.createdAt + created.cfg.expires < I64_MAX)
        || (created.cfg.endDate.Some? && created.cfg.endDate.value < I64_MAX))
  }

  /** Some task of the configuration builds and is overtaken by its dates. */
  ghost predicate CanBeOvertaken(o: Cron.Oracle, cfg: TaskConfig) {
    exists created: Task :: created.cfg == cfg && Cron.IsBuilt(o, created) && DatesPass(created)
  }

  lemma DecidedIsPast(o: Cron.Oracle, t: Task, now: u64)
    requires Decides(o, t, now) && !Cron.ReachedMax(t) && t.createdAt <= I64_MAX && now <= I64_MAX
    ensures DatesPass(t)
  {
  }

  lemma ListedIsBelowMax(id: Id, l: Life, t: Task)
    requires Inv(id, l) && Quiet(l) && LimitOne(l.made[0].cfg) && t in l.listed
    ensures !Cron.ReachedMax(t) && t.cfg == l.made[0].cfg && t.createdAt == l.made[0].createdAt
  {
  }

  /** A listed copy of a quiet task that a scan decides is past its dates, as
      its scan read the clock within the signed range. */
  lemma DecidedByDate(p: Params, s: Sys, id: Id, cfg: TaskConfig)
    requires Reachable(p, s) && IsQuietTaskOf(p, s, id, cfg) && ScanWillDecide(p, s.e, id) && s.h.clock.Some?
    ensures CanBeOvertaken(p.oracle, cfg)
  {
    var t := DeciderIsListed(p, s.e.cron.todo, s.e.cron.now, |s.e.due|, id);
    var created := LifeOf(s, id).made[0];
    ReachableIsWell(p, s, id);
    assert t in LifeOf(s, id).listed;
    ListedIsBelowMax(id, LifeOf(s, id), t);
    ReachableIsTimely(p, s, id);
    DecidedIsPast(p.oracle, t, s.e.cron.now);
    assert created.cfg == cfg && Cron.IsBuilt(p.oracle, created) && DatesPass(created);
  }

  lemma Dispatched(p: Params, t: Task) returns (s: Sys)
    requires p.cap >= 1 && t == Created(t.cfg, t.nextFire, t.createdAt) && t.createdAt <= I64_MAX
    ensures Reachable(p, s) && s.h.touched == {} && s.h.requeued == {} && s.h.clock == Some(t.createdAt)
    ensures s.e.q.store.tasks == map[ID := t] && s.e.q.store.inserted == [t]
    ensures s.e.cron == IDLE && s.e.due == []
  {
    StartIsReachable(p);
    ReachStep(p, START, DispatchOf(t));
    s := Next(p, START, DispatchOf(t));
    DispatchedQueue(p.cap, t);
    ClockOfStep(p, START, DispatchOf(t));
  }

  lemma ScanLists(p: Params, s: Sys, t: Task) returns (s': Sys)
    requires Reachable(p, s) && s.h.touched == {} && s.h.requeued == {}
    requires s.h.clock.Some? && s.h.clock.value <= I64_MAX
    requires s.e.q.store.tasks == map[ID := t] && t.id == ID && t.state.Pending? && s.e.cron == IDLE && s.e.due == []
    ensures Reachable(p, s') && s'.h.touched == {} && s'.h.requeued == {} && s'.h.clock == Some(I64_MAX)
    ensures s'.e == s.e.(cron := Scan([t], I64_MAX))
  {
    assert t in [t];
    ReachStep(p, s, CronBegin([t], I64_MAX));
    s' := Next(p, s, CronBegin([t], I64_MAX));
    ClockOfStep(p, s, CronBegin([t], I64_MAX));
  }

  /** Dispatched, and listed by a scan at the end of the signed range. */
  lemma LateScan(p: Params, t: Task) returns (s: Sys)
    requires p.cap >= 1 && p.batch >= 1 && LimitOne(t.cfg) && Cron.IsBuilt(p.oracle, t) && DatesPass(t)
    requires t == Created(t.cfg, t.nextFire, t.createdAt)
    ensures Reachable(p, s) && IsQuietTaskOf(p, s, ID, t.cfg) && s.h.clock == Some(I64_MAX)
    ensures CancelTask(s.e.q.store, ID, I64_MAX).1.CancelOk? && ScanWillDecide(p, s.e, ID)
  {
    var s0 := Dispatched(p, t);
    s := ScanLists(p, s0, t);
    assert Decides(p.oracle, t, I64_MAX);
    InsertedOnce(s, t);
  }

  lemma OvertakenIsUndone(p: Params, cfg: TaskConfig)
    requires p.cap >= 1 && p.batch >= 1 && LimitOne(cfg) && CanBeOvertaken(p.oracle, cfg)
    ensures CancelCanBeUndone(p, cfg)
  {
    var created: Task :| created.cfg == cfg && Cron.IsBuilt(p.oracle, created) && DatesPass(created);
    BuiltAlike(p.oracle, created);
    var s := LateScan(p, Created(cfg, created.nextFire, created.createdAt));
    CancelIsFinalIff(p, s, ID, I64_MAX);
    ClockOfStep(p, s, Cancel(ID, I64_MAX));
    assert Reachable(p, s) && IsQuietTaskOf(p, s, ID, cfg) && CancelTask(s.e.q.store, ID, I64_MAX).1.CancelOk?;
  }

  lemma UndoneIsOvertaken(p: Params, s: Sys, id: Id, now: u64, cfg: TaskConfig)
    requires Reachable(p, s) && IsQuietTaskOf(p, s, id, cfg)
    requires CancelTask(s.e.q.store, id, now).1.CancelOk? && Next(p, s, Cancel(id, now)).h.clock.Some?
    requires !StaysCancelled(p, Next(p, s, Cancel(id, now)), id)
    ensures CanBeOvertaken(p.oracle, cfg)
  {
    CancelIsFinalIff(p, s, id, now);
    ClockOfStep(p, s, Cancel(id, now));
    DecidedByDate(p, s, id, cfg);
  }

  /** For every limit-1 configuration: an accepted cancel can be undone if and
      only if some task of it builds at a time from which its expiry or its end
      date still passes. */
  lemma CancelCanBeUndoneIff(p: Params, cfg: TaskConfig)
    requires p.cap >= 1 && p.batch >= 1 && LimitOne(cfg)
    ensures CancelCanBeUndone(p, cfg) <==> CanBeOvertaken(p.oracle, cfg)
  {
    if CanBeOvertaken(p.oracle, cfg) {
      OvertakenIsUndone(p, cfg);
    } else if CancelCanBeUndone(p, cfg) {
      var s, id, now: u64 :|
        && Reachable(p, s) && IsQuietTaskOf(p, s, id, cfg)
        && CancelTask(s.e.q.store, id, now).1.CancelOk? && Next(p, s, Cancel(id, now)).h.clock.Some?
        && !StaysCancelled(p, Next(p, s, Cancel(id, now)), id);
      UndoneIsOvertaken(p, s, id, now, cfg);
    }
  }
}
