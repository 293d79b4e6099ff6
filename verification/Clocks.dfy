/** What holds while a run's clock never goes back: when tasks were created, and
    at which moments they can have started. */
module Clocks {
  import opened Types
  import opened Store
  import opened Queue
  import opened Engine
  import opened Lives
  import opened Steps
  import opened Guarantees
  import RateRuns
  import Chord
  import Cron
  import Handlers

  // ----- what a step inserts, it inserts now -----

  ghost predicate InsertedAt(log: seq<Task>, log': seq<Task>, now: u64) {
    log <= log' && forall k :: |log| <= k < |log'| ==> log'[k].createdAt == now
  }

  lemma AdvanceInserts(q: QueueState, cap: nat, chainId: Id, built: Option<Chord.Built>, now: u64)
    ensures InsertedAt(q.store.inserted, AdvanceAndDispatch(q, cap, chainId, built, now).store.inserted, now)
  {
    AdvanceAdds(q, cap, chainId, built, now);
  }

  lemma ChainInserts(q: QueueState, cap: nat, f: Task, final: TaskState, built: Option<Chord.Built>, now: u64)
    ensures InsertedAt(q.store.inserted, NotifyChain(q, cap, f, final, built, now).store.inserted, now)
  {
    if f.cfg.chainId.Some? {
      AdvanceInserts(q, cap, f.cfg.chainId.value, built, now);
    }
  }

  lemma ChordInserts(q: QueueState, cap: nat, f: Task, built: Option<Chord.Built>, now: u64)
    ensures InsertedAt(q.store.inserted, NotifyChord(q, cap, f, built, now).store.inserted, now)
  {
    ChordAdds(q, cap, f, built, now);
  }

  lemma CompletionInserts(q: QueueState, cap: nat, id: Id, k: nat, out: Outcome, builds: Builds, now: u64)
    requires id in q.flights && k < |q.flights[id]|
    ensures InsertedAt(q.store.inserted, Complete(q, cap, id, k, out, builds, now).store.inserted, now)
  {
    var f, q1 := q.flights[id][k], Landed(q, id, k, out, now);
    var final := FinalState(q1.store, f);
    CompleteIsNotified(q, id, k, cap, out, builds, now);
    ChainInserts(q1, cap, f, final, builds.step, now);
    ChordInserts(NotifyChain(q1, cap, f, final, builds.step, now), cap, f, builds.callback, now);
  }

  lemma InsertionInserts(p: Params, e: EngineState, a: Action)
    requires Enabled(p, e, a) && IsInsertion(a)
    ensures Reading(a).None? ==> Step(p, e, a).q.store.inserted == e.q.store.inserted
    ensures Reading(a).Some? ==> InsertedAt(e.q.store.inserted, Step(p, e, a).q.store.inserted, Reading(a).value)
  {
    match a
    case Dispatch(b, cfg, now) => DispatchInserts(e.q, p.cap, b, cfg, now);
    case NewChain(c, tasks, built, now) =>
      AdvanceInserts(e.q.(store := CreateChain(e.q.store, c, tasks)), p.cap, c, built, now);
    case _ =>
  }

  lemma DispatchInserts(q: QueueState, cap: nat, b: Chord.Built, cfg: TaskConfig, now: u64)
    ensures InsertedAt(q.store.inserted, Handlers.DispatchOp(q, cap, b, cfg, now).0.store.inserted, now)
  {
    if cfg.replaceExisting || b.id !in q.store.tasks {
      DispatchAdds(q, cap, b, cfg, now);
    }
  }

  lemma OthersInsertNothing(p: Params, e: EngineState, a: Action)
    requires Enabled(p, e, a) && !a.Completion? && !IsInsertion(a)
    ensures Step(p, e, a).q.store.inserted == e.q.store.inserted
  {
    if a.ProcessOne? {
      PrologueGrows(e.q, a.now);
    } else if IsRowRequest(a) {
      RowRequestInsertsNothing(p, e, a);
    } else if a.CronTask? {
      ScanInsertsNothing(p, e, a.draw);
    }
  }

  lemma RowRequestInsertsNothing(p: Params, e: EngineState, a: Action)
    requires Enabled(p, e, a) && IsRowRequest(a)
    ensures Step(p, e, a).q.store.inserted == e.q.store.inserted
  {
  }

  lemma EffectInsertsNothing(s: StoreState, id: Id, effect: Cron.ScanEffect, now: u64)
    ensures Cron.ApplyEffect(s, id, effect, now).inserted == s.inserted
  {
  }

  lemma ScanInsertsNothing(p: Params, e: EngineState, draw: nat)
    requires e.cron.todo != []
    ensures CronStep(p, e, draw).q.store.inserted == e.q.store.inserted
  {
    var t := e.cron.todo[0];
    EffectInsertsNothing(e.q.store, t.id, Cron.ScanTask(p.oracle, t, e.cron.now, draw), e.cron.now);
  }

  lemma StepInserts(p: Params, e: EngineState, a: Action)
    requires Enabled(p, e, a)
    ensures Reading(a).None? ==> Step(p, e, a).q.store.inserted == e.q.store.inserted
    ensures Reading(a).Some? ==> InsertedAt(e.q.store.inserted, Step(p, e, a).q.store.inserted, Reading(a).value)
  {
    if a.Completion? {
      CompletionInserts(e.q, p.cap, a.id, a.k, a.out, a.builds, a.now);
    } else if IsInsertion(a) {
      InsertionInserts(p, e, a);
    } else {
      OthersInsertNothing(p, e, a);
    }
  }

  lemma {:induction false} MadeAt(log: seq<Task>, log': seq<Task>, id: Id, now: u64, k: nat)
    requires InsertedAt(log, log', now) && k < |Made(log', id)|
    ensures k >= |Made(log, id)| ==> Made(log', id)[k].createdAt == now
  {
    if |log| == |log'| {
      assert log == log';
    } else {
      var front := log'[..|log'| - 1];
      assert log <= front;
      if k < |Made(front, id)| {
        MadeAt(log, front, id, now, k);
      }
    }
  }

  // ----- when a task starts -----

  function StartsOf(q: QueueState, id: Id): nat {
    CountEvents(q.store.events, id, EventType.Started)
  }

  lemma {:induction false} StartsAreTimes(es: seq<Event>, id: Id)
    ensures |RateRuns.StartTimes(es, id)| == CountEvents(es, id, EventType.Started)
  {
    if es != [] {
      StartsAreTimes(es[..|es| - 1], id);
    }
  }

  lemma SilentStartsNothing(es: seq<Event>, es': seq<Event>, id: Id)
    requires RateRuns.Silent(es, es')
    ensures CountEvents(es', id, EventType.Started) == CountEvents(es, id, EventType.Started)
  {
    StartsAreTimes(es, id);
    StartsAreTimes(es', id);
    RateRuns.SilentKeepsStarts(es, es', id);
  }

  lemma OthersStartNothing(p: Params, e: EngineState, a: Action, id: Id)
    requires Enabled(p, e, a) && !a.ProcessOne?
    ensures StartsOf(Step(p, e, a).q, id) == StartsOf(e.q, id)
  {
    if a.Completion? {
      RateRuns.CompletionIsSilent(e.q, p.cap, a.id, a.k, a.out, a.builds, a.now);
    } else {
      RateRuns.OtherIsUnlimited(p, e, a);
    }
    SilentStartsNothing(e.q.store.events, Step(p, e, a).q.store.events, id);
  }

  /** The dates let the row start. */
  predicate MayStart(t: Task, now: u64) {
    !Cron.IsExpired(t, now) && !Cron.BeforeStart(t.cfg, now)
  }

  lemma AdmitStarts(q: QueueState, t: Task, now: u64, id: Id)
    ensures StartsOf(Admit(q, t, now), id) >= StartsOf(q, id)
    ensures StartsOf(Admit(q, t, now), id) != StartsOf(q, id) ==> id == t.id && MayStart(t, now)
  {
    AdmitOwn(q, t, now);
    var q1 := Limited(q, t, now);
    ExpireTale(q, t, now, id);
    TimerOnly(q, t, id);
    HoldForRateTale(q1, t, now, id);
    HoldForOverlapTale(q1, t, now, id);
    StartTale(q1, t, now, id);
    if id != t.id {
      AdmitOther(q, t, now, id);
    }
  }

  lemma PrologueStarts(q: QueueState, now: u64, id: Id)
    requires Keyed(q.store)
    ensures StartsOf(Prologue(q, now), id) >= StartsOf(q, id)
    ensures StartsOf(Prologue(q, now), id) != StartsOf(q, id) ==>
              id in q.store.tasks && !q.store.tasks[id].state.IsTerminal() && MayStart(q.store.tasks[id], now)
  {
    if q.pending != [] && q.pending[0].id in q.store.tasks {
      AdmitStarts(q.(pending := q.pending[1..]), q.store.tasks[q.pending[0].id], now, id);
    }
  }

  lemma StartsGrow(p: Params, s: Sys, a: Action, id: Id)
    requires AllWell(s) && Enabled(p, s.e, a)
    ensures LifeOf(Next(p, s, a), id).starts >= LifeOf(s, id).starts
    ensures !a.ProcessOne? ==> LifeOf(Next(p, s, a), id).starts == LifeOf(s, id).starts
  {
    if a.ProcessOne? {
      RateRuns.KeyedRows(s);
      PrologueStarts(s.e.q, a.now, id);
    } else {
      OthersStartNothing(p, s.e, a, id);
    }
  }

  // ----- the clock of a run -----

  /** A moment at which the dates let a task created like this start, within the
      signed range. */
  predicate CanStartAt(created: Task, now: u64) {
    && created.createdAt <= now <= I64_MAX && !Cron.BeforeStart(created.cfg, now)
    && (created.cfg.expires == 0 || now <= SaturatingAdd(created.createdAt, created.cfg.expires))
  }

  ghost predicate CanStart(created: Task) {
    exists now: u64 :: CanStartAt(created, now)
  }

  /** Created with a fire time that does not saturate, and free to start then. */
  ghost predicate StartsAt(o: Cron.Oracle, created: Task, now: u64) {
    Cron.IsBuilt(o, created) && created.nextFire != Some(U64_MAX) && CanStartAt(created, now)
  }

  ghost predicate Dated(l: Life, clock: u64)
    requires l.made != []
  {
    l.made[0].createdAt <= clock && (l.starts >= 1 ==> CanStart(l.made[0]))
  }

  /** While the clock runs: the cron scan under way read it before, the task was
      created before, and it started only if it could. */
  ghost predicate Timely(s: Sys, id: Id) {
    s.h.clock.Some? ==>
      && s.e.cron.now <= s.h.clock.value <= I64_MAX
      && (Unaltered(LifeOf(s, id)) ==> Dated(LifeOf(s, id), s.h.clock.value))
  }

  /** It was created before the step, or is created by it. */
  lemma UnalteredBefore(p: Params, s: Sys, a: Action, s': Sys, id: Id)
    requires AllWell(s) && Moves(p, s, a, s') && Unaltered(LifeOf(s', id))
    ensures LifeOf(s, id).made != [] ==>
              Unaltered(LifeOf(s, id)) && LifeOf(s, id).made == LifeOf(s', id).made
    ensures LifeOf(s, id).made == [] ==>
              Reading(a) == Some(LifeOf(s', id).made[0].createdAt) && LifeOf(s, id).starts == 0
  {
    assert Well(s, id);
    StepInserts(p, s.e, a);
    if LifeOf(s, id).made != [] {
      LogGrows(p, s.e, a);
      MadePrefix(s.e.q.store.inserted, s'.e.q.store.inserted, id);
    } else if Reading(a).Some? {
      MadeAt(s.e.q.store.inserted, s'.e.q.store.inserted, id, Reading(a).value, 0);
    }
  }

  lemma MadeStays(p: Params, s: Sys, a: Action, s': Sys, id: Id)
    requires Moves(p, s, a, s') && LifeOf(s, id).made != []
    ensures LifeOf(s', id).made != []
  {
    LogGrows(p, s.e, a);
    MadePrefix(s.e.q.store.inserted, s'.e.q.store.inserted, id);
  }

  lemma ClockTicks(clock: Option<u64>, reading: Option<u64>)
    requires Ticked(clock, reading).Some? && (clock.Some? ==> clock.value <= I64_MAX)
    ensures clock.Some? && clock.value <= Ticked(clock, reading).value <= I64_MAX
    ensures reading.Some? ==> Ticked(clock, reading) == reading
  {
  }

  lemma ClockOfStep(p: Params, s: Sys, a: Action)
    requires Enabled(p, s.e, a)
    ensures Next(p, s, a).h.clock == Ticked(s.h.clock, Reading(a))
  {
  }

  lemma ScanKeepsItsClock(p: Params, e: EngineState, a: Action)
    requires Enabled(p, e, a)
    ensures Step(p, e, a).cron.now == if a.CronBegin? then a.now else if a.CronEnd? then 0 else e.cron.now
  {
  }

  lemma ScanClock(p: Params, s: Sys, a: Action, s': Sys)
    requires Moves(p, s, a, s') && s'.h.clock.Some?
    requires s.h.clock.Some? ==> s.e.cron.now <= s.h.clock.value <= I64_MAX
    ensures s.h.clock.Some? && s.h.clock.value <= s'.h.clock.value <= I64_MAX
    ensures s'.e.cron.now <= s'.h.clock.value
    ensures Reading(a).Some? ==> Reading(a) == s'.h.clock
  {
    ClockOfStep(p, s, a);
    ClockTicks(s.h.clock, Reading(a));
    ScanKeepsItsClock(p, s.e, a);
  }

  lemma FirstStart(l: Life, now: u64, id: Id)
    requires Inv(id, l) && Unaltered(l) && l.starts == 0 && l.row.Some? && !l.row.value.state.IsTerminal()
    requires MayStart(l.row.value, now) && l.made[0].createdAt <= now <= I64_MAX
    ensures CanStart(l.made[0])
  {
    assert CanStartAt(l.made[0], now);
  }

  lemma ProcessIsDated(p: Params, s: Sys, now: u64, id: Id)
    requires AllWell(s) && Enabled(p, s.e, ProcessOne(now)) && Unaltered(LifeOf(s, id))
    requires LifeOf(s, id).made[0].createdAt <= now <= I64_MAX
    requires LifeOf(s, id).starts >= 1 ==> CanStart(LifeOf(s, id).made[0])
    requires LifeOf(Next(p, s, ProcessOne(now)), id).starts >= 1
    ensures CanStart(LifeOf(s, id).made[0])
  {
    if LifeOf(s, id).starts == 0 {
      RateRuns.KeyedRows(s);
      PrologueStarts(s.e.q, now, id);
      assert Well(s, id);
      FirstStart(LifeOf(s, id), now, id);
    }
  }

  lemma StepIsDated(p: Params, s: Sys, a: Action, s': Sys, id: Id)
    requires AllWell(s) && Moves(p, s, a, s') && Unaltered(LifeOf(s', id)) && LifeOf(s, id).made != []
    requires Unaltered(LifeOf(s, id)) ==> s.h.clock.Some? && Dated(LifeOf(s, id), s.h.clock.value)
    requires s'.h.clock.Some? && s.h.clock.Some? && s.h.clock.value <= s'.h.clock.value <= I64_MAX
    requires Reading(a).Some? ==> Reading(a) == s'.h.clock
    ensures Dated(LifeOf(s', id), s'.h.clock.value)
  {
    UnalteredBefore(p, s, a, s', id);
    if a.ProcessOne? {
      if LifeOf(s', id).starts >= 1 {
        ProcessIsDated(p, s, a.now, id);
      }
    } else {
      StartsGrow(p, s, a, id);
    }
  }

  lemma StepIsTimely(p: Params, s: Sys, a: Action, s': Sys, id: Id)
    requires AllWell(s) && Timely(s, id) && Moves(p, s, a, s')
    ensures Timely(s', id)
  {
    if s'.h.clock.Some? {
      ScanClock(p, s, a, s');
      if Unaltered(LifeOf(s', id)) {
        UnalteredBefore(p, s, a, s', id);
        if LifeOf(s, id).made == [] {
          NewIsDated(p, s, a, s', id);
        } else {
          StepIsDated(p, s, a, s', id);
        }
      }
    }
  }

  lemma NewIsDated(p: Params, s: Sys, a: Action, s': Sys, id: Id)
    requires AllWell(s) && Moves(p, s, a, s') && Unaltered(LifeOf(s', id)) && LifeOf(s, id).made == []
    requires s'.h.clock.Some? && Reading(a) == Some(LifeOf(s', id).made[0].createdAt) == s'.h.clock
    requires LifeOf(s, id).starts == 0
    ensures Dated(LifeOf(s', id), s'.h.clock.value)
  {
    if a.ProcessOne? {
      RateRuns.KeyedRows(s);
      assert Well(s, id);
      PrologueStarts(s.e.q, a.now, id);
    } else {
      StartsGrow(p, s, a, id);
    }
  }

  lemma {:induction false} TraceIsTimely(p: Params, states: seq<Sys>, actions: seq<Action>, k: nat, id: Id)
    requires IsTrace(p, states, actions) && k <= |actions|
    ensures Timely(states[k], id)
  {
    if k > 0 {
      TraceIsTimely(p, states, actions, k - 1, id);
      TraceIsWell(p, states, actions, k - 1);
      assert MovesAt(p, states, actions, k - 1);
      StepIsTimely(p, states[k - 1], actions[k - 1], states[k], id);
    }
  }

  lemma ReachableIsTimely(p: Params, s: Sys, id: Id)
    requires Reachable(p, s)
    ensures Timely(s, id)
  {
    var states, actions :| IsTrace(p, states, actions) && states[|actions|] == s;
    TraceIsTimely(p, states, actions, |actions|, id);
  }
}
