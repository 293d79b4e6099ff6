/** Exactly which tasks can be lost: a task that is Pending with nothing left
    that will bring it to the front of the queue. */
module LostTasks {
  import opened Types
  import opened PriorityQueue
  import opened Store
  import opened Queue
  import opened Handlers
  import opened Engine
  import opened Lives
  import opened Steps
  import opened Guarantees
  import opened Clocks
  import opened Scenarios
  import Chord
  import Cron

  // ----- lost -----

  /** Neither scan has a time to compare its clock with: the fire time is the
      sentinel, or there is none and none that a scan computes will come. */
  predicate IsStuck(t: Task) {
    || t.nextFire == Some(U64_MAX)
    || (t.nextFire.None? && t.cfg.runAt.None? && !IsPureInterval(t.cfg))
  }

  /** Pending, held nowhere, not in flight, and stuck. */
  predicate Lost(s: Sys, id: Id) {
    && id in s.e.q.store.tasks
    && TaskOf(s, id).state.Pending? && !Held(LifeOf(s, id)) && FlightsOf(s.e.q, id) == []
    && IsStuck(TaskOf(s, id))
  }

  /** No scan ever finds a stuck task due. */
  lemma StuckIsNeverDue(o: Cron.Oracle, t: Task, now: u64, draw: nat)
    requires Cron.IsHonest(o) && IsStuck(t) && now < U64_MAX
    ensures !IsRetryDue(t, now) && !Cron.ScanTask(o, t, now, draw).due
  {
    Cron.CronTriggerIffExprs(t.cfg);
    if t.nextFire.None? && Cron.IsCronTask(t.cfg) {
      Cron.MissingFireTimeNeverFires(o, t, now, draw);
    }
  }

  // ----- which configurations can be lost -----

  /** A moment of the signed range between the start and the end date. */
  predicate InWindow(cfg: TaskConfig, now: u64) {
    now <= I64_MAX && !Cron.BeforeStart(cfg, now) && !Cron.AfterEnd(cfg, now)
  }

  /** There is one. */
  predicate HasWindow(cfg: TaskConfig) {
    cfg.endDate.Some? ==>
      0 <= cfg.endDate.value && (cfg.startDate.Some? ==> cfg.startDate.value <= cfg.endDate.value)
  }

  /** A moment of the window that the filters skip. */
  predicate IsSkipped(o: Cron.Oracle, cfg: TaskConfig, now: u64) {
    InWindow(cfg, now) && Cron.ShouldSkipTrigger(o, cfg, now)
  }

  /** A run-at task's date, as the unsigned number it is compared as. */
  function Date(cfg: TaskConfig): u64
    requires cfg.runAt.Some?
  {
    AsU64(cfg.runAt.value)
  }

  /** Some task of the configuration builds and can start. */
  ghost predicate CanBuildAndStart(o: Cron.Oracle, cfg: TaskConfig) {
    exists created: Task, now: u64 :: created.cfg == cfg && StartsAt(o, created, now)
  }

  /** A run-at task that is over at its first success, if its filters skip some
      moment of its window; one that is not, if it has a window at all; and,
      without run-at, an interval task with only an `or_cron` that is not over at
      its first success, if it builds and can start. */
  ghost predicate Loses(o: Cron.Oracle, cfg: TaskConfig) {
    if cfg.runAt.Some? then
      Date(cfg) != U64_MAX && (if IsOnce(cfg) then exists now: u64 :: IsSkipped(o, cfg, now) else HasWindow(cfg))
    else !IsOnce(cfg) && cfg.cron.None? && Cron.HasCronTrigger(cfg) && CanBuildAndStart(o, cfg)
  }

  /** Lost although it was created as its configuration builds, never removed,
      replaced or modified, no queue refused it, no fire time saturated, the
      execution counter has not wrapped, and no clock went back or left the
      signed range. */
  ghost predicate LostUnaltered(o: Cron.Oracle, s: Sys, id: Id, cfg: TaskConfig) {
    && Lost(s, id) && Unaltered(LifeOf(s, id)) && Unwrapped(LifeOf(s, id))
    && id !in s.e.q.refused && id !in s.h.parked && s.h.clock.Some?
    && LifeOf(s, id).made[0].cfg == cfg && Cron.IsBuilt(o, LifeOf(s, id).made[0])
  }

  ghost predicate CanBeLost(p: Params, cfg: TaskConfig) {
    exists s, id :: Reachable(p, s) && LostUnaltered(p.oracle, s, id, cfg)
  }

  // ----- what a run-at scan uses up -----

  lemma UsedUpFacts(o: Cron.Oracle, t: Task, now: u64, draw: nat)
    requires t.cfg.runAt.Some? && Cron.ScanTask(o, t, now, draw).setNextFire.Some? && now <= I64_MAX
    ensures InWindow(t.cfg, now) && !Cron.IsExpired(t, now) && t.nextFire.GetOr(Date(t.cfg)) <= now
    ensures !Cron.ScanTask(o, t, now, draw).due ==> IsSkipped(o, t.cfg, now)
  {
  }

  lemma WindowIsNeeded(cfg: TaskConfig, now: u64)
    requires InWindow(cfg, now)
    ensures HasWindow(cfg)
  {
  }

  /** The scan drops the date of a task created like this. */
  predicate DropsAt(o: Cron.Oracle, created: Task, now: u64) {
    && created.cfg.runAt.Some? && Date(created.cfg) <= now && IsSkipped(o, created.cfg, now)
    && (created.cfg.expires == 0 || now <= SaturatingAdd(created.createdAt, created.cfg.expires))
  }

  ghost predicate IsDropped(o: Cron.Oracle, created: Task) {
    exists now: u64 :: DropsAt(o, created, now)
  }

  /** Some moment of the window is not before the date. */
  predicate DateInWindow(cfg: TaskConfig) {
    && cfg.runAt.Some? && 0 <= cfg.runAt.value && HasWindow(cfg)
    && (cfg.endDate.Some? ==> cfg.runAt.value <= cfg.endDate.value)
  }

  /** Created with its date as its fire time, quiet, neither refused nor parked. */
  ghost predicate Undisturbed(l: Life) {
    && Quiet(l) && !l.refused && !l.parked
    && l.made[0].cfg.runAt.Some? && l.made[0].nextFire == Some(Date(l.made[0].cfg))
  }

  /** Only run-at tasks fire, only in their window, and only a skipped moment of
      it drops the trigger; undisturbed, only once the date has come. */
  ghost predicate FiredFairly(o: Cron.Oracle, l: Life) {
    Unaltered(l) ==>
      var created := l.made[0];
      && (l.fired ==> created.cfg.runAt.Some? && HasWindow(created.cfg))
      && (l.skipped ==> created.cfg.runAt.Some? && exists now: u64 :: IsSkipped(o, created.cfg, now))
      && (Undisturbed(l) && l.fired && NeverRetimed(created.cfg) ==> DateInWindow(created.cfg))
      && (Undisturbed(l) && l.skipped && l.starts == 0 && !IsPeriodic(created.cfg) ==> IsDropped(o, created))
  }

  /** A copy used up at a moment of the signed range accounts for all of it. */
  lemma UseIsFair(o: Cron.Oracle, id: Id, l: Life, t: Task, now: u64, draw: nat)
    requires Inv(id, l) && Unaltered(l) && t in l.listed && now <= I64_MAX
    requires t.cfg.runAt.Some? && Cron.ScanTask(o, t, now, draw).setNextFire.Some?
    ensures var created := l.made[0];
            && created.cfg.runAt.Some? && HasWindow(created.cfg)
            && (Undisturbed(l) && HasItsDate(l) ==> DateInWindow(created.cfg))
            && (!Cron.ScanTask(o, t, now, draw).due ==>
                  && IsSkipped(o, created.cfg, now)
                  && (Undisturbed(l) && HasItsDate(l) && l.starts == 0 ==> DropsAt(o, created, now)))
  {
    UsedUpFacts(o, t, now, draw);
    WindowIsNeeded(t.cfg, now);
  }

  /** What one step does to the part of a life that fairness is about. */
  ghost predicate Passed(l: Life, l': Life) {
    && (Unaltered(l') ==> Unaltered(l) && l.made == l'.made)
    && (Undisturbed(l') ==> Undisturbed(l))
    && l.starts <= l'.starts
  }

  lemma PassedIsFair(o: Cron.Oracle, l: Life, l': Life)
    requires Passed(l, l') && FiredFairly(o, l) && l'.fired == l.fired && l'.skipped == l.skipped
    ensures FiredFairly(o, l')
  {
  }

  /** The history sets that only grow. */
  lemma SetsGrow(p: Params, s: Sys, a: Action)
    requires Enabled(p, s.e, a)
    ensures var h' := Next(p, s, a).h;
            && s.h.touched <= h'.touched && s.h.requeued <= h'.requeued && s.h.parked <= h'.parked
            && h'.fired == s.h.fired + Fires(p, s.e, a) && h'.skipped == s.h.skipped + Skips(p, s.e, a)
  {
  }
  lemma NotifyKeepsRefused(q: QueueState, cap: nat, f: Task, final: TaskState, builds: Builds, now: u64)
    ensures q.refused <= Notify(q, cap, f, final, builds, now).refused
  {
    if f.cfg.chainId.Some? {
      AdvanceAdds(q, cap, f.cfg.chainId.value, builds.step, now);
    }
    ChordAdds(NotifyChain(q, cap, f, final, builds.step, now), cap, f, builds.callback, now);
  }

  lemma RefusedGrows(p: Params, e: EngineState, a: Action)
    requires Enabled(p, e, a)
    ensures e.q.refused <= Step(p, e, a).q.refused
  {
    if a.Completion? {
      var f, q1 := e.q.flights[a.id][a.k], Landed(e.q, a.id, a.k, a.out, a.now);
      CompleteIsNotified(e.q, a.id, a.k, p.cap, a.out, a.builds, a.now);
      NotifyKeepsRefused(q1, p.cap, f, FinalState(q1.store, f), a.builds, a.now);
    } else if a.NewChain? {
      AdvanceAdds(e.q.(store := CreateChain(e.q.store, a.chainId, a.tasks)), p.cap, a.chainId, a.built, a.now);
    }
  }

  lemma StepPasses(p: Params, s: Sys, a: Action, s': Sys, id: Id)
    requires AllWell(s) && Moves(p, s, a, s') && LifeOf(s, id).made != []
    ensures Passed(LifeOf(s, id), LifeOf(s', id))
  {
    SetsGrow(p, s, a);
    RefusedGrows(p, s.e, a);
    StartsGrow(p, s, a, id);
    if Unaltered(LifeOf(s', id)) {
      UnalteredBefore(p, s, a, s', id);
    }
  }

  lemma UsedIsFair(o: Cron.Oracle, id: Id, l: Life, l': Life, t: Task, now: u64, draw: nat)
    requires Inv(id, l) && Passed(l, l') && FiredFairly(o, l) && l'.starts == l.starts
    requires t in l.listed && now <= I64_MAX
    requires t.cfg.runAt.Some? && Cron.ScanTask(o, t, now, draw).setNextFire.Some?
    requires l'.skipped ==> l.skipped || !Cron.ScanTask(o, t, now, draw).due
    ensures FiredFairly(o, l')
  {
    if Unaltered(l') {
      UseIsFair(o, id, l, t, now, draw);
    }
  }

  /** Which copy a visit uses up, if any. */
  lemma VisitUsesUp(p: Params, s: Sys, draw: nat, id: Id)
    requires Enabled(p, s.e, CronTask(draw))
    ensures var t, h' := s.e.cron.todo[0], Next(p, s, CronTask(draw)).h;
            if id in Fires(p, s.e, CronTask(draw)) then
              && t in ListedBy(s.e, id) && t.cfg.runAt.Some?
              && Cron.ScanTask(p.oracle, t, s.e.cron.now, draw).setNextFire.Some?
              && (id in h'.skipped ==> id in s.h.skipped || !Cron.ScanTask(p.oracle, t, s.e.cron.now, draw).due)
            else (id in h'.fired <==> id in s.h.fired) && (id in h'.skipped <==> id in s.h.skipped)
  {
  }

  lemma VisitIsFair(p: Params, s: Sys, draw: nat, s': Sys, id: Id)
    requires Well(s, id) && Moves(p, s, CronTask(draw), s')
    requires Passed(LifeOf(s, id), LifeOf(s', id)) && LifeOf(s', id).starts == LifeOf(s, id).starts
    requires FiredFairly(p.oracle, LifeOf(s, id)) && s.e.cron.now <= I64_MAX
    ensures FiredFairly(p.oracle, LifeOf(s', id))
  {
    var l, l' := LifeOf(s, id), LifeOf(s', id);
    VisitUsesUp(p, s, draw, id);
    if id in Fires(p, s.e, CronTask(draw)) {
      UsedIsFair(p.oracle, id, l, l', s.e.cron.todo[0], s.e.cron.now, draw);
    } else {
      PassedIsFair(p.oracle, l, l');
    }
  }

  lemma OtherIsFair(p: Params, s: Sys, a: Action, s': Sys, id: Id)
    requires Moves(p, s, a, s') && !a.CronTask?
    requires Passed(LifeOf(s, id), LifeOf(s', id)) && FiredFairly(p.oracle, LifeOf(s, id))
    ensures FiredFairly(p.oracle, LifeOf(s', id))
  {
    SetsGrow(p, s, a);
    PassedIsFair(p.oracle, LifeOf(s, id), LifeOf(s', id));
  }

  /** Nothing was used up for an id nobody inserted; for others, fairly while the
      clock runs. */
  ghost predicate Fair(p: Params, s: Sys, id: Id) {
    && (LifeOf(s, id).made == [] ==> id !in s.h.fired && id !in s.h.skipped)
    && (s.h.clock.Some? ==> FiredFairly(p.oracle, LifeOf(s, id)))
  }

  lemma OnlyListedFire(p: Params, e: EngineState, a: Action, id: Id)
    requires ListedBy(e, id) == {}
    ensures id !in Fires(p, e, a) && id !in Skips(p, e, a)
  {
    assert forall t :: t in e.cron.todo && t.id == id ==> t in ListedBy(e, id);
  }

  lemma NewIsFair(p: Params, s: Sys, a: Action, s': Sys, id: Id)
    requires AllWell(s) && Moves(p, s, a, s') && LifeOf(s, id).made == [] && Fair(p, s, id)
    ensures Fair(p, s', id)
  {
    assert Well(s, id);
    OnlyListedFire(p, s.e, a, id);
    SetsGrow(p, s, a);
  }

  /** A step for a task inserted before it. */
  lemma OldIsFair(p: Params, s: Sys, a: Action, s': Sys, id: Id)
    requires AllWell(s) && Moves(p, s, a, s') && LifeOf(s, id).made != [] && s.e.cron.now <= I64_MAX
    requires FiredFairly(p.oracle, LifeOf(s, id))
    ensures FiredFairly(p.oracle, LifeOf(s', id))
  {
    StepPasses(p, s, a, s', id);
    if a.CronTask? {
      assert Well(s, id);
      StartsGrow(p, s, a, id);
      VisitIsFair(p, s, a.draw, s', id);
    } else {
      OtherIsFair(p, s, a, s', id);
    }
  }

  lemma StepIsFair(p: Params, s: Sys, a: Action, s': Sys, id: Id)
    requires AllWell(s) && Timely(s, id) && Fair(p, s, id) && Moves(p, s, a, s')
    ensures Fair(p, s', id)
  {
    if LifeOf(s, id).made == [] {
      NewIsFair(p, s, a, s', id);
    } else {
      MadeStays(p, s, a, s', id);
      if s'.h.clock.Some? {
        ScanClock(p, s, a, s');
        OldIsFair(p, s, a, s', id);
      }
    }
  }

  lemma {:induction false} TraceIsFair(p: Params, states: seq<Sys>, actions: seq<Action>, k: nat, id: Id)
    requires IsTrace(p, states, actions) && k <= |actions|
    ensures Fair(p, states[k], id)
  {
    if k > 0 {
      TraceIsFair(p, states, actions, k - 1, id);
      TraceIsTimely(p, states, actions, k - 1, id);
      TraceIsWell(p, states, actions, k - 1);
      assert MovesAt(p, states, actions, k - 1);
      StepIsFair(p, states[k - 1], actions[k - 1], states[k], id);
    }
  }

  /** In a reachable state whose clock runs, the task started only if it could and
      its trigger was used up fairly. */
  lemma ReachableIsFair(p: Params, s: Sys, id: Id)
    requires Reachable(p, s) && s.h.clock.Some? && Unaltered(LifeOf(s, id))
    ensures FiredFairly(p.oracle, LifeOf(s, id)) && Dated(LifeOf(s, id), s.h.clock.value)
  {
    var states, actions :| IsTrace(p, states, actions) && states[|actions|] == s;
    TraceIsFair(p, states, actions, |actions|, id);
    ReachableIsTimely(p, s, id);
  }

  /** What losing a task takes, seen from its life. */
  lemma LossTakes(o: Cron.Oracle, id: Id, l: Life, clock: u64)
    requires Inv(id, l) && Unaltered(l) && Unwrapped(l) && !l.refused && !l.parked
    requires FiredFairly(o, l) && Dated(l, clock) && Cron.IsBuilt(o, l.made[0])
    requires l.row.Some? && l.row.value.state.Pending? && !Held(l) && l.flights == [] && IsStuck(l.row.value)
    ensures Loses(o, l.made[0].cfg)
  {
    var created := l.made[0];
    if created.cfg.runAt.None? {
      assert HasGoneOn(l);
      var now: u64 :| CanStartAt(created, now);
      assert created.cfg == created.cfg && StartsAt(o, created, now);
    }
  }

  /** No other configuration can be lost. */
  lemma OthersAreNeverLost(p: Params, s: Sys, id: Id, cfg: TaskConfig)
    requires Reachable(p, s) && !Loses(p.oracle, cfg)
    ensures !LostUnaltered(p.oracle, s, id, cfg)
  {
    if LostUnaltered(p.oracle, s, id, cfg) {
      ReachableIsWell(p, s, id);
      ReachableIsFair(p, s, id);
      LossTakes(p.oracle, id, LifeOf(s, id), s.h.clock.value);
    }
  }

  // ----- each of these configurations can be lost -----

  /** The first moment of the window. */
  function Moment(cfg: TaskConfig): (now: u64)
    requires HasWindow(cfg)
    ensures InWindow(cfg, now)
  {
    if cfg.startDate.Some? && cfg.startDate.value >= 0 then cfg.startDate.value else 0
  }

  /** A run-at task as it builds. */
  function RunAtTask(cfg: TaskConfig, now: u64): (t: Task)
    requires cfg.runAt.Some?
  {
    Created(cfg, Some(Date(cfg)), now)
  }

  lemma RunAtBuilds(o: Cron.Oracle, cfg: TaskConfig, now: u64)
    requires cfg.runAt.Some?
    ensures Cron.IsBuilt(o, RunAtTask(cfg, now))
  {
    assert Cron.InitialNextFire(o, cfg, now, 0) == Some(Some(Date(cfg)));
  }

  /** A scan in the window uses up the trigger of a run-at task that is due: it
      puts the task in its batch unless the filters skip the moment. */
  lemma DueRunAtIsUsedUp(o: Cron.Oracle, t: Task, now: u64)
    requires t.cfg.runAt.Some? && InWindow(t.cfg, now) && !Cron.IsExpired(t, now) && !Cron.ReachedMax(t)
    requires t.state.Pending? && !t.paused && !t.cancelRequested && t.nextFire.Some? && t.nextFire.value <= now
    ensures Cron.ScanTask(o, t, now, 0)
         == Cron.ScanEffect(!Cron.ShouldSkipTrigger(o, t.cfg, now), None, Some(U64_MAX), None)
  {
  }

  lemma SoleIsLost(p: Params, s: Sys, made: Task, row: Task)
    requires Reachable(p, s) && Sole(s, made, row, [], []) && Calm(s) && s.h.clock.Some?
    requires row.state.Pending? && IsStuck(row) && Cron.IsBuilt(p.oracle, made)
    ensures LostUnaltered(p.oracle, s, ID, made.cfg) && CanBeLost(p, made.cfg)
  {
    SoleIsUnaltered(s, made, row);
    assert Reachable(p, s) && LostUnaltered(p.oracle, s, ID, made.cfg);
  }

  function UsedUp(t: Task): Task {
    t.(nextFire := Some(U64_MAX))
  }

  /** After the scan that uses up the trigger. */
  lemma TriggerGone(p: Params, cfg: TaskConfig, now: u64) returns (s: Sys)
    requires p.cap >= 1 && p.batch >= 1 && cfg.runAt.Some? && Date(cfg) != U64_MAX && InWindow(cfg, now)
    ensures var t := RunAtTask(cfg, now);
            && Reachable(p, s) && Sole(s, t, UsedUp(t), [], []) && s.e.q.buckets == map[] && s.h.clock == Some(now)
            && Scanning(s, Scan([], now), if Cron.ShouldSkipTrigger(p.oracle, cfg, now) then [] else [ID])
  {
    var t := RunAtTask(cfg, now);
    var due := t.(nextFire := Some(now));
    var s0 := Primed(p, t);
    var s1 := ScanBegins(p, s0, t, due, [], [], now);
    DueRunAtIsUsedUp(p.oracle, due, now);
    s := ScanVisits(p, s1, t, due, [], [], due, now);
  }

  lemma SkippedIsLost(p: Params, cfg: TaskConfig, now: u64)
    requires p.cap >= 1 && p.batch >= 1 && cfg.runAt.Some? && Date(cfg) != U64_MAX && IsSkipped(p.oracle, cfg, now)
    ensures CanBeLost(p, cfg)
  {
    var t := RunAtTask(cfg, now);
    var s := TriggerGone(p, cfg, now);
    RunAtBuilds(p.oracle, cfg, now);
    SoleIsLost(p, s, t, UsedUp(t));
  }

  lemma FiredPeriodicIsLost(p: Params, cfg: TaskConfig, now: u64)
    requires p.cap >= 1 && p.batch >= 1 && cfg.runAt.Some? && Date(cfg) != U64_MAX && !IsOnce(cfg)
    requires InWindow(cfg, now) && !Cron.ShouldSkipTrigger(p.oracle, cfg, now)
    ensures CanBeLost(p, cfg)
  {
    var t := RunAtTask(cfg, now);
    var s1 := TriggerGone(p, cfg, now);
    var s2 := ScanEnds(p, s1, t, UsedUp(t), now);
    var s3 := Executed(p, s2, t, UsedUp(t), EntryOf(cfg), now);
    RunAtBuilds(p.oracle, cfg, now);
    SoleIsLost(p, s3, t, Finished(Launched(UsedUp(t), now), now));
  }

  lemma ClearedIntervalIsLost(p: Params, t: Task, now: u64)
    requires p.cap >= 1 && t == Created(t.cfg, t.nextFire, t.createdAt) && StartsAt(p.oracle, t, now)
    requires t.cfg.runAt.None? && !IsOnce(t.cfg) && t.cfg.cron.None? && Cron.HasCronTrigger(t.cfg)
    ensures CanBeLost(p, t.cfg)
  {
    var due, cleared := t.(nextFire := Some(t.createdAt)), t.(nextFire := None);
    var s0 := Primed(p, t);
    var s1 := RetryBegins(p, s0, t, due, t.createdAt);
    var s2 := RetryVisits(p, s1, t, due, t.createdAt);
    var s3 := Executed(p, s2, t, cleared, EntryOf(t.cfg), now);
    SoleIsLost(p, s3, t, Finished(Launched(cleared, now), now));
  }

  /** Any other task of the configuration that builds and starts does, too. */
  lemma LosableInterval(p: Params, cfg: TaskConfig)
    requires p.cap >= 1 && CanBuildAndStart(p.oracle, cfg)
    requires cfg.runAt.None? && !IsOnce(cfg) && cfg.cron.None? && Cron.HasCronTrigger(cfg)
    ensures CanBeLost(p, cfg)
  {
    var created: Task, now: u64 :| created.cfg == cfg && StartsAt(p.oracle, created, now);
    BuiltAlike(p.oracle, created);
    ClearedIntervalIsLost(p, Created(cfg, created.nextFire, created.createdAt), now);
  }

  /** For every configuration: some reachable state has lost an unaltered task of
      it, although it was created as it builds, no queue refused it, nothing
      saturated and no clock went back, if and only if the configuration is one
      of those above. */
  lemma CanBeLostIff(p: Params, cfg: TaskConfig)
    requires p.cap >= 1 && p.batch >= 1
    ensures CanBeLost(p, cfg) <==> Loses(p.oracle, cfg)
  {
    if Loses(p.oracle, cfg) {
      if cfg.runAt.None? {
        LosableInterval(p, cfg);
      } else if exists now: u64 :: IsSkipped(p.oracle, cfg, now) {
        var now: u64 :| IsSkipped(p.oracle, cfg, now);
        SkippedIsLost(p, cfg, now);
      } else {
        assert !IsSkipped(p.oracle, cfg, Moment(cfg));
        FiredPeriodicIsLost(p, cfg, Moment(cfg));
      }
    } else if CanBeLost(p, cfg) {
      var s, id :| Reachable(p, s) && LostUnaltered(p.oracle, s, id, cfg);
      OthersAreNeverLost(p, s, id, cfg);
    }
  }

  // ----- lost without any request -----

  // The runs above cancel and requeue the task. Those below never touch it.

  /** Lost before it ever ran. */
  ghost predicate CanNeverRun(p: Params, cfg: TaskConfig) {
    exists s, id ::
      && Reachable(p, s) && LostUnaltered(p.oracle, s, id, cfg)
      && Quiet(LifeOf(s, id)) && LifeOf(s, id).starts == 0
  }

  /** Created just before its date, the task is dropped. */
  ghost predicate DropsItsDate(o: Cron.Oracle, cfg: TaskConfig) {
    cfg.runAt.Some? && !IsPeriodic(cfg) && Date(cfg) >= 1 && IsDropped(o, RunAtTask(cfg, Date(cfg) - 1))
  }

  lemma NeverRunTakes(o: Cron.Oracle, id: Id, l: Life)
    requires Inv(id, l) && Quiet(l) && Unwrapped(l) && !l.refused && !l.parked && l.starts == 0
    requires FiredFairly(o, l) && Cron.IsBuilt(o, l.made[0])
    requires l.row.Some? && l.row.value.state.Pending? && !Held(l) && l.flights == [] && IsStuck(l.row.value)
    ensures DropsItsDate(o, l.made[0].cfg)
  {
    var created := l.made[0];
    assert Waits(created) && l.skipped;
    var now: u64 :| DropsAt(o, created, now);
    assert DropsAt(o, RunAtTask(created.cfg, Date(created.cfg) - 1), now);
  }

  lemma DroppedNeverRuns(p: Params, cfg: TaskConfig, now: u64) returns (s: Sys)
    requires p.cap >= 1 && p.batch >= 1 && cfg.runAt.Some? && !IsPeriodic(cfg) && Date(cfg) >= 1
    requires DropsAt(p.oracle, RunAtTask(cfg, Date(cfg) - 1), now)
    ensures Reachable(p, s) && LostUnaltered(p.oracle, s, ID, cfg)
    ensures Quiet(LifeOf(s, ID)) && LifeOf(s, ID).starts == 0
  {
    var t := RunAtTask(cfg, Date(cfg) - 1);
    var s0 := DispatchStep(p, t);
    var s1 := ScanBegins(p, s0, t, t, [], [], now);
    DueRunAtIsUsedUp(p.oracle, t, now);
    s := ScanVisits(p, s1, t, t, [], [], t, now);
    OthersStartNothing(p, s1.e, CronTask(0), ID);
    RunAtBuilds(p.oracle, cfg, t.createdAt);
    SoleIsLost(p, s, t, UsedUp(t));
  }

  /** For every configuration: a task of it that nobody touches can be lost
      without ever running if and only if it is a one-shot run-at task that, even
      if created just before its date, a scan can meet at a moment from its date
      on that its filters skip, inside its window and its expiry. */
  lemma CanNeverRunIff(p: Params, cfg: TaskConfig)
    requires p.cap >= 1 && p.batch >= 1
    ensures CanNeverRun(p, cfg) <==> DropsItsDate(p.oracle, cfg)
  {
    if DropsItsDate(p.oracle, cfg) {
      var now: u64 :| DropsAt(p.oracle, RunAtTask(cfg, Date(cfg) - 1), now);
      var s := DroppedNeverRuns(p, cfg, now);
      assert Reachable(p, s) && LostUnaltered(p.oracle, s, ID, cfg);
    } else if CanNeverRun(p, cfg) {
      var s, id :|
        && Reachable(p, s) && LostUnaltered(p.oracle, s, id, cfg)
        && Quiet(LifeOf(s, id)) && LifeOf(s, id).starts == 0;
      ReachableIsWell(p, s, id);
      ReachableIsFair(p, s, id);
      NeverRunTakes(p.oracle, id, LifeOf(s, id));
    }
  }

  ghost predicate CanBeLostQuietly(p: Params, cfg: TaskConfig) {
    exists s, id :: Reachable(p, s) && LostUnaltered(p.oracle, s, id, cfg) && Quiet(LifeOf(s, id))
  }

  /** A periodic run-at task that is never retried, has no rate limit and may run
      more than twice. */
  predicate IsRecurringDate(cfg: TaskConfig) {
    cfg.runAt.Some? && IsPeriodic(cfg) && cfg.maxExecutions !in {1, 2} && NeverRetimed(cfg)
  }

  /** A moment of the window from the date on. */
  function DateMoment(cfg: TaskConfig): (now: u64)
    requires DateInWindow(cfg)
    ensures InWindow(cfg, now) && Date(cfg) <= now
  {
    if Moment(cfg) < cfg.runAt.value then cfg.runAt.value else Moment(cfg)
  }

  lemma SoleIsLostQuietly(p: Params, s: Sys, made: Task, row: Task)
    requires Reachable(p, s) && Sole(s, made, row, [], []) && Calm(s) && s.h.clock.Some? && s.h.requeued == {}
    requires row.state.Pending? && IsStuck(row) && Cron.IsBuilt(p.oracle, made)
    ensures CanBeLostQuietly(p, made.cfg)
  {
    SoleIsLost(p, s, made, row);
    SoleIsUnaltered(s, made, row);
    assert Reachable(p, s) && LostUnaltered(p.oracle, s, ID, made.cfg) && Quiet(LifeOf(s, ID));
  }

  /** Dispatched and executed, it is Pending with its fire time still to come. */
  lemma RunOnce(p: Params, cfg: TaskConfig, now: u64) returns (s: Sys)
    requires p.cap >= 1 && IsRecurringDate(cfg) && InWindow(cfg, now) && Date(cfg) <= now
    ensures var t := RunAtTask(cfg, now);
            && Reachable(p, s) && Sole(s, t, Finished(Launched(t, now), now), [], []) && Calm(s)
            && s.h.requeued == {} && s.h.clock == Some(now)
  {
    var t := RunAtTask(cfg, now);
    var s0 := DispatchStep(p, t);
    s := Executed(p, s0, t, t, EntryOf(cfg), now);
  }

  lemma RecurringIsLostQuietly(p: Params, cfg: TaskConfig)
    requires p.cap >= 1 && p.batch >= 1 && IsRecurringDate(cfg) && DateInWindow(cfg)
    ensures CanBeLostQuietly(p, cfg)
  {
    var now := DateMoment(cfg);
    var t := RunAtTask(cfg, now);
    var once := Finished(Launched(t, now), now);
    var s0 := RunOnce(p, cfg, now);
    RunAtBuilds(p.oracle, cfg, now);
    var s1 := ScanBegins(p, s0, t, once, [], [], now);
    DueRunAtIsUsedUp(p.oracle, once, now);
    var s2 := ScanVisits(p, s1, t, once, [], [], once, now);
    if Cron.ShouldSkipTrigger(p.oracle, cfg, now) {
      SoleIsLostQuietly(p, s2, t, UsedUp(once));
    } else {
      var s3 := ScanEnds(p, s2, t, UsedUp(once), now);
      var s4 := Executed(p, s3, t, UsedUp(once), EntryOf(cfg), now);
      SoleIsLostQuietly(p, s4, t, Finished(Launched(UsedUp(once), now), now));
    }
  }

  lemma QuietLossTakes(o: Cron.Oracle, id: Id, l: Life)
    requires Inv(id, l) && Quiet(l) && !l.refused && !l.parked && IsRecurringDate(l.made[0].cfg)
    requires FiredFairly(o, l) && Cron.IsBuilt(o, l.made[0])
    requires l.row.Some? && IsStuck(l.row.value)
    ensures DateInWindow(l.made[0].cfg)
  {
    assert l.fired;
  }

  /** For every such configuration: a task of it that nobody touches can be lost
      if and only if its date is not negative and some moment of its window is
      not before it. */
  lemma RecurringIsLostQuietlyIff(p: Params, cfg: TaskConfig)
    requires p.cap >= 1 && p.batch >= 1 && IsRecurringDate(cfg)
    ensures CanBeLostQuietly(p, cfg) <==> DateInWindow(cfg)
  {
    if DateInWindow(cfg) {
      RecurringIsLostQuietly(p, cfg);
    } else if CanBeLostQuietly(p, cfg) {
      var s, id :| Reachable(p, s) && LostUnaltered(p.oracle, s, id, cfg) && Quiet(LifeOf(s, id));
      ReachableIsWell(p, s, id);
      ReachableIsFair(p, s, id);
      QuietLossTakes(p.oracle, id, LifeOf(s, id));
    }
  }

  // ----- a dispatch into a full queue -----

  /** A task to be run at once: it has no trigger. */
  predicate IsImmediate(cfg: TaskConfig) {
    cfg.runAt.None? && cfg.interval.None? && !Cron.HasCronTrigger(cfg)
  }

  /** A dispatch under an id that is nowhere in use leaves the task lost if and
      only if it is not queued, because the queue is full or the dispatch is
      deferred, and it is stuck; for a task without a trigger, if and only if
      the queue is full. */
  lemma DispatchLosesIff(p: Params, s: Sys, b: Chord.Built, cfg: TaskConfig, now: u64)
    requires b.id !in s.e.q.store.tasks && !Held(LifeOf(s, b.id)) && FlightsOf(s.e.q, b.id) == []
    ensures Lost(Next(p, s, Action.Dispatch(b, cfg, now)), b.id)
       <==> (|s.e.q.pending| >= p.cap || IsDeferred(cfg, b.nextFire, now))
            && IsStuck(NewTask(b.id, cfg, b.nextFire, now))
    ensures b.nextFire.None? && IsImmediate(cfg) ==>
              (Lost(Next(p, s, Action.Dispatch(b, cfg, now)), b.id) <==> |s.e.q.pending| >= p.cap)
  {
    var q1 := s.e.q.(store := PutTask(if cfg.replaceExisting then DeleteTask(s.e.q.store, b.id) else s.e.q.store,
                                      NewTask(b.id, cfg, b.nextFire, now)));
    EnqueueGrows(q1, p.cap, b.id, cfg.priority);
  }

  /** An id longer than any in use. */
  function NameOf(n: nat): Id {
    seq(n, _ => 'a')
  }

  ghost predicate Filled(o: Cron.Oracle, s: Sys, n: nat, now: u64) {
    && |s.e.q.pending| == n && s.e.q.timers == [] && s.e.q.flights == map[]
    && s.e.callbacks == [] && s.e.due == []
    && (forall id :: id in s.e.q.store.tasks || id in Ids(s.e.q.pending) ==> |id| < n)
    && (forall t :: t in s.e.q.store.inserted ==> Cron.IsBuilt(o, t))
    && s.h.clock.Some? && s.h.clock.value <= now
  }

  lemma ImmediateBuilds(o: Cron.Oracle, id: Id, cfg: TaskConfig, now: u64)
    requires IsImmediate(cfg)
    ensures Cron.IsBuilt(o, NewTask(id, cfg, None, now))
  {
    Cron.CronTriggerIffExprs(cfg);
    assert Cron.InitialNextFire(o, cfg, now, 0) == Some(None);
  }

  lemma FillOne(p: Params, s: Sys, n: nat, cfg: TaskConfig, now: u64) returns (s': Sys)
    requires Reachable(p, s) && Filled(p.oracle, s, n, now) && n < p.cap && IsImmediate(cfg) && now <= I64_MAX
    ensures Reachable(p, s') && Filled(p.oracle, s', n + 1, now)
  {
    var a := Action.Dispatch(Chord.Built(NameOf(n), None), cfg, now);
    ReachStep(p, s, a);
    s' := Next(p, s, a);
    FilledQueue(s.e.q, p.cap, Chord.Built(NameOf(n), None), cfg, now);
    ImmediateBuilds(p.oracle, NameOf(n), cfg, now);
    ClockOfStep(p, s, a);
  }

  lemma FilledQueue(q: QueueState, cap: nat, b: Chord.Built, cfg: TaskConfig, now: u64)
    requires b.id !in q.store.tasks && b.nextFire.None? && |q.pending| < cap
    ensures var q' := DispatchOp(q, cap, b, cfg, now).0;
            && q'.store.tasks.Keys == q.store.tasks.Keys + {b.id}
            && q'.store.inserted == q.store.inserted + [NewTask(b.id, cfg, None, now)]
            && |q'.pending| == |q.pending| + 1 && Ids(q'.pending) == Ids(q.pending) + {b.id}
            && q'.timers == q.timers && q'.flights == q.flights
  {
    PushContents(q.pending, cap, Entry(cfg.priority, b.id));
    PushIds(q.pending, cap, Entry(cfg.priority, b.id));
  }

  /** Whatever its bound, the queue can be full in a reachable state while an id
      is nowhere in use: a dispatch under it is refused and the task lost. All
      tasks dispatched so far are of a configuration without a trigger, and were
      created as it builds. */
  lemma {:induction false} QueueCanFill(p: Params, n: nat, cfg: TaskConfig, now: u64) returns (s: Sys)
    requires n <= p.cap && IsImmediate(cfg) && now <= I64_MAX
    ensures Reachable(p, s) && Filled(p.oracle, s, n, now)
    ensures !Held(LifeOf(s, NameOf(n))) && FlightsOf(s.e.q, NameOf(n)) == [] && NameOf(n) !in s.e.q.store.tasks
  {
    if n == 0 {
      StartIsReachable(p);
      s := START;
    } else {
      var before := QueueCanFill(p, n - 1, cfg, now);
      s := FillOne(p, before, n - 1, cfg, now);
    }
    NoIds();
  }
}
