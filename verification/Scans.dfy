/** What a whole scan of the cron scheduler decides for a task it reaches, told in
    the task's own fields and in dates, apart from the scan itself. */
module Scans {
  import opened Types
  import opened Store
  import opened Cron

  // ----- a task the scan reaches -----

  /** The listing holds the task's row at `j`, no other of its id, and the scan
      reaches it before its batch is full. */
  ghost predicate IsReached(o: Oracle, s: StoreState, list: seq<Task>, j: nat, now: u64, cap: nat, draws: Id -> nat) {
    && j < |list| && list[j].id in s.tasks && s.tasks[list[j].id] == list[j]
    && (forall i :: 0 <= i < |list| && i != j ==> list[i].id != list[j].id)
    && |ScanAll(o, s, list[..j], now, cap, draws).1| < cap
  }

  /** The events of one task, in order. */
  function EventsOf(es: seq<Event>, id: Id): seq<Event> {
    if es == [] then []
    else EventsOf(es[..|es| - 1], id) + (if es[|es| - 1].taskId == id then [es[|es| - 1]] else [])
  }

  /** The task got this event and no other. */
  predicate Tells(s: StoreState, s': StoreState, id: Id, told: Option<EventType>, now: u64) {
    EventsOf(s'.events, id) == EventsOf(s.events, id) + (if told.Some? then [Event(id, told.value, now)] else [])
  }

  /** The scan did to the task of `id` what `e` says, and nothing else. */
  predicate Did(s: StoreState, s': StoreState, due: seq<Id>, id: Id, e: ScanEffect, now: u64) {
    && id in s.tasks && id in s'.tasks
    && s'.tasks[id] == RowAfter(s.tasks[id], e, now)
    && (id in due <==> e.due)
    && Tells(s, s', id, e.event, now)
  }

  lemma EffectTells(s: StoreState, id: Id, e: ScanEffect, now: u64, other: Id)
    ensures Tells(s, ApplyEffect(s, id, e, now), other, if other == id then e.event else None, now)
  {
    if e.event.Some? {
      EventsOfAppend(s.events, Event(id, e.event.value, now), other);
    }
    assert EventsOf(s.events, other) + [] == EventsOf(s.events, other);
  }

  lemma EventsOfAppend(es: seq<Event>, e: Event, id: Id)
    ensures EventsOf(es + [e], id) == EventsOf(es, id) + (if e.taskId == id then [e] else [])
  {
    assert (es + [e])[..|es|] == es;
  }

  lemma {:induction false} NotListedIsLeftAlone(o: Oracle, s: StoreState, list: seq<Task>, now: u64, cap: nat,
                                                draws: Id -> nat, id: Id)
    requires id in s.tasks && forall i :: 0 <= i < |list| ==> list[i].id != id
    ensures Did(s, ScanAll(o, s, list, now, cap, draws).0, ScanAll(o, s, list, now, cap, draws).1, id, NO_EFFECT, now)
  {
    if list != [] {
      var front, last := list[..|list| - 1], list[|list| - 1];
      NotListedIsLeftAlone(o, s, front, now, cap, draws, id);
      var (s1, due) := ScanAll(o, s, front, now, cap, draws);
      OtherVisitKeeps(s, s1, due, id, NO_EFFECT, now, last.id, ScanTask(o, last, now, draws(last.id)));
    }
  }

  /** Visiting a task not met before does exactly its own effect. */
  lemma VisitDoes(s: StoreState, s1: StoreState, due: seq<Id>, id: Id, e: ScanEffect, now: u64)
    requires Did(s, s1, due, id, NO_EFFECT, now)
    ensures Did(s, ApplyEffect(s1, id, e, now), if e.due then due + [id] else due, id, e, now)
  {
    EffectOnRows(s1, id, e, now);
    EffectTells(s1, id, e, now, id);
  }

  /** Visiting another task leaves what was done. */
  lemma OtherVisitKeeps(s: StoreState, s1: StoreState, due: seq<Id>, id: Id, e: ScanEffect, now: u64, other: Id,
                        e': ScanEffect)
    requires Did(s, s1, due, id, e, now) && other != id
    ensures Did(s, ApplyEffect(s1, other, e', now), if e'.due then due + [other] else due, id, e, now)
  {
    EffectOnRows(s1, other, e', now);
    EffectTells(s1, other, e', now, id);
  }

  /** A task the scan reaches gets its effect, whatever the scan does before and
      after it. */
  lemma {:induction false} ReachedIsDone(o: Oracle, s: StoreState, list: seq<Task>, j: nat, now: u64, cap: nat,
                                         draws: Id -> nat)
    requires IsReached(o, s, list, j, now, cap, draws)
    ensures Did(s, ScanAll(o, s, list, now, cap, draws).0, ScanAll(o, s, list, now, cap, draws).1, list[j].id,
                ScanTask(o, list[j], now, draws(list[j].id)), now)
    decreases |list|
  {
    var front, last, id := list[..|list| - 1], list[|list| - 1], list[j].id;
    var (s1, due) := ScanAll(o, s, front, now, cap, draws);
    if j == |list| - 1 {
      NotListedIsLeftAlone(o, s, front, now, cap, draws, id);
      VisitDoes(s, s1, due, id, ScanTask(o, last, now, draws(id)), now);
    } else {
      assert front[..j] == list[..j];
      ReachedIsDone(o, s, front, j, now, cap, draws);
      OtherVisitKeeps(s, s1, due, id, ScanTask(o, list[j], now, draws(id)), now, last.id,
                      ScanTask(o, last, now, draws(last.id)));
    }
  }

  // ----- what comes before the triggers -----

  /** An active task whose executions, expiry, pause, cancel request and dates let
      the scan look at its trigger. */
  predicate IsOpen(t: Task, now: u64) {
    && (t.cfg.maxExecutions == 0 || t.executionCount < t.cfg.maxExecutions)
    && (t.state.Pending? && t.cfg.expires != 0 ==> now <= t.createdAt + t.cfg.expires)
    && !t.paused && !t.cancelRequested && !t.state.Interrupted?
    && (t.cfg.startDate.Some? ==> t.cfg.startDate.value <= AsI64(now))
    && (t.cfg.endDate.Some? ==> AsI64(now) <= t.cfg.endDate.value)
  }

  /** How a task reached by the scan but not open comes out of it. */
  lemma ClosedTaskIs(o: Oracle, s: StoreState, list: seq<Task>, j: nat, now: u64, cap: nat, draws: Id -> nat)
    requires IsReached(o, s, list, j, now, cap, draws) && IsActive(list[j]) && !IsOpen(list[j], now)
    ensures var t, (s', due) := list[j], ScanAll(o, s, list, now, cap, draws);
            var spent := t.cfg.maxExecutions != 0 && t.executionCount >= t.cfg.maxExecutions;
            var late := t.cfg.expires != 0 && t.state.Pending? && now > t.createdAt + t.cfg.expires;
            var held := t.paused || t.cancelRequested || t.state.Interrupted?
                        || (t.cfg.startDate.Some? && AsI64(now) < t.cfg.startDate.value);
            && t.id in s'.tasks && t.id !in due
            && Tells(s, s', t.id, if late && !spent then Some(ExpiredEvent) else None, now)
            && s'.tasks[t.id] == (if spent then t.(state := Success, finishedAt := Some(now))
                                  else if late then t.(state := Expired, finishedAt := Some(now))
                                  else if held then t
                                  else t.(state := Success, finishedAt := Some(now)))
  {
    ReachedIsDone(o, s, list, j, now, cap, draws);
  }

  // ----- skipped days -----

  /** A trigger is skipped if and only if today's date is known and today is not
      one of the five working days where only those count, or has the year, month
      and day of one of the skip dates. */
  lemma SkippedIff(o: Oracle, cfg: TaskConfig, now: u64)
    ensures o.date(AsI64(now), cfg.timezone).None? ==> !ShouldSkipTrigger(o, cfg, now)
    ensures o.date(AsI64(now), cfg.timezone).Some? ==>
              var today := o.date(AsI64(now), cfg.timezone).value;
              (ShouldSkipTrigger(o, cfg, now)
               <==> (cfg.workdaysOnly && today.weekday !in {0, 1, 2, 3, 4})
                    || exists i :: 0 <= i < |cfg.skipDates| && FallsOn(o, cfg.skipDates[i], cfg.timezone, today))
  {
    var date := o.date(AsI64(now), cfg.timezone);
    if date.Some? {
      forall i | 0 <= i < |cfg.skipDates|
        ensures FallsOn(o, cfg.skipDates[i], cfg.timezone, date.value)
           <==> o.date(cfg.skipDates[i], cfg.timezone).Some?
                && SameDay(date.value, o.date(cfg.skipDates[i], cfg.timezone).value)
      {
      }
    }
  }

  /** The time falls on that calendar day, whatever its day of the week. */
  predicate FallsOn(o: Oracle, ts: i64, tz: Option<string>, day: CalendarDate) {
    match o.date(ts, tz)
    case None => false
    case Some(d) => (d.year, d.month, d.day) == (day.year, day.month, day.day)
  }

  /** In the batch or not, with this fire time, and otherwise as before; no event
      but perhaps a missed one. */
  predicate Scheduled(s: StoreState, s': StoreState, due: seq<Id>, now: u64, t: Task, fires: bool, next: Option<u64>,
                      missed: bool) {
    && t.id in s'.tasks && s'.tasks[t.id] == t.(nextFire := next)
    && (t.id in due <==> fires)
    && Tells(s, s', t.id, if missed then Some(Missed) else None, now)
  }

  lemma ReachedIsScheduled(o: Oracle, s: StoreState, list: seq<Task>, j: nat, now: u64, cap: nat, draws: Id -> nat)
    requires IsReached(o, s, list, j, now, cap, draws)
    requires var e := ScanTask(o, list[j], now, draws(list[j].id));
             e.setState.None? && (e.event.Some? ==> e.event == Some(Missed))
    ensures var (s', due), e := ScanAll(o, s, list, now, cap, draws), ScanTask(o, list[j], now, draws(list[j].id));
            Scheduled(s, s', due, now, list[j], e.due,
                      if e.setNextFire.Some? then e.setNextFire else list[j].nextFire, e.event.Some?)
  {
    ReachedIsDone(o, s, list, j, now, cap, draws);
  }

  // ----- run-at tasks -----

  /** The fire time of a run-at task: stored, or else configured. */
  function RunAtTime(t: Task, runAt: i64): int {
    match t.nextFire
    case Some(at) => at
    case None => if runAt >= 0 then runAt else runAt + 0x1_0000_0000_0000_0000
  }

  lemma RunAtDoes(o: Oracle, t: Task, runAt: i64, now: u64, draw: nat)
    requires IsOpen(t, now) && t.cfg.runAt == Some(runAt)
    ensures var come := RunAtTime(t, runAt) <= now;
            ScanTask(o, t, now, draw)
            == ScanEffect(come && !ShouldSkipTrigger(o, t.cfg, now), None,
                          if come then Some(0xFFFF_FFFF_FFFF_FFFF) else None, None)
  {
  }

  /** An open run-at task is put in the batch if and only if its fire time has come
      and the day is not skipped; in both cases a fire time that has come is parked
      at the largest number. */
  lemma RunAtFiresIff(o: Oracle, s: StoreState, list: seq<Task>, j: nat, now: u64, cap: nat, draws: Id -> nat,
                      runAt: i64)
    requires IsReached(o, s, list, j, now, cap, draws) && IsOpen(list[j], now) && list[j].cfg.runAt == Some(runAt)
    ensures var t, (s', due) := list[j], ScanAll(o, s, list, now, cap, draws);
            var come := RunAtTime(t, runAt) <= now;
            Scheduled(s, s', due, now, t, come && !ShouldSkipTrigger(o, t.cfg, now),
                      if come then Some(0xFFFF_FFFF_FFFF_FFFF) else t.nextFire, false)
  {
    RunAtDoes(o, list[j], runAt, now, draws(list[j].id));
    ReachedIsScheduled(o, s, list, j, now, cap, draws);
  }

  // ----- interval tasks -----

  /** A draw from the jitter: nothing without one, and less than it with one. */
  predicate IsJitter(jitter: u64, extra: int) {
    0 <= extra && (if jitter == 0 then extra == 0 else extra < jitter)
  }

  /** That time plus a draw from the jitter, in 64 bits. */
  ghost predicate IsAfter(time: int, jitter: u64, next: u64) {
    exists extra: int :: IsJitter(jitter, extra) && next == (time + extra) % 0x1_0000_0000_0000_0000
  }

  lemma WrappingIsModulo(a: u64, b: u64)
    ensures WrappingAdd(a, b) == (a + b) % 0x1_0000_0000_0000_0000
  {
  }

  /** For a sum in range, simply the sum. */
  lemma InRangeIsAfter(time: int, jitter: u64, next: u64)
    requires 0 <= time && time + jitter <= U64_MAX && IsAfter(time, jitter, next)
    ensures IsJitter(jitter, next - time)
  {
  }

  /** The fire time of an interval task: stored, or else one interval after its
      creation, at most the largest number. */
  function IntervalTime(t: Task, secs: u64): int {
    match t.nextFire
    case Some(at) => at
    case None => if t.createdAt + secs <= 0xFFFF_FFFF_FFFF_FFFF then t.createdAt + secs else 0xFFFF_FFFF_FFFF_FFFF
  }

  lemma IntervalDoes(o: Oracle, t: Task, now: u64, draw: nat, secs: u64)
    requires IsOpen(t, now) && IsIntervalTask(t.cfg, secs)
    ensures var e, come := ScanTask(o, t, now, draw), IntervalTime(t, secs) <= now;
            && e.setState.None? && e.event.None?
            && (e.due <==> come && !ShouldSkipTrigger(o, t.cfg, now))
            && (e.setNextFire.Some? <==> come)
            && (come ==> IsAfter(now + secs, t.cfg.jitter, e.setNextFire.value))
  {
    var extra := RandJitter(t.cfg.jitter, draw);
    assert IsJitter(t.cfg.jitter, extra);
    WrappingIsModulo(now, secs);
    WrappingIsModulo(WrappingAdd(now, secs), extra);
  }

  /** An open task with an interval and neither a run-at time nor an expression is
      put in the batch if and only if its fire time has come and the day is not
      skipped; in both cases a fire time that has come moves to one interval from
      now, plus less than the jitter. */
  lemma IntervalFiresIff(o: Oracle, s: StoreState, list: seq<Task>, j: nat, now: u64, cap: nat, draws: Id -> nat,
                         secs: u64) returns (next: Option<u64>)
    requires IsReached(o, s, list, j, now, cap, draws) && IsOpen(list[j], now)
    requires IsIntervalTask(list[j].cfg, secs)
    ensures var t, (s', due) := list[j], ScanAll(o, s, list, now, cap, draws);
            var come := IntervalTime(t, secs) <= now;
            && Scheduled(s, s', due, now, t, come && !ShouldSkipTrigger(o, t.cfg, now), next, false)
            && (if come then next.Some? && IsAfter(now + secs, t.cfg.jitter, next.value) else next == t.nextFire)
  {
    IntervalDoes(o, list[j], now, draws(list[j].id), secs);
    ReachedIsScheduled(o, s, list, j, now, cap, draws);
    var e := ScanTask(o, list[j], now, draws(list[j].id));
    next := if e.setNextFire.Some? then e.setNextFire else list[j].nextFire;
  }

  // ----- cron tasks -----

  /** The earliest of the next occurrences of all the expressions. */
  ghost predicate IsSoonest(o: Oracle, exprs: seq<string>, from: u64, tz: Option<string>, at: u64) {
    && (forall i :: 0 <= i < |exprs| ==>
          o.nextFire(exprs[i], from, tz).Some? && at <= o.nextFire(exprs[i], from, tz).value)
    && exists i :: 0 <= i < |exprs| && o.nextFire(exprs[i], from, tz) == Some(at)
  }

  /** Some expression has no further occurrence. */
  ghost predicate RunsOut(o: Oracle, exprs: seq<string>, from: u64, tz: Option<string>) {
    exists i :: 0 <= i < |exprs| && o.nextFire(exprs[i], from, tz).None?
  }

  /** The soonest of the next occurrences, plus less than the jitter. */
  ghost predicate NearSoonest(o: Oracle, exprs: seq<string>, from: u64, cfg: TaskConfig, next: u64) {
    exists at: u64 :: IsSoonest(o, exprs, from, cfg.timezone, at) && IsAfter(at, cfg.jitter, next)
  }

  /** The stored fire time after a visit that found it come: rolled to the soonest
      occurrence after the next second, plus less than the jitter, or kept when an
      expression has run out. */
  ghost predicate IsRolled(o: Oracle, exprs: seq<string>, now: u64, cfg: TaskConfig, before: u64, after: u64) {
    var from := if now == 0xFFFF_FFFF_FFFF_FFFF then 0 else now + 1;
    if RunsOut(o, exprs, from, cfg.timezone) then after == before
    else NearSoonest(o, exprs, from, cfg, after)
  }

  /** In time by the task's own grace, or by a minute if it has none; a task that
      coalesces always is. */
  predicate InTime(cfg: TaskConfig, at: u64, now: u64) {
    || cfg.coalesce
    || (cfg.misfireGrace != 0 && now - at <= cfg.misfireGrace)
    || (cfg.misfireGrace == 0 && now - at <= 60)
  }

  lemma RollsToSoonest(o: Oracle, t: Task, now: u64, draw: nat)
    requires IsCronTask(t.cfg) && t.nextFire.Some? && t.nextFire.value <= now
    ensures var next := CronEffect(o, t, CollectCronExprs(t.cfg), now, draw).setNextFire;
            IsRolled(o, CollectCronExprs(t.cfg), now, t.cfg, t.nextFire.value,
                     if next.Some? then next.value else t.nextFire.value)
  {
    CronTriggerIffExprs(t.cfg);
    var exprs := CollectCronExprs(t.cfg);
    var from, extra := WrappingAdd(now, 1), RandJitter(t.cfg.jitter, draw);
    MinNextFireIsSoonest(o, exprs, from, t.cfg.timezone);
    var n := MinNextFire(o, exprs, from, t.cfg.timezone);
    if n.Some? {
      assert IsSoonest(o, exprs, from, t.cfg.timezone, n.value);
      assert IsJitter(t.cfg.jitter, extra);
      WrappingIsModulo(n.value, extra);
      assert IsAfter(n.value, t.cfg.jitter, WrappingAdd(n.value, extra));
    }
  }

  lemma CronDoes(o: Oracle, t: Task, now: u64, draw: nat, at: u64)
    requires IsOpen(t, now) && IsCronTask(t.cfg) && t.nextFire == Some(at)
    ensures var e := ScanTask(o, t, now, draw);
            && e.setState.None?
            && (e.due <==> at <= now && InTime(t.cfg, at, now) && !ShouldSkipTrigger(o, t.cfg, now))
            && e.event == (if at <= now && !InTime(t.cfg, at, now) then Some(Missed) else None)
            && (at > now ==> e.setNextFire.None?)
  {
    CronTriggerIffExprs(t.cfg);
  }

  /** An open cron task whose stored fire time has come is put in the batch if and
      only if it is in time and the day is not skipped. It gets a Missed event
      exactly when it is not in time. In all cases its fire time is rolled. */
  lemma CronFiresIff(o: Oracle, s: StoreState, list: seq<Task>, j: nat, now: u64, cap: nat, draws: Id -> nat, at: u64)
    returns (next: u64)
    requires IsReached(o, s, list, j, now, cap, draws) && IsOpen(list[j], now)
    requires IsCronTask(list[j].cfg) && list[j].nextFire == Some(at) && at <= now
    ensures var t, (s', due) := list[j], ScanAll(o, s, list, now, cap, draws);
            && Scheduled(s, s', due, now, t, InTime(t.cfg, at, now) && !ShouldSkipTrigger(o, t.cfg, now), Some(next),
                         !InTime(t.cfg, at, now))
            && IsRolled(o, CollectCronExprs(t.cfg), now, t.cfg, at, next)
  {
    var t := list[j];
    CronDoes(o, t, now, draws(t.id), at);
    ReachedIsScheduled(o, s, list, j, now, cap, draws);
    CronTriggerIffExprs(t.cfg);
    RollsToSoonest(o, t, now, draws(t.id));
    var e := ScanTask(o, t, now, draws(t.id));
    next := if e.setNextFire.Some? then e.setNextFire.value else at;
  }

  /** An open task without any trigger, or a cron task whose fire time is yet to
      come, is left alone. */
  lemma UntriggeredIsLeftAlone(o: Oracle, s: StoreState, list: seq<Task>, j: nat, now: u64, cap: nat, draws: Id -> nat)
    requires IsReached(o, s, list, j, now, cap, draws) && IsOpen(list[j], now) && list[j].cfg.runAt.None?
    requires if HasCronTrigger(list[j].cfg) then list[j].nextFire.Some? && list[j].nextFire.value > now
             else list[j].cfg.interval.None?
    ensures var (s', due) := ScanAll(o, s, list, now, cap, draws);
            Scheduled(s, s', due, now, list[j], false, list[j].nextFire, false)
  {
    CronTriggerIffExprs(list[j].cfg);
    ReachedIsScheduled(o, s, list, j, now, cap, draws);
  }

  // ----- the time a task is built with -----

  /** That time plus a draw from the jitter, or the largest number if that is less. */
  predicate IsCappedAfter(time: int, jitter: u64, next: u64) {
    if next < 0xFFFF_FFFF_FFFF_FFFF then IsJitter(jitter, next - time)
    else time + (if jitter == 0 then 0 else jitter - 1) >= 0xFFFF_FFFF_FFFF_FFFF
  }

  ghost predicate NearSoonestCapped(o: Oracle, exprs: seq<string>, from: u64, cfg: TaskConfig, next: u64) {
    exists at: u64 :: IsSoonest(o, exprs, from, cfg.timezone, at) && IsCappedAfter(at, cfg.jitter, next)
  }

  /** A task builds unless it needs an occurrence of an expression that has none;
      its fire time is its run-at time, the soonest occurrence of its expressions,
      or one interval from now, the latter two plus less than its jitter. */
  lemma BuiltFireTimeIs(o: Oracle, cfg: TaskConfig, now: u64, draw: nat)
    ensures var built, exprs := InitialNextFire(o, cfg, now, draw), CollectCronExprs(cfg);
            if cfg.runAt.Some? then
              && built.Some? && built.value.Some?
              && built.value.value == (if cfg.runAt.value >= 0 then cfg.runAt.value
                                       else cfg.runAt.value + 0x1_0000_0000_0000_0000)
            else if HasCronTrigger(cfg) then
              && (built.None? <==> RunsOut(o, exprs, now, cfg.timezone))
              && (built.Some? ==> built.value.Some? && NearSoonestCapped(o, exprs, now, cfg, built.value.value))
            else if cfg.interval.Some? then
              && built.Some? && built.value.Some?
              && IsCappedAfter(now + cfg.interval.value, cfg.jitter, built.value.value)
            else built == Some(None)
  {
    CronTriggerIffExprs(cfg);
    var exprs := CollectCronExprs(cfg);
    if cfg.runAt.None? && exprs != [] {
      MinNextFireIsSoonest(o, exprs, now, cfg.timezone);
      var n := MinNextFire(o, exprs, now, cfg.timezone);
      if n.Some? {
        assert IsSoonest(o, exprs, now, cfg.timezone, n.value);
        assert IsCappedAfter(n.value, cfg.jitter, InitialNextFire(o, cfg, now, draw).value.value);
      }
    }
  }
}
