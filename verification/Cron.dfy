/** The cron scheduler: one scan over the active tasks, and runs of scans.

    The cron expression library and the calendar are an oracle. */
module Cron {
  import opened Types
  import opened Store

  datatype CalendarDate = CalendarDate(year: int, month: int, day: int, weekday: nat)

  /** `nextFire` is the next occurrence of an expression after a time, nothing
      when the expression does not parse or never fires again; `date` is the
      calendar date of a timestamp. */
  datatype Oracle = Oracle(
    nextFire: (string, u64, Option<string>) -> Option<u64>,
    date: (i64, Option<string>) -> Option<CalendarDate>)

  /** The next occurrence after a time, if there is one, is later. */
  ghost predicate IsHonest(o: Oracle) {
    forall e: string, from: u64, tz: Option<string> ::
      o.nextFire(e, from, tz).Some? ==> o.nextFire(e, from, tz).value > from
  }

  const MISFIRE_GRACE_TIME_SECS: u64 := 60

  /** A draw from [0, secs). */
  function RandJitter(secs: u64, draw: nat): (j: u64)
    ensures j <= secs
  {
    if secs == 0 then 0 else draw % secs
  }

  predicate ShouldFireDue(nextFire: u64, now: u64, coalesce: bool, perJobGrace: u64) {
    coalesce
    || SaturatingSub(now, nextFire) <= (if perJobGrace > 0 then perJobGrace else MISFIRE_GRACE_TIME_SECS)
  }

  predicate HasSkipFilters(cfg: TaskConfig) {
    cfg.skipDates != [] || cfg.workdaysOnly
  }

  predicate SameDay(a: CalendarDate, b: CalendarDate) {
    a.year == b.year && a.month == b.month && a.day == b.day
  }

  predicate OnSkipDate(o: Oracle, dates: seq<i64>, tz: Option<string>, today: CalendarDate) {
    exists i :: 0 <= i < |dates| && o.date(dates[i], tz).Some? && SameDay(today, o.date(dates[i], tz).value)
  }

  predicate ShouldSkipTrigger(o: Oracle, cfg: TaskConfig, now: u64) {
    if !HasSkipFilters(cfg) then false
    else
      match o.date(AsI64(now), cfg.timezone)
      case None => false
      case Some(today) =>
        || OnSkipDate(o, cfg.skipDates, cfg.timezone, today)
        || (cfg.workdaysOnly && today.weekday >= 5)
  }

  function NonEmpty(exprs: seq<string>): seq<string> {
    if exprs == [] then []
    else (if exprs[0] == "" then [] else [exprs[0]]) + NonEmpty(exprs[1..])
  }

  function CollectCronExprs(cfg: TaskConfig): seq<string> {
    (if cfg.cron.Some? then [cfg.cron.value] else [])
    + NonEmpty(cfg.orCron.GetOr([]))
  }

  predicate HasCronTrigger(cfg: TaskConfig) {
    cfg.cron.Some? || exists i :: 0 <= i < |cfg.orCron.GetOr([])| && cfg.orCron.GetOr([])[i] != ""
  }

  lemma {:induction false} NonEmptyIff(exprs: seq<string>)
    ensures NonEmpty(exprs) != [] <==> exists i :: 0 <= i < |exprs| && exprs[i] != ""
  {
    if exprs != [] {
      NonEmptyIff(exprs[1..]);
      if NonEmpty(exprs[1..]) != [] {
        var i :| 0 <= i < |exprs[1..]| && exprs[1..][i] != "";
        assert exprs[i + 1] != "";
      }
      if exists i :: 0 <= i < |exprs| && exprs[i] != "" {
        var i :| 0 <= i < |exprs| && exprs[i] != "";
        if i > 0 {
          assert exprs[1..][i - 1] != "";
        }
      }
    }
  }

  lemma {:induction false} NonEmptyKeeps(exprs: seq<string>, e: string)
    ensures e in NonEmpty(exprs) <==> e in exprs && e != ""
  {
    if exprs != [] {
      NonEmptyKeeps(exprs[1..], e);
    }
  }

  /** The expressions of a task are its cron expression and those of its or-cron
      expressions that are not empty. */
  lemma ExprsAre(cfg: TaskConfig, e: string)
    ensures e in CollectCronExprs(cfg)
       <==> cfg.cron == Some(e) || (cfg.orCron.Some? && e in cfg.orCron.value && e != "")
  {
    NonEmptyKeeps(cfg.orCron.GetOr([]), e);
  }

  /** The two tests for a cron trigger agree. */
  lemma CronTriggerIffExprs(cfg: TaskConfig)
    ensures HasCronTrigger(cfg) <==> CollectCronExprs(cfg) != []
  {
    NonEmptyIff(cfg.orCron.GetOr([]));
  }

  /** The soonest occurrence, nothing when some expression has none. */
  function MinNextFire(o: Oracle, exprs: seq<string>, from: u64, tz: Option<string>): Option<u64> {
    if exprs == [] then None
    else
      match o.nextFire(exprs[0], from, tz)
      case None => None
      case Some(t) =>
        if |exprs| == 1 then Some(t)
        else
          match MinNextFire(o, exprs[1..], from, tz)
          case None => None
          case Some(m) => Some(if t <= m then t else m)
  }

  /** The minimum is there if and only if every expression has an occurrence, and
      then it is the soonest of them. */
  lemma {:induction false} MinNextFireIsSoonest(o: Oracle, exprs: seq<string>, from: u64, tz: Option<string>)
    requires exprs != []
    ensures MinNextFire(o, exprs, from, tz).Some?
       <==> forall i :: 0 <= i < |exprs| ==> o.nextFire(exprs[i], from, tz).Some?
    ensures MinNextFire(o, exprs, from, tz).Some? ==>
              && (forall i :: 0 <= i < |exprs| ==>
                    MinNextFire(o, exprs, from, tz).value <= o.nextFire(exprs[i], from, tz).value)
              && exists i :: 0 <= i < |exprs| && o.nextFire(exprs[i], from, tz) == MinNextFire(o, exprs, from, tz)
  {
    if |exprs| == 1 {
      assert o.nextFire(exprs[0], from, tz) == MinNextFire(o, exprs, from, tz);
    } else {
      var rest := exprs[1..];
      MinNextFireIsSoonest(o, rest, from, tz);
      assert forall i :: 0 < i < |exprs| ==> exprs[i] == rest[i - 1];
      assert forall i :: 0 <= i < |rest| ==> rest[i] == exprs[i + 1];
      if MinNextFire(o, exprs, from, tz).Some? {
        assert o.nextFire(exprs[0], from, tz).Some?;
        var k :| 0 <= k < |rest| && o.nextFire(rest[k], from, tz) == MinNextFire(o, rest, from, tz);
        assert o.nextFire(exprs[if MinNextFire(o, exprs, from, tz) == o.nextFire(exprs[0], from, tz) then 0 else k + 1],
                          from, tz) == MinNextFire(o, exprs, from, tz);
      }
    }
  }

  lemma MinNextFireIsFuture(o: Oracle, exprs: seq<string>, from: u64, tz: Option<string>)
    requires IsHonest(o) && exprs != []
    ensures MinNextFire(o, exprs, from, tz).Some? ==> MinNextFire(o, exprs, from, tz).value > from
  {
    MinNextFireIsSoonest(o, exprs, from, tz);
  }

  /** The fire time a task is built with; nothing when it does not build,
      because some expression has no occurrence. */
  function InitialNextFire(o: Oracle, cfg: TaskConfig, now: u64, draw: nat): Option<Option<u64>> {
    if cfg.runAt.Some? then Some(Some(AsU64(cfg.runAt.value)))
    else if CollectCronExprs(cfg) != [] then
      match MinNextFire(o, CollectCronExprs(cfg), now, cfg.timezone)
      case None => None
      case Some(t) => Some(Some(SaturatingAdd(t, RandJitter(cfg.jitter, draw))))
    else if cfg.interval.Some? then
      Some(Some(SaturatingAdd(SaturatingAdd(now, cfg.interval.value), RandJitter(cfg.jitter, draw))))
    else Some(None)
  }

  /** Created with a fire time that building it at its creation time yields. */
  ghost predicate IsBuilt(o: Oracle, t: Task) {
    exists draw: nat :: InitialNextFire(o, t.cfg, t.createdAt, draw) == Some(t.nextFire)
  }

  /** A task that builds has a fire time exactly when it has a trigger. */
  lemma BuiltWithFireTimeIffTriggered(o: Oracle, cfg: TaskConfig, now: u64, draw: nat)
    requires InitialNextFire(o, cfg, now, draw).Some?
    ensures InitialNextFire(o, cfg, now, draw).value.Some?
        <==> cfg.runAt.Some? || HasCronTrigger(cfg) || cfg.interval.Some?
  {
    CronTriggerIffExprs(cfg);
  }

  // ----- one task of a scan -----

  /** What a scan does to one task: at most one write of each kind, decided from
      the scanned copy alone. */
  datatype ScanEffect = ScanEffect(
    due: bool,
    setState: Option<TaskState>,
    setNextFire: Option<u64>,
    event: Option<EventType>)

  const NO_EFFECT: ScanEffect := ScanEffect(false, None, None, None)

  predicate ReachedMax(t: Task) {
    t.cfg.maxExecutions > 0 && t.executionCount >= t.cfg.maxExecutions
  }

  predicate IsExpired(t: Task, now: u64) {
    t.cfg.expires > 0 && t.state.Pending? && now > SaturatingAdd(t.createdAt, t.cfg.expires)
  }

  predicate BeforeStart(cfg: TaskConfig, now: u64) {
    cfg.startDate.Some? && AsI64(now) < cfg.startDate.value
  }

  predicate AfterEnd(cfg: TaskConfig, now: u64) {
    cfg.endDate.Some? && AsI64(now) > cfg.endDate.value
  }

  function RunAtEffect(o: Oracle, t: Task, runAt: i64, now: u64): ScanEffect {
    var next := t.nextFire.GetOr(AsU64(runAt));
    if next > now then NO_EFFECT
    else ScanEffect(!ShouldSkipTrigger(o, t.cfg, now), None, Some(U64_MAX), None)
  }

  function IntervalEffect(o: Oracle, t: Task, secs: u64, now: u64, draw: nat): ScanEffect {
    var next := t.nextFire.GetOr(SaturatingAdd(t.createdAt, secs));
    if next > now then NO_EFFECT
    else
      var newNext := WrappingAdd(WrappingAdd(now, secs), RandJitter(t.cfg.jitter, draw));
      ScanEffect(!ShouldSkipTrigger(o, t.cfg, now), None, Some(newNext), None)
  }

  function CronEffect(o: Oracle, t: Task, exprs: seq<string>, now: u64, draw: nat): ScanEffect {
    var next := if t.nextFire.Some? then t.nextFire else MinNextFire(o, exprs, now, t.cfg.timezone);
    if next.None? || next.value > now then NO_EFFECT
    else
      var fire := ShouldFireDue(next.value, now, t.cfg.coalesce, t.cfg.misfireGrace);
      var rolled :=
        match MinNextFire(o, exprs, WrappingAdd(now, 1), t.cfg.timezone)
        case None => None
        case Some(n) => Some(WrappingAdd(n, RandJitter(t.cfg.jitter, draw)));
      ScanEffect(fire && !ShouldSkipTrigger(o, t.cfg, now), None, rolled, if fire then None else Some(Missed))
  }

  /** One iteration of `scan_once`: run-at, then cron, then interval. */
  function ScanTask(o: Oracle, t: Task, now: u64, draw: nat): ScanEffect {
    if ReachedMax(t) then NO_EFFECT.(setState := if t.state.Success? then None else Some(Success))
    else if IsExpired(t, now) then NO_EFFECT.(setState := Some(Expired), event := Some(ExpiredEvent))
    else if t.paused || t.cancelRequested || t.state.Interrupted? || BeforeStart(t.cfg, now) then NO_EFFECT
    else if AfterEnd(t.cfg, now) then NO_EFFECT.(setState := if t.state.Success? then None else Some(Success))
    else if t.cfg.runAt.Some? then RunAtEffect(o, t, t.cfg.runAt.value, now)
    else if t.cfg.interval.Some? && !HasCronTrigger(t.cfg) then IntervalEffect(o, t, t.cfg.interval.value, now, draw)
    else
      var exprs := CollectCronExprs(t.cfg);
      if exprs == [] then NO_EFFECT else CronEffect(o, t, exprs, now, draw)
  }

  /** The row after the effect. */
  function RowAfter(t: Task, e: ScanEffect, now: u64): Task {
    var t1 := if e.setState.Some? then TaskWithState(t, e.setState.value, None, Some(now)) else t;
    if e.setNextFire.Some? then t1.(nextFire := e.setNextFire) else t1
  }

  /** Applying an effect to the store, whatever the row holds by then. */
  function ApplyEffect(s: StoreState, id: Id, e: ScanEffect, now: u64): StoreState {
    var s1 := if e.setState.Some? then UpdateState(s, id, e.setState.value, None, Some(now)) else s;
    var s2 := if e.event.Some? then RecordEvent(s1, id, e.event.value, now) else s1;
    if e.setNextFire.Some? then UpdateNextFire(s2, id, e.setNextFire) else s2
  }

  /** One row is rewritten, the others stay. */
  predicate Rewrites(s: StoreState, s': StoreState, id: Id, row: Task)
    requires id in s.tasks
  {
    s'.tasks == s.tasks[id := row]
  }

  lemma EffectRewrites(s: StoreState, id: Id, e: ScanEffect, now: u64)
    requires id in s.tasks
    ensures Rewrites(s, ApplyEffect(s, id, e, now), id, RowAfter(s.tasks[id], e, now))
  {
    assert s.tasks == s.tasks[id := s.tasks[id]];
  }

  lemma EffectOnRows(s: StoreState, id: Id, e: ScanEffect, now: u64)
    ensures ApplyEffect(s, id, e, now).tasks.Keys == s.tasks.Keys
    ensures id in s.tasks ==> ApplyEffect(s, id, e, now).tasks[id] == RowAfter(s.tasks[id], e, now)
    ensures forall other :: other in s.tasks && other != id ==>
              ApplyEffect(s, id, e, now).tasks[other] == s.tasks[other]
  {
    if id in s.tasks {
      EffectRewrites(s, id, e, now);
    }
  }

  // ----- a whole scan -----

  function ScanAll(o: Oracle, s: StoreState, list: seq<Task>, now: u64, cap: nat, draws: Id -> nat): (StoreState,
                   seq<Id>) {
    if list == [] then (s, [])
    else
      var (s1, due) := ScanAll(o, s, list[..|list| - 1], now, cap, draws);
      if |due| >= cap then (s1, due)
      else
        var t := list[|list| - 1];
        var e := ScanTask(o, t, now, draws(t.id));
        (ApplyEffect(s1, t.id, e, now), if e.due then due + [t.id] else due)
  }

  class CronScheduler {
    const store: InMemoryStore

    constructor (store: InMemoryStore)
      ensures this.store == store
    {
      this.store := store;
    }

    /** Scans the active tasks until the cap is reached; `scanned` is the order
        in which the store happened to list them. */
    method ScanOnce(o: Oracle, now: u64, cap: nat, draws: Id -> nat) returns (due: seq<Id>, scanned: seq<Task>)
      requires Keyed(store.View())
      modifies store
      ensures IsActiveList(old(store.View()), scanned)
      ensures (store.View(), due) == ScanAll(o, old(store.View()), scanned, now, cap, draws)
    {
      scanned := store.LoadActive();
      due := [];
      var i := 0;
      while i < |scanned| && |due| < cap
        invariant 0 <= i <= |scanned|
        invariant (store.View(), due) == ScanAll(o, old(store.View()), scanned[..i], now, cap, draws)
      {
        var fired := ScanOne(o, scanned[i], now, draws(scanned[i].id));
        assert scanned[..i + 1][..i] == scanned[..i];
        if fired {
          due := due + [scanned[i].id];
        }
        i := i + 1;
      }
      if i < |scanned| {
        CutOff(o, old(store.View()), scanned, i, now, cap, draws);
      } else {
        assert scanned[..i] == scanned;
      }
    }

    /** The body of the scan loop. */
    method ScanOne(o: Oracle, t: Task, now: u64, draw: nat) returns (due: bool)
      modifies store
      ensures due == ScanTask(o, t, now, draw).due
      ensures store.View() == ApplyEffect(old(store.View()), t.id, ScanTask(o, t, now, draw), now)
    {
      due := false;
      if t.cfg.maxExecutions > 0 && t.executionCount >= t.cfg.maxExecutions {
        if !t.state.Success? {
          store.SetState(t.id, Success, None, Some(now));
        }
        return;
      }
      if t.cfg.expires > 0 && t.state.Pending? {
        var expiryTs := SaturatingAdd(t.createdAt, t.cfg.expires);
        if now > expiryTs {
          store.SetState(t.id, Expired, None, Some(now));
          store.AddEvent(t.id, ExpiredEvent, now);
          return;
        }
      }
      if t.paused || t.cancelRequested {
        return;
      }
      if t.state.Interrupted? {
        return;
      }
      if t.cfg.startDate.Some? && AsI64(now) < t.cfg.startDate.value {
        return;
      }
      if t.cfg.endDate.Some? && AsI64(now) > t.cfg.endDate.value {
        if !t.state.Success? {
          store.SetState(t.id, Success, None, Some(now));
        }
        return;
      }
      if t.cfg.runAt.Some? {
        due := ScanRunAt(o, t, t.cfg.runAt.value, now);
        return;
      }
      if t.cfg.interval.Some? && !HasCronTrigger(t.cfg) {
        due := ScanInterval(o, t, t.cfg.interval.value, now, draw);
        return;
      }
      var exprs := CollectCronExprs(t.cfg);
      if exprs != [] {
        due := ScanCron(o, t, exprs, now, draw);
      }
    }

    method ScanRunAt(o: Oracle, t: Task, runAt: i64, now: u64) returns (due: bool)
      modifies store
      ensures due == RunAtEffect(o, t, runAt, now).due
      ensures store.View() == ApplyEffect(old(store.View()), t.id, RunAtEffect(o, t, runAt, now), now)
    {
      due := false;
      var next := t.nextFire.GetOr(AsU64(runAt));
      if next <= now {
        if !ShouldSkipTrigger(o, t.cfg, now) {
          due := true;
        }
        store.SetNextFire(t.id, Some(U64_MAX));
      }
    }

    method ScanInterval(o: Oracle, t: Task, secs: u64, now: u64, draw: nat) returns (due: bool)
      modifies store
      ensures due == IntervalEffect(o, t, secs, now, draw).due
      ensures store.View() == ApplyEffect(old(store.View()), t.id, IntervalEffect(o, t, secs, now, draw), now)
    {
      due := false;
      var next := t.nextFire.GetOr(SaturatingAdd(t.createdAt, secs));
      if next <= now {
        if !ShouldSkipTrigger(o, t.cfg, now) {
          due := true;
        }
        var newNext := WrappingAdd(now, secs);
        newNext := WrappingAdd(newNext, RandJitter(t.cfg.jitter, draw));
        store.SetNextFire(t.id, Some(newNext));
      }
    }

    method ScanCron(o: Oracle, t: Task, exprs: seq<string>, now: u64, draw: nat) returns (due: bool)
      modifies store
      ensures due == CronEffect(o, t, exprs, now, draw).due
      ensures store.View() == ApplyEffect(old(store.View()), t.id, CronEffect(o, t, exprs, now, draw), now)
    {
      due := false;
      var next := t.nextFire;
      if next.None? {
        next := MinNextFire(o, exprs, now, t.cfg.timezone);
      }
      if next.None? || next.value > now {
        return;
      }
      if ShouldFireDue(next.value, now, t.cfg.coalesce, t.cfg.misfireGrace) {
        if !ShouldSkipTrigger(o, t.cfg, now) {
          due := true;
        }
      } else {
        store.AddEvent(t.id, Missed, now);
      }
      var rolled := MinNextFire(o, exprs, WrappingAdd(now, 1), t.cfg.timezone);
      if rolled.Some? {
        store.SetNextFire(t.id, Some(WrappingAdd(rolled.value, RandJitter(t.cfg.jitter, draw))));
      }
    }
  }

  /** Tasks beyond the point where the batch is full are not touched. */
  lemma {:induction false} CutOff(o: Oracle, s: StoreState, list: seq<Task>, k: nat, now: u64, cap: nat,
                                  draws: Id -> nat)
    requires k <= |list| && |ScanAll(o, s, list[..k], now, cap, draws).1| >= cap
    ensures ScanAll(o, s, list, now, cap, draws) == ScanAll(o, s, list[..k], now, cap, draws)
    decreases |list|
  {
    if k == |list| {
      assert list[..k] == list;
    } else {
      var front := list[..|list| - 1];
      assert front[..k] == list[..k];
      CutOff(o, s, front, k, now, cap, draws);
    }
  }

  /** A scan that stops at `k`, its batch full or its listing done, is whole. */
  lemma CutOffAt(o: Oracle, s: StoreState, list: seq<Task>, k: nat, now: u64, cap: nat, draws: Id -> nat)
    requires k <= |list| && (k == |list| || |ScanAll(o, s, list[..k], now, cap, draws).1| >= cap)
    ensures ScanAll(o, s, list, now, cap, draws) == ScanAll(o, s, list[..k], now, cap, draws)
  {
    if k == |list| {
      assert list[..k] == list;
    } else {
      CutOff(o, s, list, k, now, cap, draws);
    }
  }

  /** What a whole scan does to one row: either the scan stopped before it (or it
      was not active) and the row is untouched and not in the batch, or it is the
      effect decided from that very row. */
  ghost predicate RowScanned(o: Oracle, s: StoreState, s': StoreState, due: seq<Id>, id: Id, now: u64, draw: nat)
    requires id in s.tasks
  {
    && id in s'.tasks
    && (|| (s'.tasks[id] == s.tasks[id] && id !in due)
        || (var e := ScanTask(o, s.tasks[id], now, draw);
            s'.tasks[id] == RowAfter(s.tasks[id], e, now) && (id in due <==> e.due)))
  }

  lemma {:induction false} RowsNotListed(o: Oracle, s: StoreState, list: seq<Task>, now: u64, cap: nat,
                                         draws: Id -> nat, id: Id)
    requires forall i :: 0 <= i < |list| ==> list[i].id != id
    ensures var (s', due) := ScanAll(o, s, list, now, cap, draws);
            && (id in s'.tasks <==> id in s.tasks)
            && (id in s.tasks ==> s'.tasks[id] == s.tasks[id])
            && id !in due
  {
    if list != [] {
      var front, last := list[..|list| - 1], list[|list| - 1];
      RowsNotListed(o, s, front, now, cap, draws, id);
      EffectOnRows(ScanAll(o, s, front, now, cap, draws).0, last.id, ScanTask(o, last, now, draws(last.id)), now);
    }
  }

  lemma {:induction false} ScanTouchesRow(o: Oracle, s: StoreState, list: seq<Task>, now: u64, cap: nat,
                                          draws: Id -> nat, id: Id)
    requires id in s.tasks
    requires forall i :: 0 <= i < |list| && list[i].id == id ==> list[i] == s.tasks[id]
    requires forall i, j :: 0 <= i < j < |list| ==> list[i].id != list[j].id
    ensures var (s', due) := ScanAll(o, s, list, now, cap, draws);
            RowScanned(o, s, s', due, id, now, draws(id))
  {
    if list != [] {
      var front, last := list[..|list| - 1], list[|list| - 1];
      if last.id == id {
        RowsNotListed(o, s, front, now, cap, draws, id);
      } else {
        ScanTouchesRow(o, s, front, now, cap, draws, id);
      }
      EffectOnRows(ScanAll(o, s, front, now, cap, draws).0, last.id, ScanTask(o, last, now, draws(last.id)), now);
    }
  }

  ghost predicate NoDuplicates(ids: seq<Id>) {
    forall i, j :: 0 <= i < j < |ids| ==> ids[i] != ids[j]
  }

  /** A batch never exceeds the cap and names no task twice. */
  lemma {:induction false} BatchIsBounded(o: Oracle, s: StoreState, list: seq<Task>, now: u64, cap: nat,
                                          draws: Id -> nat)
    requires forall i, j :: 0 <= i < j < |list| ==> list[i].id != list[j].id
    ensures var due := ScanAll(o, s, list, now, cap, draws).1;
            && |due| <= cap
            && NoDuplicates(due)
            && forall k :: 0 <= k < |due| ==> exists i :: 0 <= i < |list| && list[i].id == due[k]
  {
    if list != [] {
      var front, last := list[..|list| - 1], list[|list| - 1];
      BatchIsBounded(o, s, front, now, cap, draws);
      var before, due := ScanAll(o, s, front, now, cap, draws).1, ScanAll(o, s, list, now, cap, draws).1;
      forall k | 0 <= k < |due|
        ensures exists i :: 0 <= i < |list| && list[i].id == due[k]
      {
        if k < |before| {
          var i :| 0 <= i < |front| && front[i].id == before[k];
          assert list[i].id == due[k];
        } else {
          assert list[|list| - 1].id == due[k];
        }
      }
      forall k | 0 <= k < |before|
        ensures before[k] != last.id
      {
        var i :| 0 <= i < |front| && front[i].id == before[k];
        assert list[i].id != last.id;
      }
    }
  }

  // ----- runs of scans -----

  /** One scan of a run: the store it started from, the listing it used, its
      clock and its jitter draws. */
  datatype Scan = Scan(before: StoreState, list: seq<Task>, now: u64, draws: Id -> nat)

  function Outcome(o: Oracle, cap: nat, sc: Scan): (StoreState, seq<Id>) {
    ScanAll(o, sc.before, sc.list, sc.now, cap, sc.draws)
  }

  predicate Fires(o: Oracle, cap: nat, sc: Scan, id: Id) {
    id in Outcome(o, cap, sc).1
  }

  /** Between scans anything may happen to a task except to its configuration,
      its creation time and its next fire time. */
  ghost predicate SameSchedule(a: Task, b: Task) {
    a.cfg == b.cfg && a.createdAt == b.createdAt && a.nextFire == b.nextFire
  }

  ghost predicate IsScanRun(o: Oracle, cap: nat, scans: seq<Scan>, id: Id) {
    && (forall i :: 0 <= i < |scans| ==>
          && id in scans[i].before.tasks && Keyed(scans[i].before)
          && IsActiveList(scans[i].before, scans[i].list))
    && (forall i, j :: 0 <= i < j < |scans| ==> scans[i].now <= scans[j].now)
    && (forall i, j :: 0 <= i && j == i + 1 && j < |scans| ==>
          && id in Outcome(o, cap, scans[i]).0.tasks
          && SameSchedule(Outcome(o, cap, scans[i]).0.tasks[id], scans[j].before.tasks[id]))
  }

  function RowAt(scans: seq<Scan>, id: Id, i: nat): Task
    requires i < |scans| && id in scans[i].before.tasks
  {
    scans[i].before.tasks[id]
  }

  /** One task's part in one scan: its row, the clock, the effect the scan
      decides for it and whether the scan put it in the batch. */
  datatype Visit = Visit(t: Task, now: u64, effect: ScanEffect, fires: bool)

  function VisitAt(o: Oracle, cap: nat, sc: Scan, id: Id): Visit
    requires id in sc.before.tasks
  {
    var t := sc.before.tasks[id];
    Visit(t, sc.now, ScanTask(o, t, sc.now, sc.draws(id)), Fires(o, cap, sc, id))
  }

  /** The schedule moves only by the visit's effect, and a task cut off by the
      cap keeps its fire time. */
  ghost predicate VisitStep(v: Visit, w: Visit) {
    && w.t.cfg == v.t.cfg
    && v.now <= w.now
    && (v.fires ==> v.effect.due)
    && (|| (w.t.nextFire == v.t.nextFire && !v.fires)
        || w.t.nextFire == (if v.effect.setNextFire.Some? then v.effect.setNextFire else v.t.nextFire))
  }

  ghost predicate IsVisitRun(vs: seq<Visit>) {
    && (forall i, j :: 0 <= i && j == i + 1 && j < |vs| ==> VisitStep(vs[i], vs[j]))
    && (forall i :: 0 <= i < |vs| && vs[i].fires ==> vs[i].effect.due)
  }

  function Visits(o: Oracle, cap: nat, scans: seq<Scan>, id: Id): seq<Visit>
    requires forall i :: 0 <= i < |scans| ==> id in scans[i].before.tasks
  {
    seq(|scans|, i requires 0 <= i < |scans| => VisitAt(o, cap, scans[i], id))
  }

  lemma OneVisit(o: Oracle, cap: nat, sc: Scan, id: Id)
    requires id in sc.before.tasks && Keyed(sc.before) && IsActiveList(sc.before, sc.list)
    ensures RowScanned(o, sc.before, Outcome(o, cap, sc).0, Outcome(o, cap, sc).1, id, sc.now, sc.draws(id))
  {
    ScanTouchesRow(o, sc.before, sc.list, sc.now, cap, sc.draws, id);
  }

  lemma VisitNextFire(v: Visit, row: Task, next: Task)
    requires (row == v.t && !v.fires) || (row == RowAfter(v.t, v.effect, v.now) && (v.fires <==> v.effect.due))
    requires SameSchedule(row, next)
    ensures next.cfg == v.t.cfg && (v.fires ==> v.effect.due)
    ensures (next.nextFire == v.t.nextFire && !v.fires)
         || next.nextFire == (if v.effect.setNextFire.Some? then v.effect.setNextFire else v.t.nextFire)
  {
  }

  lemma RunProjects(o: Oracle, cap: nat, scans: seq<Scan>, id: Id)
    requires IsScanRun(o, cap, scans, id)
    ensures IsVisitRun(Visits(o, cap, scans, id))
  {
    var vs := Visits(o, cap, scans, id);
    forall i | 0 <= i < |vs|
      ensures vs[i].fires ==> vs[i].effect.due
    {
      OneVisit(o, cap, scans[i], id);
    }
    forall i, j | 0 <= i && j == i + 1 && j < |vs|
      ensures VisitStep(vs[i], vs[j])
    {
      OneVisit(o, cap, scans[i], id);
      assert scans[i].now <= scans[j].now;
      VisitNextFire(VisitAt(o, cap, scans[i], id), Outcome(o, cap, scans[i]).0.tasks[id], scans[j].before.tasks[id]);
    }
  }

  lemma {:induction false} ConfigIsFixed(vs: seq<Visit>, i: nat, j: nat)
    requires IsVisitRun(vs) && i <= j < |vs|
    ensures vs[i].t.cfg == vs[j].t.cfg && vs[i].now <= vs[j].now
  {
    if i < j {
      ConfigIsFixed(vs, i, j - 1);
      assert VisitStep(vs[j - 1], vs[j]);
    }
  }

  // Run-at tasks.

  ghost predicate RunAtVisit(v: Visit) {
    && (v.effect.due ==> v.effect.setNextFire == Some(U64_MAX))
    && (v.t.nextFire == Some(U64_MAX) ==> v.effect.setNextFire.None? && !v.effect.due)
  }

  lemma RunAtFacts(o: Oracle, t: Task, now: u64, draw: nat)
    requires t.cfg.runAt.Some? && now < U64_MAX
    ensures RunAtVisit(Visit(t, now, ScanTask(o, t, now, draw), false))
  {
  }

  lemma {:induction false} SentinelStays(vs: seq<Visit>, i: nat, j: nat)
    requires IsVisitRun(vs) && i < j < |vs|
    requires forall k :: 0 <= k < |vs| ==> RunAtVisit(vs[k])
    requires vs[i].fires
    ensures vs[j].t.nextFire == Some(U64_MAX)
  {
    assert VisitStep(vs[j - 1], vs[j]);
    if i < j - 1 {
      SentinelStays(vs, i, j - 1);
    }
  }

  /** A run-at task fires in at most one scan of a run. */
  lemma RunAtFiresOnce(o: Oracle, cap: nat, scans: seq<Scan>, id: Id, i: nat, j: nat)
    requires IsScanRun(o, cap, scans, id) && i < j < |scans|
    requires forall k :: 0 <= k < |scans| ==> scans[k].now < U64_MAX
    requires RowAt(scans, id, 0).cfg.runAt.Some?
    ensures !(Fires(o, cap, scans[i], id) && Fires(o, cap, scans[j], id))
  {
    var vs := Visits(o, cap, scans, id);
    RunProjects(o, cap, scans, id);
    forall k | 0 <= k < |vs|
      ensures RunAtVisit(vs[k])
    {
      ConfigIsFixed(vs, 0, k);
      RunAtFacts(o, vs[k].t, scans[k].now, scans[k].draws(id));
    }
    if vs[i].fires {
      SentinelStays(vs, i, j);
    }
  }

  // Interval tasks.

  predicate IsIntervalTask(cfg: TaskConfig, secs: u64) {
    cfg.runAt.None? && cfg.interval == Some(secs) && !HasCronTrigger(cfg)
  }

  ghost predicate IntervalVisit(v: Visit, secs: u64) {
    && (v.effect.due ==> v.effect.setNextFire.Some?)
    && (v.effect.setNextFire.Some? ==> v.effect.setNextFire.value >= v.now + secs)
    && (v.effect.due && v.t.nextFire.Some? ==> v.t.nextFire.value <= v.now)
  }

  lemma IntervalFacts(o: Oracle, t: Task, now: u64, draw: nat, secs: u64)
    requires IsIntervalTask(t.cfg, secs) && now + secs + t.cfg.jitter <= U64_MAX
    ensures IntervalVisit(Visit(t, now, ScanTask(o, t, now, draw), false), secs)
  {
  }

  lemma {:induction false} IntervalMovesOn(vs: seq<Visit>, i: nat, j: nat, secs: u64)
    requires IsVisitRun(vs) && i < j < |vs|
    requires forall k :: 0 <= k < |vs| ==> IntervalVisit(vs[k], secs)
    requires vs[i].fires
    ensures vs[j].t.nextFire.Some? && vs[j].t.nextFire.value >= vs[i].now + secs
  {
    assert VisitStep(vs[j - 1], vs[j]);
    if i < j - 1 {
      IntervalMovesOn(vs, i, j - 1, secs);
      ConfigIsFixed(vs, i, j - 1);
    }
  }

  /** Two firings of an interval task are at least the interval apart. */
  lemma IntervalSpacing(o: Oracle, cap: nat, scans: seq<Scan>, id: Id, i: nat, j: nat, secs: u64)
    requires IsScanRun(o, cap, scans, id) && i < j < |scans|
    requires IsIntervalTask(RowAt(scans, id, 0).cfg, secs)
    requires forall k :: 0 <= k < |scans| ==> scans[k].now + secs + RowAt(scans, id, 0).cfg.jitter <= U64_MAX
    requires Fires(o, cap, scans[i], id) && Fires(o, cap, scans[j], id)
    ensures scans[j].now >= scans[i].now + secs
  {
    var vs := Visits(o, cap, scans, id);
    RunProjects(o, cap, scans, id);
    forall k | 0 <= k < |vs|
      ensures IntervalVisit(vs[k], secs)
    {
      ConfigIsFixed(vs, 0, k);
      IntervalFacts(o, vs[k].t, scans[k].now, scans[k].draws(id), secs);
    }
    IntervalMovesOn(vs, i, j, secs);
  }

  // Cron tasks.

  predicate IsCronTask(cfg: TaskConfig) {
    cfg.runAt.None? && HasCronTrigger(cfg)
  }

  /** Every expression of the task still has an occurrence after the next second. */
  predicate Rolls(o: Oracle, now: u64, cfg: TaskConfig) {
    MinNextFire(o, CollectCronExprs(cfg), WrappingAdd(now, 1), cfg.timezone).Some?
  }

  /** Neither the clock nor the next occurrence overflows when the second and the
      jitter are added. */
  predicate NoCronOverflow(o: Oracle, now: u64, cfg: TaskConfig) {
    && now < U64_MAX
    && var n := MinNextFire(o, CollectCronExprs(cfg), now + 1, cfg.timezone);
       n.Some? ==> n.value + cfg.jitter <= U64_MAX
  }

  ghost predicate CronVisit(o: Oracle, v: Visit) {
    && (v.effect.due ==> v.t.nextFire.Some? && v.t.nextFire.value <= v.now)
    && (v.effect.due && Rolls(o, v.now, v.t.cfg) ==> v.effect.setNextFire.Some?)
    && (v.effect.setNextFire.Some? ==>
          && Rolls(o, v.now, v.t.cfg)
          && v.t.nextFire.Some? && v.effect.setNextFire.value > v.t.nextFire.value)
  }

  /** A cron task is due only through a stored fire time, and then rolls it to a
      strictly later one if there is one. */
  lemma CronFacts(o: Oracle, t: Task, now: u64, draw: nat)
    requires IsHonest(o) && IsCronTask(t.cfg) && NoCronOverflow(o, now, t.cfg)
    ensures CronVisit(o, Visit(t, now, ScanTask(o, t, now, draw), false))
  {
    CronTriggerIffExprs(t.cfg);
    var exprs := CollectCronExprs(t.cfg);
    MinNextFireIsFuture(o, exprs, now, t.cfg.timezone);
    MinNextFireIsFuture(o, exprs, now + 1, t.cfg.timezone);
  }

  /** No visit from `i` up to `j` finds a later occurrence. */
  ghost predicate NoneRolls(o: Oracle, vs: seq<Visit>, i: nat, j: nat)
    requires j <= |vs|
  {
    forall k :: i <= k < j ==> !Rolls(o, vs[k].now, vs[k].t.cfg)
  }

  lemma {:induction false} CronFireTimesGrow(o: Oracle, vs: seq<Visit>, i: nat, j: nat)
    requires IsVisitRun(vs) && i < j < |vs|
    requires forall k :: 0 <= k < |vs| ==> CronVisit(o, vs[k])
    requires vs[i].fires
    ensures vs[i].t.nextFire.Some? && vs[j].t.nextFire.Some?
    ensures vs[j].t.nextFire.value >= vs[i].t.nextFire.value
    ensures Rolls(o, vs[i].now, vs[i].t.cfg) ==> vs[j].t.nextFire.value > vs[i].t.nextFire.value
    ensures NoneRolls(o, vs, i, j) ==> vs[j].t.nextFire == vs[i].t.nextFire
  {
    assert VisitStep(vs[j - 1], vs[j]);
    assert CronVisit(o, vs[j - 1]);
    if i < j - 1 {
      CronFireTimesGrow(o, vs, i, j - 1);
    }
  }

  /** Each firing of a cron task consumes a fire time no earlier than every firing
      before it, and a strictly later one than a firing at which every expression
      still had an occurrence. Once one has none, the fire time is not rolled and
      the same occurrence fires again; for two firings in successive scans that is
      the exact condition. */
  lemma CronConsumesIncreasing(o: Oracle, cap: nat, scans: seq<Scan>, id: Id, i: nat, j: nat)
    requires IsHonest(o) && IsScanRun(o, cap, scans, id) && i < j < |scans|
    requires IsCronTask(RowAt(scans, id, 0).cfg)
    requires forall k :: 0 <= k < |scans| ==> NoCronOverflow(o, scans[k].now, RowAt(scans, id, 0).cfg)
    requires Fires(o, cap, scans[i], id) && Fires(o, cap, scans[j], id)
    ensures RowAt(scans, id, i).nextFire.Some? && RowAt(scans, id, j).nextFire.Some?
    ensures RowAt(scans, id, i).nextFire.value <= RowAt(scans, id, j).nextFire.value <= scans[j].now
    ensures Rolls(o, scans[i].now, RowAt(scans, id, 0).cfg) ==>
              RowAt(scans, id, i).nextFire.value < RowAt(scans, id, j).nextFire.value
    ensures j == i + 1 ==>
              (RowAt(scans, id, i).nextFire.value < RowAt(scans, id, j).nextFire.value
               <==> Rolls(o, scans[i].now, RowAt(scans, id, 0).cfg))
  {
    var vs := Visits(o, cap, scans, id);
    RunProjects(o, cap, scans, id);
    forall k | 0 <= k < |vs|
      ensures CronVisit(o, vs[k])
    {
      ConfigIsFixed(vs, 0, k);
      CronFacts(o, vs[k].t, scans[k].now, scans[k].draws(id));
    }
    ConfigIsFixed(vs, 0, i);
    CronFireTimesGrow(o, vs, i, j);
  }

  // Both cases occur.

  /** A library for which every expression occurs every second. */
  const EVERY_SECOND: Oracle := Oracle(
    (e: string, from: u64, tz: Option<string>) => if from < U64_MAX then Some(from + 1) else None,
    (ts: i64, tz: Option<string>) => None)

  /** A library for which every expression occurs at 10 and never again. */
  const ONLY_TEN: Oracle := Oracle(
    (e: string, from: u64, tz: Option<string>) => if from < 10 then Some(10) else None,
    (ts: i64, tz: Option<string>) => None)

  /** The scan of a store that holds only the task. */
  function LoneScan(t: Task, now: u64): Scan {
    Scan(EMPTY_STORE.(tasks := map[t.id := t]), [t], now, _ => 0)
  }

  /** A cron task without filters, dates or limits, whose fire time has come. */
  predicate IsPlainlyDue(t: Task, now: u64) {
    && t.cfg.runAt.None? && t.cfg.cron.Some? && t.cfg.coalesce && t.cfg.jitter == 0 && !HasSkipFilters(t.cfg)
    && t.cfg.startDate.None? && t.cfg.endDate.None? && t.cfg.expires == 0 && t.cfg.maxExecutions == 0
    && t.state.Pending? && !t.paused && !t.cancelRequested
    && t.nextFire.Some? && t.nextFire.value <= now < U64_MAX
  }

  /** All expressions occur next at the same time. */
  ghost predicate AllOccurAt(o: Oracle, from: u64, tz: Option<string>, next: Option<u64>) {
    forall e :: o.nextFire(e, from, tz) == next
  }

  lemma PlainEffect(o: Oracle, t: Task, now: u64, next: Option<u64>)
    requires IsPlainlyDue(t, now) && AllOccurAt(o, now + 1, t.cfg.timezone, next)
    ensures ScanTask(o, t, now, 0) == ScanEffect(true, None, next, None)
    ensures MinNextFire(o, CollectCronExprs(t.cfg), now + 1, t.cfg.timezone) == next
  {
    assert CollectCronExprs(t.cfg)[0] == t.cfg.cron.value;
    MinNextFireIsSoonest(o, CollectCronExprs(t.cfg), now + 1, t.cfg.timezone);
  }

  lemma LoneScanFires(o: Oracle, t: Task, now: u64, next: Option<u64>)
    requires IsPlainlyDue(t, now) && AllOccurAt(o, now + 1, t.cfg.timezone, next)
    ensures IsActiveList(LoneScan(t, now).before, [t]) && Fires(o, 1, LoneScan(t, now), t.id)
    ensures NoCronOverflow(o, now, t.cfg) && (Rolls(o, now, t.cfg) <==> next.Some?)
    ensures Outcome(o, 1, LoneScan(t, now)).0.tasks == map[t.id := if next.Some? then t.(nextFire := next) else t]
  {
    var sc := LoneScan(t, now);
    PlainEffect(o, t, now, next);
    assert sc.list[..0] == [] && t in [t];
    assert ScanAll(o, sc.before, [], now, 1, sc.draws) == (sc.before, []);
    EffectOnRows(sc.before, t.id, ScanEffect(true, None, next, None), now);
    assert sc.draws(t.id) == 0 && [] + [t.id] == [t.id];
    assert Outcome(o, 1, sc) == (ApplyEffect(sc.before, t.id, ScanEffect(true, None, next, None), now), [t.id]);
  }

  /** Two scans, the second of a store that holds what the first left. */
  lemma LoneScansRun(o: Oracle, t: Task, now: u64, next: Option<u64>, later: u64)
    requires IsPlainlyDue(t, now) && AllOccurAt(o, now + 1, t.cfg.timezone, next) && now <= later
    ensures var t' := if next.Some? then t.(nextFire := next) else t;
            IsScanRun(o, 1, [LoneScan(t, now), LoneScan(t', later)], t.id)
  {
    var t' := if next.Some? then t.(nextFire := next) else t;
    LoneScanFires(o, t, now, next);
    assert Outcome(o, 1, LoneScan(t, now)).0.tasks[t.id] == t';
    assert t in [t] && t' in [t'];
  }

  /** Two scans that fire different occurrences. */
  lemma LaterOccurrenceFires(t: Task) returns (scans: seq<Scan>)
    requires IsPlainlyDue(t, 10) && t.nextFire == Some(10)
    ensures IsHonest(EVERY_SECOND)
    ensures |scans| == 2 && IsScanRun(EVERY_SECOND, 1, scans, t.id) && RowAt(scans, t.id, 0) == t
    ensures forall k :: 0 <= k < 2 ==>
              Fires(EVERY_SECOND, 1, scans[k], t.id) && NoCronOverflow(EVERY_SECOND, scans[k].now, t.cfg)
    ensures RowAt(scans, t.id, 1).nextFire == Some(12)
  {
    var later := t.(nextFire := Some(12));
    scans := [LoneScan(t, 10), LoneScan(later, 12)];
    LoneScanFires(EVERY_SECOND, t, 10, Some(12));
    LoneScanFires(EVERY_SECOND, later, 12, Some(14));
    LoneScansRun(EVERY_SECOND, t, 10, Some(12), 12);
  }

  /** Two scans that fire the same, last occurrence. */
  lemma LastOccurrenceFiresAgain(t: Task) returns (scans: seq<Scan>)
    requires IsPlainlyDue(t, 10) && t.nextFire == Some(10)
    ensures IsHonest(ONLY_TEN)
    ensures |scans| == 2 && IsScanRun(ONLY_TEN, 1, scans, t.id) && RowAt(scans, t.id, 0) == t
    ensures forall k :: 0 <= k < 2 ==>
              Fires(ONLY_TEN, 1, scans[k], t.id) && NoCronOverflow(ONLY_TEN, scans[k].now, t.cfg)
    ensures RowAt(scans, t.id, 1).nextFire == Some(10)
  {
    scans := [LoneScan(t, 10), LoneScan(t, 11)];
    LoneScanFires(ONLY_TEN, t, 10, None);
    LoneScanFires(ONLY_TEN, t, 11, None);
    LoneScansRun(ONLY_TEN, t, 10, None, 11);
  }

  /** A cron task without a stored fire time is never due: each scan recomputes
      a time after its own clock and stores nothing. */
  lemma MissingFireTimeNeverFires(o: Oracle, t: Task, now: u64, draw: nat)
    requires IsHonest(o) && IsCronTask(t.cfg) && t.nextFire.None?
    ensures !ScanTask(o, t, now, draw).due && ScanTask(o, t, now, draw).setNextFire.None?
  {
    CronTriggerIffExprs(t.cfg);
    MinNextFireIsFuture(o, CollectCronExprs(t.cfg), now, t.cfg.timezone);
  }
}
