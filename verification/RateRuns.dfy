/** The rate limit end to end: in runs of the whole engine no sliding window
    holds more starts of a task than its limit allows. */
module RateRuns {
  import opened Types
  import opened RateLimiting
  import opened Store
  import opened Queue
  import opened Engine
  import opened Steps
  import opened Guarantees
  import Cron
  import Overlap

  /** When the executions of an id started. */
  function StartTimes(es: seq<Event>, id: Id): seq<u64> {
    if es == [] then []
    else
      var last := es[|es| - 1];
      StartTimes(es[..|es| - 1], id) + (if last.taskId == id && last.kind.Started? then [last.ts] else [])
  }

  lemma StartTimesAppend(es: seq<Event>, e: Event, id: Id)
    ensures StartTimes(es + [e], id)
         == StartTimes(es, id) + (if e.taskId == id && e.kind.Started? then [e.ts] else [])
  {
    assert (es + [e])[..|es|] == es;
  }

  // ----- the starts are among the accepted triggers -----

  /** Every window holds at most as many of `a` as of `b`. */
  ghost predicate WithinAsMany(a: seq<u64>, b: seq<u64>) {
    forall low: int, high: int :: |Within(a, low, high)| <= |Within(b, low, high)|
  }

  /** Some history of accepted triggers explains the bucket and has the starts. */
  ghost predicate Backed(bucket: seq<u64>, starts: seq<u64>, count: u32, window: u64, now: int) {
    exists accepted: seq<u64> :: Faithful(bucket, accepted, count, window, now) && WithinAsMany(starts, accepted)
  }

  ghost predicate AllCapped(starts: seq<u64>, count: u32, window: u64) {
    forall x: int :: CapAt(starts, count, window, x)
  }

  lemma BackedIsCapped(bucket: seq<u64>, starts: seq<u64>, count: u32, window: u64, now: int)
    requires Backed(bucket, starts, count, window, now)
    ensures AllCapped(starts, count, window)
  {
    var accepted :| Faithful(bucket, accepted, count, window, now) && WithinAsMany(starts, accepted);
    forall x: int
      ensures CapAt(starts, count, window, x)
    {
      assert CapAt(accepted, count, window, x);
      assert |Within(starts, x - window, x)| <= |Within(accepted, x - window, x)|;
    }
  }

  /** A call to the limiter, and a start only if it was allowed. */
  lemma CallStaysBacked(bucket: seq<u64>, starts: seq<u64>, count: u32, window: u64, before: int, now: u64,
                        starting: bool)
    requires count > 0 && window > 0 && 1 <= now && before <= now
    requires Backed(bucket, starts, count, window, before)
    ensures var kept := Above(bucket, SaturatingSub(now, window));
            && (!starting ==> |kept| >= count ==> Backed(kept, starts, count, window, now))
            && (|kept| < count ==>
                  Backed(kept + [now], if starting then starts + [now] else starts, count, window, now))
  {
    var kept := Above(bucket, SaturatingSub(now, window));
    var accepted :| Faithful(bucket, accepted, count, window, before) && WithinAsMany(starts, accepted);
    RefusedCall(bucket, accepted, count, window, before, now);
    assert WithinAsMany(starts, accepted) && Faithful(kept, accepted, count, window, now);
    if |kept| < count {
      CallIsExact(bucket, accepted, count, window, before, now);
      AcceptedCall(kept, accepted, count, window, now);
      StartsStayWithin(starts, accepted, now);
      assert Faithful(kept + [now], accepted + [now], count, window, now);
    }
  }

  lemma StartsStayWithin(starts: seq<u64>, accepted: seq<u64>, now: u64)
    requires WithinAsMany(starts, accepted)
    ensures WithinAsMany(starts, accepted + [now]) && WithinAsMany(starts + [now], accepted + [now])
  {
    forall low: int, high: int
      ensures |Within(starts, low, high)| <= |Within(accepted + [now], low, high)|
      ensures |Within(starts + [now], low, high)| <= |Within(accepted + [now], low, high)|
    {
      WithinAppend(starts, now, low, high);
      WithinAppend(accepted, now, low, high);
      assert |Within(starts, low, high)| <= |Within(accepted, low, high)|;
    }
  }

  // ----- steps that leave the limiter and the starts of an id alone -----

  /** At most one event, not a start, is appended. */
  ghost predicate Silent(es: seq<Event>, es': seq<Event>) {
    es' == es || (exists e :: es' == es + [e] && !e.kind.Started?)
  }

  lemma SilentKeepsStarts(es: seq<Event>, es': seq<Event>, id: Id)
    requires Silent(es, es')
    ensures StartTimes(es', id) == StartTimes(es, id)
  {
    if es' != es {
      var e :| es' == es + [e] && !e.kind.Started?;
      StartTimesAppend(es, e, id);
    }
  }

  ghost predicate Unlimited(q: QueueState, q': QueueState) {
    q'.buckets == q.buckets && Silent(q.store.events, q'.store.events)
  }

  lemma InsertionIsUnlimited(p: Params, e: EngineState, a: Action)
    requires Enabled(p, e, a) && IsInsertion(a)
    ensures Unlimited(e.q, Step(p, e, a).q)
  {
    if a.NewChain? && a.tasks != [] {
      AdvanceAdds(e.q.(store := CreateChain(e.q.store, a.chainId, a.tasks)), p.cap, a.chainId, a.built, a.now);
    }
  }

  lemma RequestIsUnlimited(p: Params, e: EngineState, a: Action)
    requires Enabled(p, e, a) && IsRowRequest(a)
    ensures Unlimited(e.q, Step(p, e, a).q)
  {
  }

  lemma CancelIsUnlimited(s: StoreState, id: Id, now: u64)
    ensures Silent(s.events, CancelTask(s, id, now).0.events)
  {
    if id in s.tasks && s.tasks[id].state.Pending? {
      assert CancelTask(s, id, now).0.events == s.events + [Event(id, CancelledEvent, now)];
    }
  }

  lemma WatchIsUnlimited(e: EngineState, p: Params)
    requires e.dog.todo != []
    ensures Unlimited(e.q, Step(p, e, DogTask).q)
  {
    assert !Event(e.dog.todo[0].id, HungDetected, e.dog.now).kind.Started?;
  }

  lemma TickIsUnlimited(p: Params, e: EngineState, a: Action)
    requires Enabled(p, e, a) && (a.TimerFires? || a.CallbackEnqueues? || a.RetryTask?)
    ensures Unlimited(e.q, Step(p, e, a).q)
  {
  }

  lemma CronIsUnlimited(p: Params, e: EngineState, draw: nat)
    requires e.cron.todo != []
    ensures Unlimited(e.q, CronStep(p, e, draw).q)
  {
    var t := e.cron.todo[0];
    var f := Cron.ScanTask(p.oracle, t, e.cron.now, draw);
    ScanEffects(p.oracle, t, e.cron.now, draw);
    if f.event.Some? {
      assert CronStep(p, e, draw).q.store.events == e.q.store.events + [Event(t.id, f.event.value, e.cron.now)];
    }
  }

  lemma OtherIsUnlimited(p: Params, e: EngineState, a: Action)
    requires Enabled(p, e, a) && !a.ProcessOne? && !a.Completion?
    ensures Unlimited(e.q, Step(p, e, a).q)
  {
    if IsInsertion(a) {
      InsertionIsUnlimited(p, e, a);
    } else if IsRowRequest(a) {
      RequestIsUnlimited(p, e, a);
    } else if a.Cancel? {
      CancelIsUnlimited(e.q.store, a.id, a.now);
    } else if a.DogTask? {
      WatchIsUnlimited(e, p);
    } else if a.CronTask? {
      CronIsUnlimited(p, e, a.draw);
    } else if a.TimerFires? || a.CallbackEnqueues? || a.RetryTask? {
      TickIsUnlimited(p, e, a);
    }
  }

  // ----- completions -----

  lemma SettleIsSilent(s: StoreState, f: Task, out: Outcome, now: u64)
    ensures Silent(s.events, Settle(s, f, out, now).events)
  {
    var event := SettleEvent(Row(s, f.id), f, out);
    if event.Some? {
      assert Settle(s, f, out, now).events == s.events + [Event(f.id, event.value, now)];
    }
  }

  lemma NotifyKeepsEvents(q: QueueState, cap: nat, f: Task, final: TaskState, builds: Builds, now: u64)
    ensures Notify(q, cap, f, final, builds, now).store.events == q.store.events
    ensures Notify(q, cap, f, final, builds, now).buckets == q.buckets
  {
    var mid := NotifyChain(q, cap, f, final, builds.step, now);
    if f.cfg.chainId.Some? {
      AdvanceAdds(q, cap, f.cfg.chainId.value, builds.step, now);
    }
    ChordAdds(mid, cap, f, builds.callback, now);
    NotifyKeepsFlights(q, cap, f, final, builds, now);
  }

  lemma CompletionIsSilent(q: QueueState, cap: nat, id: Id, k: nat, out: Outcome, builds: Builds, now: u64)
    requires id in q.flights && k < |q.flights[id]|
    ensures Silent(q.store.events, Complete(q, cap, id, k, out, builds, now).store.events)
  {
    var f := q.flights[id][k];
    var q1 := Landed(q, id, k, out, now);
    CompleteIsNotified(q, id, k, cap, out, builds, now);
    SettleIsSilent(q.store, f, out, now);
    NotifyKeepsEvents(q1, cap, f, FinalState(q1.store, f), builds, now);
  }

  /** A completion forgets the bucket of a task only when it ends it. */
  lemma CompletionBuckets(q: QueueState, cap: nat, id': Id, k: nat, out: Outcome, builds: Builds, now: u64, id: Id)
    requires id' in q.flights && k < |q.flights[id']| && q.flights[id'][k].id == id'
    requires id != id' || !Ends(Row(q.store, id'), q.flights[id'][k], out, now)
    ensures BucketOf(Complete(q, cap, id', k, out, builds, now).buckets, id) == BucketOf(q.buckets, id)
  {
    var f := q.flights[id'][k];
    var q1 := q.(store := Settle(q.store, f, out, now));
    NotifyKeepsFlights(q1, cap, f, FinalState(q1.store, f), builds, now);
  }

  // ----- the prologue -----

  lemma BackedLater(bucket: seq<u64>, starts: seq<u64>, count: u32, window: u64, before: int, now: int)
    requires Backed(bucket, starts, count, window, before) && before <= now
    ensures Backed(bucket, starts, count, window, now)
  {
    var accepted :| Faithful(bucket, accepted, count, window, before) && WithinAsMany(starts, accepted);
    assert Faithful(bucket, accepted, count, window, now);
  }

  /** The bucket and the starts of an id in a queue. */
  ghost predicate BackedIn(q: QueueState, id: Id, count: u32, window: u64, now: int) {
    Backed(BucketOf(q.buckets, id), StartTimes(q.store.events, id), count, window, now)
  }

  lemma HoldKeepsStarts(q: QueueState, t: Task, now: u64, id: Id)
    ensures StartTimes(HoldForRate(q, t, now).store.events, id) == StartTimes(q.store.events, id)
    ensures StartTimes(HoldForOverlap(q, t, now).store.events, id) == StartTimes(q.store.events, id)
    ensures StartTimes(ExpireNow(q, t, now).store.events, id) == StartTimes(q.store.events, id)
  {
    StartTimesAppend(q.store.events, Event(t.id, RateLimited, now), id);
    StartTimesAppend(q.store.events, Event(t.id, MaxInstancesReached, now), id);
    StartTimesAppend(q.store.events, Event(t.id, ExpiredEvent, now), id);
    StateTale(q.store, t.id, Expired, now, id);
  }

  lemma StartAddsTime(q: QueueState, t: Task, now: u64, id: Id)
    ensures StartTimes(StartTask(q, t, now).store.events, id)
         == StartTimes(q.store.events, id) + (if id == t.id then [now] else [])
  {
    StartTimesAppend(q.store.events, Event(t.id, EventType.Started, now), id);
  }

  lemma LimitStaysBacked(q: QueueState, t: Task, now: u64, before: int)
    requires t.cfg.rateCount > 0 && t.cfg.rateWindow > 0 && 1 <= now && before <= now
    requires BackedIn(q, t.id, t.cfg.rateCount, t.cfg.rateWindow, before)
    ensures BackedIn(LimitThenStart(q, t, now), t.id, t.cfg.rateCount, t.cfg.rateWindow, now)
  {
    var n, w := t.cfg.rateCount, t.cfg.rateWindow;
    var q1 := Steps.Limited(q, t, now);
    var starts := StartTimes(q.store.events, t.id);
    var starting := MayFire(q1, t);
    CallStaysBacked(BucketOf(q.buckets, t.id), starts, n, w, before, now, false);
    CallStaysBacked(BucketOf(q.buckets, t.id), starts, n, w, before, now, true);
    HoldKeepsStarts(q1, t, now, t.id);
    StartAddsTime(q1, t, now, t.id);
  }

  predicate MayFire(q: QueueState, t: Task) {
    Overlap.MayFire(q.running, q.store, t)
  }

  lemma AdmitStaysBacked(q: QueueState, t: Task, now: u64, before: int)
    requires t.cfg.rateCount > 0 && t.cfg.rateWindow > 0 && 1 <= now && before <= now
    requires BackedIn(q, t.id, t.cfg.rateCount, t.cfg.rateWindow, before)
    ensures BackedIn(Admit(q, t, now), t.id, t.cfg.rateCount, t.cfg.rateWindow, now)
  {
    BackedLater(BucketOf(q.buckets, t.id), StartTimes(q.store.events, t.id),
                t.cfg.rateCount, t.cfg.rateWindow, before, now);
    HoldKeepsStarts(q, t, now, t.id);
    if !Cron.IsExpired(t, now) && !Cron.BeforeStart(t.cfg, now) {
      LimitStaysBacked(q, t, now, before);
    }
  }

  lemma LimitKeepsOther(q: QueueState, t: Task, now: u64, id: Id)
    requires id != t.id
    ensures BucketOf(Steps.Limited(q, t, now).buckets, id) == BucketOf(q.buckets, id)
    ensures Steps.Limited(q, t, now).store == q.store
  {
  }

  lemma LimitCases(q: QueueState, t: Task, now: u64)
    ensures var q1 := Steps.Limited(q, t, now);
            || LimitThenStart(q, t, now) == HoldForRate(q1, t, now)
            || LimitThenStart(q, t, now) == HoldForOverlap(q1, t, now)
            || LimitThenStart(q, t, now) == StartTask(q1, t, now)
  {
  }

  lemma HoldKeepsBuckets(q: QueueState, t: Task, now: u64)
    ensures HoldForRate(q, t, now).buckets == q.buckets
    ensures HoldForOverlap(q, t, now).buckets == q.buckets
    ensures StartTask(q, t, now).buckets == q.buckets
  {
  }

  lemma LimitThenStartKeepsOther(q: QueueState, t: Task, now: u64, id: Id)
    requires id != t.id
    ensures StartTimes(LimitThenStart(q, t, now).store.events, id) == StartTimes(q.store.events, id)
    ensures BucketOf(LimitThenStart(q, t, now).buckets, id) == BucketOf(q.buckets, id)
  {
    var q1 := Steps.Limited(q, t, now);
    LimitKeepsOther(q, t, now, id);
    LimitCases(q, t, now);
    HoldKeepsBuckets(q1, t, now);
    HoldKeepsStarts(q1, t, now, id);
    StartAddsTime(q1, t, now, id);
  }

  lemma AdmitOtherKeeps(q: QueueState, t: Task, now: u64, id: Id)
    requires id != t.id
    ensures StartTimes(Admit(q, t, now).store.events, id) == StartTimes(q.store.events, id)
    ensures BucketOf(Admit(q, t, now).buckets, id) == BucketOf(q.buckets, id)
  {
    if Cron.IsExpired(t, now) {
      HoldKeepsStarts(q, t, now, id);
    } else if !Cron.BeforeStart(t.cfg, now) {
      LimitThenStartKeepsOther(q, t, now, id);
    }
  }

  /** The prologue never takes a terminal or missing task. */
  lemma PrologueOfEnded(q: QueueState, now: u64, id: Id)
    requires id in q.store.tasks ==> q.store.tasks[id].state.IsTerminal()
    requires forall x :: x in q.store.tasks ==> q.store.tasks[x].id == x
    ensures StartTimes(Prologue(q, now).store.events, id) == StartTimes(q.store.events, id)
    ensures BucketOf(Prologue(q, now).buckets, id) == BucketOf(q.buckets, id)
  {
    if q.pending != [] {
      var q1, head := q.(pending := q.pending[1..]), q.pending[0].id;
      if head in q.store.tasks && !q.store.tasks[head].state.IsTerminal() {
        AdmitOtherKeeps(q1, q.store.tasks[head], now, id);
      }
    }
  }

  lemma PrologueStaysBacked(q: QueueState, now: u64, id: Id, count: u32, window: u64, before: int)
    requires count > 0 && window > 0 && 1 <= now && before <= now
    requires forall x :: x in q.store.tasks ==> q.store.tasks[x].id == x
    requires id in q.store.tasks ==>
               q.store.tasks[id].cfg.rateCount == count && q.store.tasks[id].cfg.rateWindow == window
    requires BackedIn(q, id, count, window, before)
    ensures BackedIn(Prologue(q, now), id, count, window, now)
  {
    BackedLater(BucketOf(q.buckets, id), StartTimes(q.store.events, id), count, window, before, now);
    if q.pending != [] {
      var q1, head := q.(pending := q.pending[1..]), q.pending[0].id;
      if head in q.store.tasks && !q.store.tasks[head].state.IsTerminal() {
        if head == id {
          AdmitStaysBacked(q1, q.store.tasks[id], now, before);
        } else {
          AdmitOtherKeeps(q1, q.store.tasks[head], now, id);
        }
      }
    }
  }

  // ----- every step -----

  /** A quiet limit-1 task with a rate limit. */
  ghost predicate IsMetered(s: Sys, id: Id, count: u32, window: u64) {
    && QuietLimitOne(s, id) && count > 0 && window > 0
    && LifeOf(s, id).made[0].cfg.rateCount == count && LifeOf(s, id).made[0].cfg.rateWindow == window
  }

  /** No window holds too many starts, and until the bucket is forgotten it
      accounts for them. */
  ghost predicate Metered(s: Sys, id: Id, count: u32, window: u64, now: int) {
    && AllCapped(StartTimes(s.e.q.store.events, id), count, window)
    && (id !in s.h.ended ==> BackedIn(s.e.q, id, count, window, now))
  }

  lemma KeyedRows(s: Sys)
    requires AllWell(s)
    ensures forall x :: x in s.e.q.store.tasks ==> s.e.q.store.tasks[x].id == x
  {
    forall x | x in s.e.q.store.tasks
      ensures s.e.q.store.tasks[x].id == x
    {
      assert Well(s, x);
    }
  }

  /** Not inserted yet, or quiet, limit 1 and with that rate limit. */
  ghost predicate NewOrMetered(s: Sys, id: Id, count: u32, window: u64) {
    LifeOf(s, id).made == [] || IsMetered(s, id, count, window)
  }

  lemma ProcessStaysMetered(p: Params, s: Sys, now: u64, id: Id, count: u32, window: u64, before: int)
    requires AllWell(s) && Enabled(p, s.e, ProcessOne(now)) && 1 <= now && before <= now
    requires NewOrMetered(s, id, count, window) && count > 0 && window > 0 && Metered(s, id, count, window, before)
    ensures Metered(Next(p, s, ProcessOne(now)), id, count, window, now)
  {
    var s' := Next(p, s, ProcessOne(now));
    KeyedRows(s);
    assert Well(s, id);
    if id in s.h.ended {
      PrologueOfEnded(s.e.q, now, id);
    } else {
      PrologueStaysBacked(s.e.q, now, id, count, window, before);
      BackedIsCapped(BucketOf(s'.e.q.buckets, id), StartTimes(s'.e.q.store.events, id), count, window, now);
    }
  }

  lemma CompletionStaysMetered(p: Params, s: Sys, a: Action, id: Id, count: u32, window: u64, now: int)
    requires AllWell(s) && Enabled(p, s.e, a) && a.Completion? && Metered(s, id, count, window, now)
    ensures Metered(Next(p, s, a), id, count, window, now)
  {
    assert Well(s, a.id) && FlightsOf(s.e.q, a.id)[a.k].id == a.id;
    CompletionIsSilent(s.e.q, p.cap, a.id, a.k, a.out, a.builds, a.now);
    SilentKeepsStarts(s.e.q.store.events, Next(p, s, a).e.q.store.events, id);
    RememberCounts(p, s.e, a, Next(p, s, a).e, s.h);
    if id !in Next(p, s, a).h.ended {
      CompletionBuckets(s.e.q, p.cap, a.id, a.k, a.out, a.builds, a.now, id);
    }
  }

  lemma OtherStaysMetered(p: Params, s: Sys, a: Action, id: Id, count: u32, window: u64, now: int)
    requires Enabled(p, s.e, a) && !a.ProcessOne? && !a.Completion? && Metered(s, id, count, window, now)
    ensures Metered(Next(p, s, a), id, count, window, now)
  {
    OtherIsUnlimited(p, s.e, a);
    SilentKeepsStarts(s.e.q.store.events, Next(p, s, a).e.q.store.events, id);
  }

  /** The clock of the last prologue. */
  function ClockAfter(a: Action, before: int): int {
    if a.ProcessOne? then a.now else before
  }

  lemma StepStaysMetered(p: Params, s: Sys, a: Action, s': Sys, id: Id, count: u32, window: u64, before: int)
    requires AllWell(s) && Moves(p, s, a, s') && NewOrMetered(s, id, count, window) && count > 0 && window > 0
    requires a.ProcessOne? ==> 1 <= a.now && before <= a.now
    requires Metered(s, id, count, window, before)
    ensures Metered(s', id, count, window, ClockAfter(a, before))
  {
    if a.ProcessOne? {
      ProcessStaysMetered(p, s, a.now, id, count, window, before);
    } else if a.Completion? {
      CompletionStaysMetered(p, s, a, id, count, window, before);
    } else {
      OtherStaysMetered(p, s, a, id, count, window, before);
    }
  }

  lemma MoveFollows(p: Params, s: Sys, a: Action, s': Sys)
    requires Moves(p, s, a, s')
    ensures Follows(s, s')
  {
    LogGrows(p, s.e, a);
  }

  lemma MeteredBefore(p: Params, s: Sys, a: Action, s': Sys, id: Id, count: u32, window: u64)
    requires Moves(p, s, a, s') && NewOrMetered(s', id, count, window)
    ensures NewOrMetered(s, id, count, window)
  {
    MoveFollows(p, s, a, s');
    MadePrefix(s.e.q.store.inserted, s'.e.q.store.inserted, id);
    if LifeOf(s, id).made != [] {
      QuietBefore(s, s', id);
    }
  }

  // ----- every run -----

  /** The queue loop's clock never goes back and has left 0. */
  ghost predicate ClockRuns(actions: seq<Action>) {
    && (forall i :: 0 <= i < |actions| && actions[i].ProcessOne? ==> actions[i].now >= 1)
    && (forall i, j :: 0 <= i < j < |actions| && actions[i].ProcessOne? && actions[j].ProcessOne? ==>
          actions[i].now <= actions[j].now)
  }

  /** The clock of the last prologue among the first `k` actions. */
  function ClockAt(actions: seq<Action>, k: nat): (now: int)
    requires k <= |actions|
  {
    if k == 0 then 0 else ClockAfter(actions[k - 1], ClockAt(actions, k - 1))
  }

  lemma {:induction false} ClockIsBehind(actions: seq<Action>, k: nat, j: nat)
    requires ClockRuns(actions) && k <= j < |actions| && actions[j].ProcessOne?
    ensures ClockAt(actions, k) <= actions[j].now
  {
    if k > 0 && !actions[k - 1].ProcessOne? {
      ClockIsBehind(actions, k - 1, j);
    }
  }

  lemma StartIsMetered(id: Id, count: u32, window: u64)
    ensures Metered(START, id, count, window, 0)
  {
    assert Faithful([], [], count, window, 0) && WithinAsMany([], []);
  }

  lemma {:induction false} TraceStaysMetered(p: Params, states: seq<Sys>, actions: seq<Action>, k: nat,
                                             id: Id, count: u32, window: u64)
    requires IsTrace(p, states, actions) && ClockRuns(actions) && k <= |actions|
    requires count > 0 && window > 0 && NewOrMetered(states[k], id, count, window)
    ensures Metered(states[k], id, count, window, ClockAt(actions, k))
  {
    if k == 0 {
      StartIsMetered(id, count, window);
    } else {
      var s, a := states[k - 1], actions[k - 1];
      assert MovesAt(p, states, actions, k - 1);
      MeteredBefore(p, s, a, states[k], id, count, window);
      TraceIsWell(p, states, actions, k - 1);
      TraceStaysMetered(p, states, actions, k - 1, id, count, window);
      if a.ProcessOne? {
        ClockIsBehind(actions, k - 1, k - 1);
      }
      StepStaysMetered(p, s, a, states[k], id, count, window, ClockAt(actions, k - 1));
    }
  }

  /** Over every trace in which the queue loop's clock has left 0 and never goes
      back: a quiet limit-1 task with a rate limit starts at most `rateCount`
      times in any half-open window of `rateWindow` seconds, wherever it ends. */
  lemma StartsWithinRateLimit(p: Params, states: seq<Sys>, actions: seq<Action>, id: Id, x: int)
    requires IsTrace(p, states, actions) && ClockRuns(actions)
    requires var s := states[|actions|];
             && QuietLimitOne(s, id)
             && LifeOf(s, id).made[0].cfg.rateCount > 0 && LifeOf(s, id).made[0].cfg.rateWindow > 0
    ensures var s := states[|actions|];
            var cfg := LifeOf(s, id).made[0].cfg;
            |Within(StartTimes(s.e.q.store.events, id), x - cfg.rateWindow, x)| <= cfg.rateCount
  {
    var s := states[|actions|];
    var cfg := LifeOf(s, id).made[0].cfg;
    TraceStaysMetered(p, states, actions, |actions|, id, cfg.rateCount, cfg.rateWindow);
    assert CapAt(StartTimes(s.e.q.store.events, id), cfg.rateCount, cfg.rateWindow, x);
  }
}
