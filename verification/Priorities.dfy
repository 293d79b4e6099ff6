/** The priority an id waits with: over every run, each entry of an unaltered task
    has the priority the task was created with, and the queue serves the highest
    first. */
module Priorities {
  import opened Types
  import opened PriorityQueue
  import opened Store
  import opened Queue
  import opened Handlers
  import opened Engine
  import opened Lives
  import opened Steps
  import opened Guarantees
  import Chain
  import Chord
  import Clocks
  import Cron

  // ----- entries -----

  predicate Has(q: QueueState, x: Entry) {
    x in q.pending || x in q.timers
  }

  /** All entries of the id, and its row, have this priority. */
  ghost predicate Ranked(q: QueueState, id: Id, priority: int) {
    && (forall x :: Has(q, x) && x.id == id ==> x.priority == priority)
    && (id in q.store.tasks ==> q.store.tasks[id].cfg.priority == priority)
  }

  /** The log grows, and what it gains under the id has this priority. */
  ghost predicate GainsRanked(log: seq<Task>, log': seq<Task>, id: Id, priority: int) {
    && log <= log'
    && forall k :: |log| <= k < |log'| && log'[k].id == id ==> log'[k].cfg.priority == priority
  }

  lemma PushHas(q: seq<Entry>, cap: nat, e: Entry, x: Entry)
    requires x in Push(q, cap, e)
    ensures x in q || x == e
  {
    if |q| < cap {
      PushContents(q, cap, e);
      assert x in multiset(Push(q, cap, e));
    }
  }

  lemma EnqueueIsRanked(q: QueueState, cap: nat, other: Id, p: int, id: Id, priority: int)
    requires Ranked(q, id, priority) && (other == id ==> p == priority)
    ensures Ranked(EnqueueId(q, cap, other, p), id, priority)
  {
    var q' := EnqueueId(q, cap, other, p);
    forall x | Has(q', x) && x.id == id
      ensures x.priority == priority
    {
      if x in q'.pending {
        PushHas(q.pending, cap, Entry(p, other), x);
      }
      assert x == Entry(p, other) || Has(q, x);
    }
  }

  /** Entries at the same places, rows with the same priority. */
  lemma SameEntries(q: QueueState, q': QueueState, id: Id, priority: int)
    requires Ranked(q, id, priority) && q'.pending == q.pending && q'.timers == q.timers
    requires id in q'.store.tasks ==> id in q.store.tasks && q'.store.tasks[id].cfg == q.store.tasks[id].cfg
    ensures Ranked(q', id, priority)
  {
    forall x | Has(q', x) && x.id == id
      ensures x.priority == priority
    {
      assert Has(q, x);
    }
  }

  /** One more task in the store, under any id. */
  lemma PutIsRanked(q: QueueState, t: Task, id: Id, priority: int)
    requires Ranked(q, id, priority) && (t.id == id ==> t.cfg.priority == priority)
    ensures Ranked(q.(store := PutTask(q.store, t)), id, priority)
  {
    var q' := q.(store := PutTask(q.store, t));
    forall x | Has(q', x) && x.id == id
      ensures x.priority == priority
    {
      assert Has(q, x);
    }
  }

  // ----- each step -----

  lemma AdvanceIsRanked(q: QueueState, cap: nat, c: Id, built: Option<Chord.Built>, now: u64, id: Id, priority: int)
    requires Ranked(q, id, priority)
    requires GainsRanked(q.store.inserted, AdvanceAndDispatch(q, cap, c, built, now).store.inserted, id, priority)
    ensures Ranked(AdvanceAndDispatch(q, cap, c, built, now), id, priority)
  {
    var (s, r) := Chain.Advance(q.store, c);
    var q1 := q.(store := s);
    SameEntries(q, q1, id, priority);
    if r.NextStep? && built.Some? {
      var cfg := r.cfg.(chainId := Some(c));
      var t := NewTask(built.value.id, cfg, built.value.nextFire, now);
      assert AdvanceAndDispatch(q, cap, c, built, now).store.inserted[|q.store.inserted|] == t;
      PutIsRanked(q1, t, id, priority);
      EnqueueIsRanked(q1.(store := PutTask(s, t)), cap, t.id, cfg.priority, id, priority);
    }
  }

  lemma ChordIsRanked(q: QueueState, cap: nat, f: Task, built: Option<Chord.Built>, now: u64, id: Id, priority: int)
    requires Ranked(q, id, priority)
    requires GainsRanked(q.store.inserted, NotifyChord(q, cap, f, built, now).store.inserted, id, priority)
    ensures Ranked(NotifyChord(q, cap, f, built, now), id, priority)
  {
    if f.cfg.chordId.Some? {
      var (s, r) := Chord.Refresh(q.store, f.cfg.chordId.value, built, now);
      var q1 := q.(store := s);
      assert NotifyChord(q, cap, f, built, now).store.inserted == s.inserted;
      RefreshIsRanked(q, f.cfg.chordId.value, built, now, id, priority);
      if r.Some? && r.value.callbackTaskId.Some? && r.value.callbackTaskId.value in s.tasks {
        var cb := r.value.callbackTaskId.value;
        EnqueueIsRanked(q1, cap, cb, s.tasks[cb].cfg.priority, id, priority);
      }
    }
  }

  lemma RefreshIsRanked(q: QueueState, c: Id, built: Option<Chord.Built>, now: u64, id: Id, priority: int)
    requires Ranked(q, id, priority)
    requires GainsRanked(q.store.inserted, Chord.Refresh(q.store, c, built, now).0.inserted, id, priority)
    ensures Ranked(q.(store := Chord.Refresh(q.store, c, built, now).0), id, priority)
  {
    var s := Chord.Refresh(q.store, c, built, now).0;
    RefreshInserts(q.store, c, built, now);
    if s.tasks == q.store.tasks {
      SameEntries(q, q.(store := s), id, priority);
    } else {
      var cfg: TaskConfig :|
        var t := NewTask(built.value.id, cfg, built.value.nextFire, now);
        cfg.chainId.None? && s.tasks == q.store.tasks[t.id := t] && s.inserted == q.store.inserted + [t];
      var t := NewTask(built.value.id, cfg, built.value.nextFire, now);
      assert s.inserted[|q.store.inserted|] == t;
      PutIsRanked(q, t, id, priority);
      SameEntries(q.(store := PutTask(q.store, t)), q.(store := s), id, priority);
    }
  }

  lemma GainsSplit(log: seq<Task>, mid: seq<Task>, log': seq<Task>, id: Id, priority: int)
    requires GainsRanked(log, log', id, priority) && log <= mid <= log'
    ensures GainsRanked(log, mid, id, priority) && GainsRanked(mid, log', id, priority)
  {
    forall k | |log| <= k < |mid| && mid[k].id == id
      ensures mid[k].cfg.priority == priority
    {
      assert log'[k] == mid[k];
    }
  }

  lemma NotifyIsRanked(q: QueueState, cap: nat, f: Task, final: TaskState, builds: Builds, now: u64, id: Id,
                       priority: int)
    requires Ranked(q, id, priority)
    requires GainsRanked(q.store.inserted, Notify(q, cap, f, final, builds, now).store.inserted, id, priority)
    ensures Ranked(Notify(q, cap, f, final, builds, now), id, priority)
  {
    var q2 := NotifyChain(q, cap, f, final, builds.step, now);
    ChordAdds(q2, cap, f, builds.callback, now);
    GainsSplit(q.store.inserted, q2.store.inserted, Notify(q, cap, f, final, builds, now).store.inserted, id, priority);
    if f.cfg.chainId.Some? && final.Success? {
      AdvanceIsRanked(q, cap, f.cfg.chainId.value, builds.step, now, id, priority);
    } else {
      SameEntries(q, q2, id, priority);
    }
    ChordIsRanked(q2, cap, f, builds.callback, now, id, priority);
  }

  lemma LandedIsRanked(q: QueueState, done: Id, k: nat, out: Outcome, now: u64, id: Id, priority: int)
    requires done in q.flights && k < |q.flights[done]| && Ranked(q, id, priority)
    ensures Ranked(Landed(q, done, k, out, now), id, priority)
    ensures Landed(q, done, k, out, now).store.inserted == q.store.inserted
  {
    SameEntries(q, Landed(q, done, k, out, now), id, priority);
  }

  lemma CompletionIsRanked(q: QueueState, cap: nat, done: Id, k: nat, out: Outcome, builds: Builds, now: u64, id: Id,
                           priority: int)
    requires done in q.flights && k < |q.flights[done]| && Ranked(q, id, priority)
    requires GainsRanked(q.store.inserted, Notified(q, done, k, cap, out, builds, now).store.inserted, id, priority)
    ensures Ranked(Notified(q, done, k, cap, out, builds, now), id, priority)
  {
    var f, q1 := q.flights[done][k], Landed(q, done, k, out, now);
    LandedIsRanked(q, done, k, out, now, id, priority);
    var final := FinalState(q1.store, f);
    if ExitOf(Row(q.store, f.id), out).NormalExit? && final.IsTerminal() {
      NotifyIsRanked(q1, cap, f, final, builds, now, id, priority);
    }
  }

  lemma TimerIsRanked(q: QueueState, t: Task, id: Id, priority: int)
    requires Ranked(q, id, priority) && (t.id == id ==> t.cfg.priority == priority)
    ensures Ranked(AddTimer(q, t), id, priority)
  {
    forall x | Has(AddTimer(q, t), x) && x.id == id
      ensures x.priority == priority
    {
      assert x == Entry(t.cfg.priority, t.id) || Has(q, x);
    }
  }

  lemma HoldForRateIsRanked(q: QueueState, t: Task, now: u64, id: Id, priority: int)
    requires Ranked(q, id, priority) && (t.id == id ==> t.cfg.priority == priority)
    ensures Ranked(HoldForRate(q, t, now), id, priority)
  {
    var q1 := HoldForRate(q, t, now).(timers := q.timers);
    SameEntries(q, q1, id, priority);
    TimerIsRanked(q1, t, id, priority);
  }

  lemma AdmitIsRanked(q: QueueState, t: Task, now: u64, id: Id, priority: int)
    requires Ranked(q, id, priority) && (t.id == id ==> t.cfg.priority == priority)
    ensures Ranked(Admit(q, t, now), id, priority)
  {
    AdmitOwn(q, t, now);
    var q', q1 := Admit(q, t, now), Limited(q, t, now);
    SameEntries(q, q1, id, priority);
    if Cron.IsExpired(t, now) {
      SameEntries(q, q', id, priority);
    } else if q' == AddTimer(q, t) {
      TimerIsRanked(q, t, id, priority);
    } else if q' == HoldForRate(q1, t, now) {
      HoldForRateIsRanked(q1, t, now, id, priority);
    } else if q' == HoldForOverlap(q1, t, now) {
      var q2 := q1.(store := q'.store);
      SameEntries(q1, q2, id, priority);
      TimerIsRanked(q2, t, id, priority);
    } else {
      SameEntries(q1, q', id, priority);
    }
  }

  lemma PrologueIsRanked(q: QueueState, now: u64, id: Id, priority: int)
    requires Ranked(q, id, priority)
    requires forall other :: other in q.store.tasks ==> q.store.tasks[other].id == other
    ensures Ranked(Prologue(q, now), id, priority)
  {
    if q.pending != [] {
      var q1 := q.(pending := q.pending[1..]);
      forall x | Has(q1, x) && x.id == id
        ensures x.priority == priority
      {
        assert Has(q, x);
      }
      var front := q.pending[0].id;
      if front in q.store.tasks && !q.store.tasks[front].state.IsTerminal() {
        AdmitIsRanked(q1, q.store.tasks[front], now, id, priority);
      }
    }
  }

  lemma FiredTimerIsRanked(q: QueueState, cap: nat, i: nat, id: Id, priority: int)
    requires i < |q.timers| && Ranked(q, id, priority)
    ensures Ranked(FireTimer(q, cap, i), id, priority)
  {
    var q1, e := q.(timers := Without(q.timers, i)), q.timers[i];
    forall x | Has(q1, x) && x.id == id
      ensures x.priority == priority
    {
      assert Has(q, x);
    }
    assert Has(q, e);
    EnqueueIsRanked(q1, cap, e.id, e.priority, id, priority);
  }

  lemma RetryIsRanked(q: QueueState, cap: nat, t: Task, now: u64, id: Id, priority: int)
    requires Ranked(q, id, priority) && (t.id == id ==> t.cfg.priority == priority)
    ensures Ranked(RetryOne(q, cap, t, now), id, priority)
  {
    EnqueueIsRanked(q, cap, t.id, t.cfg.priority, id, priority);
    var q1 := EnqueueId(q, cap, t.id, t.cfg.priority);
    SameEntries(q1, q1.(store := UpdateNextFire(q1.store, t.id, None)), id, priority);
  }

  lemma DispatchIsRanked(q: QueueState, cap: nat, b: Chord.Built, cfg: TaskConfig, now: u64, id: Id, priority: int)
    requires Ranked(q, id, priority)
    requires GainsRanked(q.store.inserted, DispatchOp(q, cap, b, cfg, now).0.store.inserted, id, priority)
    ensures Ranked(DispatchOp(q, cap, b, cfg, now).0, id, priority)
  {
    if cfg.replaceExisting || b.id !in q.store.tasks {
      var s := if cfg.replaceExisting then DeleteTask(q.store, b.id) else q.store;
      DispatchGains(q, cap, b, cfg, now, id, priority);
      SameEntries(q, q.(store := s), id, priority);
      NewTaskIsRanked(q.(store := s), cap, NewTask(b.id, cfg, b.nextFire, now), id, priority);
    }
  }

  lemma DispatchGains(q: QueueState, cap: nat, b: Chord.Built, cfg: TaskConfig, now: u64, id: Id, priority: int)
    requires cfg.replaceExisting || b.id !in q.store.tasks
    requires GainsRanked(q.store.inserted, DispatchOp(q, cap, b, cfg, now).0.store.inserted, id, priority)
    ensures b.id == id ==> cfg.priority == priority
  {
    assert DispatchOp(q, cap, b, cfg, now).0.store.inserted[|q.store.inserted|]
        == NewTask(b.id, cfg, b.nextFire, now);
  }

  /** A new task, and its entry. */
  lemma NewTaskIsRanked(q: QueueState, cap: nat, t: Task, id: Id, priority: int)
    requires Ranked(q, id, priority) && (t.id == id ==> t.cfg.priority == priority)
    ensures Ranked(q.(store := PutTask(q.store, t)), id, priority)
    ensures Ranked(EnqueueId(q.(store := PutTask(q.store, t)), cap, t.id, t.cfg.priority), id, priority)
  {
    PutIsRanked(q, t, id, priority);
    EnqueueIsRanked(q.(store := PutTask(q.store, t)), cap, t.id, t.cfg.priority, id, priority);
  }

  /** What the step may do under an id that keeps its priority: insert, list, call
      back and modify only so. */
  ghost predicate Suits(p: Params, e: EngineState, a: Action, id: Id, priority: int)
    requires Enabled(p, e, a)
  {
    && GainsRanked(e.q.store.inserted, Step(p, e, a).q.store.inserted, id, priority)
    && (a.RetryTask? && e.retry.todo[0].id == id ==> e.retry.todo[0].cfg.priority == priority)
    && (a.CallbackEnqueues? && e.callbacks[a.i] == id ==> id in e.q.store.tasks)
    && (a.Modify? && a.id == id ==> id !in e.q.store.tasks)
  }

  /** The steps that leave the queue and the timers alone. */
  predicate Elsewhere(a: Action) {
    || a.NewChord? || a.CronBegin? || a.CronTask? || a.CronEnd? || a.RetryBegin? || a.DogBegin? || a.DogTask?
    || a.Cancel? || a.Requeue? || a.Remove? || a.Modify? || a.SetPaused?
  }

  lemma ElsewhereIsRanked(p: Params, e: EngineState, a: Action, id: Id, priority: int)
    requires Enabled(p, e, a) && Elsewhere(a) && Ranked(e.q, id, priority) && Suits(p, e, a, id, priority)
    ensures Ranked(Step(p, e, a).q, id, priority)
  {
    if a.CronTask? {
      var t := e.cron.todo[0];
      Cron.EffectOnRows(e.q.store, t.id, Cron.ScanTask(p.oracle, t, e.cron.now, a.draw), e.cron.now);
    }
    SameEntries(e.q, Step(p, e, a).q, id, priority);
  }

  lemma InsertionIsRanked(p: Params, e: EngineState, a: Action, id: Id, priority: int)
    requires Enabled(p, e, a) && Ranked(e.q, id, priority) && Suits(p, e, a, id, priority)
    requires a.Dispatch? || a.NewChain? || a.NewHeader?
    ensures Ranked(Step(p, e, a).q, id, priority)
  {
    match a
    case Dispatch(b, cfg, now) => DispatchIsRanked(e.q, p.cap, b, cfg, now, id, priority);
    case NewChain(c, tasks, built, now) =>
      if tasks != [] {
        var q1 := e.q.(store := CreateChain(e.q.store, c, tasks));
        SameEntries(e.q, q1, id, priority);
        AdvanceIsRanked(q1, p.cap, c, built, now, id, priority);
      }
    case NewHeader(c, cfg, b, now) =>
      var t := HeaderTask(c, cfg, b, now);
      assert Step(p, e, a).q.store.inserted[|e.q.store.inserted|] == t;
      PutIsRanked(e.q, t, id, priority);
      EnqueueIsRanked(e.q.(store := PutTask(e.q.store, t)), p.cap, b.id, cfg.priority, id, priority);
  }

  lemma CompletedIsRanked(p: Params, e: EngineState, a: Action, id: Id, priority: int)
    requires Enabled(p, e, a) && Ranked(e.q, id, priority) && Suits(p, e, a, id, priority) && a.Completion?
    ensures Ranked(Step(p, e, a).q, id, priority)
  {
    CompleteIsNotified(e.q, a.id, a.k, p.cap, a.out, a.builds, a.now);
    CompletionIsRanked(e.q, p.cap, a.id, a.k, a.out, a.builds, a.now, id, priority);
    SameEntries(Notified(e.q, a.id, a.k, p.cap, a.out, a.builds, a.now), Step(p, e, a).q, id, priority);
  }

  lemma QueueStepIsRanked(p: Params, e: EngineState, a: Action, id: Id, priority: int)
    requires Enabled(p, e, a) && Ranked(e.q, id, priority) && Suits(p, e, a, id, priority)
    requires forall other :: other in e.q.store.tasks ==> e.q.store.tasks[other].id == other
    requires a.ProcessOne? || a.TimerFires? || a.CallbackEnqueues? || a.RetryTask?
    ensures Ranked(Step(p, e, a).q, id, priority)
  {
    match a
    case ProcessOne(now) => PrologueIsRanked(e.q, now, id, priority);
    case TimerFires(i) => FiredTimerIsRanked(e.q, p.cap, i, id, priority);
    case CallbackEnqueues(i) =>
      var cb := e.callbacks[i];
      EnqueueIsRanked(e.q, p.cap, cb, if cb in e.q.store.tasks then e.q.store.tasks[cb].cfg.priority else 0, id,
                      priority);
    case RetryTask => RetryIsRanked(e.q, p.cap, e.retry.todo[0], e.retry.now, id, priority);
  }

  lemma StepIsRanked(p: Params, e: EngineState, a: Action, id: Id, priority: int)
    requires Enabled(p, e, a) && Ranked(e.q, id, priority) && Suits(p, e, a, id, priority)
    requires forall other :: other in e.q.store.tasks ==> e.q.store.tasks[other].id == other
    ensures Ranked(Step(p, e, a).q, id, priority)
  {
    if Elsewhere(a) {
      ElsewhereIsRanked(p, e, a, id, priority);
    } else if a.Completion? {
      CompletedIsRanked(p, e, a, id, priority);
    } else if a.Dispatch? || a.NewChain? || a.NewHeader? {
      InsertionIsRanked(p, e, a, id, priority);
    } else {
      QueueStepIsRanked(p, e, a, id, priority);
    }
  }

  // ----- every run -----

  /** An id never inserted waits nowhere; an unaltered one with its priority. */
  ghost predicate Prioritised(s: Sys, id: Id) {
    var l := LifeOf(s, id);
    && (l.made == [] ==> !Held(l))
    && (Unaltered(l) ==> Ranked(s.e.q, id, l.made[0].cfg.priority))
  }

  lemma WaitsNowhere(q: QueueState, id: Id)
    ensures !Queued(q, id) <==> forall x :: Has(q, x) ==> x.id != id
  {
    forall e | e in q.pending
      ensures e.id in Ids(q.pending)
    {
    }
    if forall x :: Has(q, x) ==> x.id != id {
      assert id !in Ids(q.pending) && id !in Ids(q.timers);
    }
    if !Queued(q, id) {
      forall x | Has(q, x)
        ensures x.id != id
      {
      }
    }
  }

  /** An id that waits nowhere and has no row has any priority. */
  lemma NothingIsRanked(q: QueueState, id: Id, priority: int)
    requires !Queued(q, id) && id !in q.store.tasks
    ensures Ranked(q, id, priority)
  {
    WaitsNowhere(q, id);
  }

  lemma {:induction false} GainsAreMade(log: seq<Task>, log': seq<Task>, id: Id, k: nat)
    requires log <= log' && |log| <= k < |log'| && log'[k].id == id
    ensures log'[k] in Made(log', id) && |Made(log', id)| > |Made(log, id)|
    decreases |log'|
  {
    var front := log'[..|log'| - 1];
    if k < |log'| - 1 {
      GainsAreMade(log, front, id, k);
    } else {
      MadePrefix(log, front, id);
    }
  }

  lemma GainsOfUnaltered(log: seq<Task>, log': seq<Task>, id: Id)
    requires log <= log' && |Made(log', id)| == 1
    ensures GainsRanked(log, log', id, Made(log', id)[0].cfg.priority)
  {
    forall k | |log| <= k < |log'| && log'[k].id == id
      ensures log'[k].cfg.priority == Made(log', id)[0].cfg.priority
    {
      GainsAreMade(log, log', id, k);
    }
  }

  lemma GainsOfUnmade(log: seq<Task>, log': seq<Task>, id: Id, priority: int)
    requires log <= log' && Made(log', id) == []
    ensures GainsRanked(log, log', id, priority)
  {
    forall k | |log| <= k < |log'| && log'[k].id == id
      ensures false
    {
      GainsAreMade(log, log', id, k);
    }
  }

  lemma RowsAreKeyed(s: Sys)
    requires AllWell(s)
    ensures forall id :: id in s.e.q.store.tasks ==> s.e.q.store.tasks[id].id == id
  {
    forall id | id in s.e.q.store.tasks
      ensures s.e.q.store.tasks[id].id == id
    {
      assert Well(s, id);
    }
  }

  /** What is listed under an id is a copy of a task inserted under it. */
  lemma ListedIsCopy(s: Sys, id: Id)
    requires Well(s, id)
    ensures LifeOf(s, id).made == [] ==>
              && (s.e.retry.todo != [] ==> s.e.retry.todo[0].id != id)
              && (s.e.cron.todo != [] ==> s.e.cron.todo[0].id != id)
              && id !in s.e.q.store.tasks
    ensures Unaltered(LifeOf(s, id)) ==>
              && (s.e.retry.todo != [] && s.e.retry.todo[0].id == id ==>
                    s.e.retry.todo[0].cfg == LifeOf(s, id).made[0].cfg)
              && id in s.e.q.store.tasks
  {
    var l := LifeOf(s, id);
    if s.e.retry.todo != [] && s.e.retry.todo[0].id == id {
      assert s.e.retry.todo[0] in l.listed;
    }
    if s.e.cron.todo != [] && s.e.cron.todo[0].id == id {
      assert s.e.cron.todo[0] in l.listed;
    }
  }

  lemma DueStays(p: Params, e: EngineState, a: Action, id: Id)
    requires Enabled(p, e, a) && id !in e.callbacks && id !in e.due
    requires e.cron.todo != [] ==> e.cron.todo[0].id != id
    ensures id !in Step(p, e, a).callbacks && id !in Step(p, e, a).due
  {
  }

  lemma NothingStays(p: Params, s: Sys, a: Action, s': Sys, id: Id)
    requires AllWell(s) && Moves(p, s, a, s') && Prioritised(s, id) && LifeOf(s', id).made == []
    ensures !Held(LifeOf(s', id))
  {
    LogGrows(p, s.e, a);
    MadePrefix(s.e.q.store.inserted, s'.e.q.store.inserted, id);
    assert Well(s, id);
    ListedIsCopy(s, id);
    RowsAreKeyed(s);
    DueStays(p, s.e, a, id);
    forall priority: int
      ensures Ranked(s'.e.q, id, priority)
    {
      NothingIsRanked(s.e.q, id, priority);
      GainsOfUnmade(s.e.q.store.inserted, s'.e.q.store.inserted, id, priority);
      StepIsRanked(p, s.e, a, id, priority);
    }
    assert Ranked(s'.e.q, id, 0) && Ranked(s'.e.q, id, 1);
    WaitsNowhere(s'.e.q, id);
  }

  lemma UnalteredSuits(p: Params, s: Sys, a: Action, s': Sys, id: Id)
    requires AllWell(s) && Moves(p, s, a, s') && Prioritised(s, id) && Unaltered(LifeOf(s', id))
    ensures Suits(p, s.e, a, id, LifeOf(s', id).made[0].cfg.priority)
  {
    Clocks.UnalteredBefore(p, s, a, s', id);
    LogGrows(p, s.e, a);
    assert Well(s, id);
    ListedIsCopy(s, id);
    GainsOfUnaltered(s.e.q.store.inserted, s'.e.q.store.inserted, id);
  }

  lemma UnalteredStaysRanked(p: Params, s: Sys, a: Action, s': Sys, id: Id)
    requires AllWell(s) && Moves(p, s, a, s') && Prioritised(s, id) && Unaltered(LifeOf(s', id))
    ensures Ranked(s'.e.q, id, LifeOf(s', id).made[0].cfg.priority)
  {
    var priority := LifeOf(s', id).made[0].cfg.priority;
    UnalteredSuits(p, s, a, s', id);
    Clocks.UnalteredBefore(p, s, a, s', id);
    RowsAreKeyed(s);
    if LifeOf(s, id).made == [] {
      assert Well(s, id);
      NothingIsRanked(s.e.q, id, priority);
    }
    StepIsRanked(p, s.e, a, id, priority);
  }

  lemma StepIsPrioritised(p: Params, s: Sys, a: Action, s': Sys, id: Id)
    requires AllWell(s) && Moves(p, s, a, s') && Prioritised(s, id)
    ensures Prioritised(s', id)
  {
    if LifeOf(s', id).made == [] {
      NothingStays(p, s, a, s', id);
    } else if Unaltered(LifeOf(s', id)) {
      UnalteredStaysRanked(p, s, a, s', id);
    }
  }

  lemma MoveIsPrioritised(p: Params, states: seq<Sys>, actions: seq<Action>, k: nat, id: Id)
    requires IsTrace(p, states, actions) && k < |actions| && Prioritised(states[k], id)
    ensures Prioritised(states[k + 1], id)
  {
    TraceIsWell(p, states, actions, k);
    assert MovesAt(p, states, actions, k);
    StepIsPrioritised(p, states[k], actions[k], states[k + 1], id);
  }

  lemma {:induction false} TraceIsPrioritised(p: Params, states: seq<Sys>, actions: seq<Action>, k: nat, id: Id)
    requires IsTrace(p, states, actions) && k <= |actions|
    ensures Prioritised(states[k], id)
  {
    if k > 0 {
      TraceIsPrioritised(p, states, actions, k - 1, id);
      MoveIsPrioritised(p, states, actions, k - 1, id);
    }
  }

  /** In every reachable state, wherever an unaltered task waits, in the queue or
      for a timer, it waits with the priority it was created with. */
  lemma WaitsWithItsPriority(p: Params, s: Sys, id: Id, x: Entry)
    requires Reachable(p, s) && Unaltered(LifeOf(s, id))
    requires (x in s.e.q.pending || x in s.e.q.timers) && x.id == id
    ensures x.priority == LifeOf(s, id).made[0].cfg.priority
  {
    var states, actions :| IsTrace(p, states, actions) && states[|actions|] == s;
    TraceIsPrioritised(p, states, actions, |actions|, id);
    assert Has(s.e.q, x);
  }

  // ----- the highest first -----

  lemma PushSorts(q: seq<Entry>, cap: nat, e: Entry)
    requires Descending(q)
    ensures Descending(Push(q, cap, e))
  {
    if |q| < cap {
      StableSortIsStable(q + [e], 0);
    }
  }

  lemma AdvanceSorts(q: QueueState, cap: nat, c: Id, built: Option<Chord.Built>, now: u64)
    requires Descending(q.pending)
    ensures Descending(AdvanceAndDispatch(q, cap, c, built, now).pending)
  {
    var r := Chain.Advance(q.store, c).1;
    if r.NextStep? && built.Some? {
      PushSorts(q.pending, cap, Entry(r.cfg.priority, built.value.id));
    }
  }

  lemma ChordSorts(q: QueueState, cap: nat, f: Task, built: Option<Chord.Built>, now: u64)
    requires Descending(q.pending)
    ensures Descending(NotifyChord(q, cap, f, built, now).pending)
  {
    if f.cfg.chordId.Some? {
      var (s, r) := Chord.Refresh(q.store, f.cfg.chordId.value, built, now);
      if r.Some? && r.value.callbackTaskId.Some? && r.value.callbackTaskId.value in s.tasks {
        var cb := r.value.callbackTaskId.value;
        PushSorts(q.pending, cap, Entry(s.tasks[cb].cfg.priority, cb));
      }
    }
  }

  lemma CompletionSorts(q: QueueState, cap: nat, done: Id, k: nat, out: Outcome, builds: Builds, now: u64)
    requires done in q.flights && k < |q.flights[done]| && Descending(q.pending)
    ensures Descending(Notified(q, done, k, cap, out, builds, now).pending)
  {
    var f, q1 := q.flights[done][k], Landed(q, done, k, out, now);
    var final := FinalState(q1.store, f);
    if ExitOf(Row(q.store, f.id), out).NormalExit? && final.IsTerminal() {
      if f.cfg.chainId.Some? && final.Success? {
        AdvanceSorts(q1, cap, f.cfg.chainId.value, builds.step, now);
      }
      ChordSorts(NotifyChain(q1, cap, f, final, builds.step, now), cap, f, builds.callback, now);
    }
  }

  lemma PrologueSorts(q: QueueState, now: u64)
    requires Descending(q.pending)
    ensures Descending(Prologue(q, now).pending)
  {
  }

  lemma InsertionSorts(p: Params, e: EngineState, a: Action)
    requires Enabled(p, e, a) && Descending(e.q.pending) && (a.Dispatch? || a.NewChain? || a.NewHeader?)
    ensures Descending(Step(p, e, a).q.pending)
  {
    match a
    case Dispatch(b, cfg, _) => PushSorts(e.q.pending, p.cap, Entry(cfg.priority, b.id));
    case NewHeader(_, cfg, b, _) => PushSorts(e.q.pending, p.cap, Entry(cfg.priority, b.id));
    case NewChain(c, tasks, built, now) =>
      if tasks != [] {
        AdvanceSorts(e.q.(store := CreateChain(e.q.store, c, tasks)), p.cap, c, built, now);
      }
  }

  lemma CompletedSorts(p: Params, e: EngineState, a: Action)
    requires Enabled(p, e, a) && Descending(e.q.pending) && a.Completion?
    ensures Descending(Step(p, e, a).q.pending)
  {
    CompleteIsNotified(e.q, a.id, a.k, p.cap, a.out, a.builds, a.now);
    CompletionSorts(e.q, p.cap, a.id, a.k, a.out, a.builds, a.now);
  }

  lemma QueueStepSorts(p: Params, e: EngineState, a: Action)
    requires Enabled(p, e, a) && Descending(e.q.pending)
    requires a.ProcessOne? || a.TimerFires? || a.CallbackEnqueues? || a.RetryTask?
    ensures Descending(Step(p, e, a).q.pending)
  {
    match a
    case ProcessOne(now) => PrologueSorts(e.q, now);
    case TimerFires(i) => PushSorts(e.q.pending, p.cap, e.q.timers[i]);
    case CallbackEnqueues(i) =>
      var cb := e.callbacks[i];
      PushSorts(e.q.pending, p.cap,
                Entry(if cb in e.q.store.tasks then e.q.store.tasks[cb].cfg.priority else 0, cb));
    case RetryTask => PushSorts(e.q.pending, p.cap, Entry(e.retry.todo[0].cfg.priority, e.retry.todo[0].id));
  }

  lemma StepSorts(p: Params, e: EngineState, a: Action)
    requires Enabled(p, e, a) && Descending(e.q.pending)
    ensures Descending(Step(p, e, a).q.pending)
  {
    if a.Completion? {
      CompletedSorts(p, e, a);
    } else if a.Dispatch? || a.NewChain? || a.NewHeader? {
      InsertionSorts(p, e, a);
    } else if !Elsewhere(a) {
      QueueStepSorts(p, e, a);
    }
  }

  lemma {:induction false} TraceIsSorted(p: Params, states: seq<Sys>, actions: seq<Action>, k: nat)
    requires IsTrace(p, states, actions) && k <= |actions|
    ensures Descending(states[k].e.q.pending)
  {
    if k > 0 {
      TraceIsSorted(p, states, actions, k - 1);
      assert MovesAt(p, states, actions, k - 1);
      StepSorts(p, states[k - 1].e, actions[k - 1]);
    }
  }

  /** In every reachable state the next task to be served was created with a
      priority no lower than that of any other that waits in the queue. */
  lemma HighestIsServedFirst(p: Params, s: Sys, k: nat)
    requires Reachable(p, s) && k < |s.e.q.pending|
    requires Unaltered(LifeOf(s, s.e.q.pending[0].id)) && Unaltered(LifeOf(s, s.e.q.pending[k].id))
    ensures LifeOf(s, s.e.q.pending[0].id).made[0].cfg.priority >= LifeOf(s, s.e.q.pending[k].id).made[0].cfg.priority
  {
    var states, actions :| IsTrace(p, states, actions) && states[|actions|] == s;
    TraceIsSorted(p, states, actions, |actions|);
    WaitsWithItsPriority(p, s, s.e.q.pending[0].id, s.e.q.pending[0]);
    WaitsWithItsPriority(p, s, s.e.q.pending[k].id, s.e.q.pending[k]);
  }

  // ----- the bound -----

  /** The queue grew, not beyond its bound, and what was refused met it full. */
  predicate GrowsWithin(q: QueueState, q': QueueState, cap: nat) {
    && |q.pending| <= |q'.pending| && (|q.pending| <= cap ==> |q'.pending| <= cap)
    && q.refused <= q'.refused && (q'.refused != q.refused ==> |q'.pending| >= cap)
  }

  lemma EnqueueGrowsWithin(q: QueueState, cap: nat, id: Id, p: int)
    ensures GrowsWithin(q, EnqueueId(q, cap, id, p), cap)
  {
    if |q.pending| < cap {
      PushContents(q.pending, cap, Entry(p, id));
      assert |multiset(Push(q.pending, cap, Entry(p, id)))| == |multiset(q.pending)| + 1;
    }
  }

  lemma GrowsWithinTwice(q: QueueState, q1: QueueState, q2: QueueState, cap: nat)
    requires GrowsWithin(q, q1, cap) && GrowsWithin(q1, q2, cap)
    ensures GrowsWithin(q, q2, cap)
  {
  }

  lemma AdvanceGrowsWithin(q: QueueState, cap: nat, c: Id, built: Option<Chord.Built>, now: u64)
    ensures GrowsWithin(q, AdvanceAndDispatch(q, cap, c, built, now), cap)
  {
    var (s, r) := Chain.Advance(q.store, c);
    if r.NextStep? && built.Some? {
      var t := NewTask(built.value.id, r.cfg.(chainId := Some(c)), built.value.nextFire, now);
      EnqueueGrowsWithin(q.(store := PutTask(s, t)), cap, t.id, t.cfg.priority);
    }
  }

  lemma ChordGrowsWithin(q: QueueState, cap: nat, f: Task, built: Option<Chord.Built>, now: u64)
    ensures GrowsWithin(q, NotifyChord(q, cap, f, built, now), cap)
  {
    if f.cfg.chordId.Some? {
      var (s, r) := Chord.Refresh(q.store, f.cfg.chordId.value, built, now);
      if r.Some? && r.value.callbackTaskId.Some? && r.value.callbackTaskId.value in s.tasks {
        var cb := r.value.callbackTaskId.value;
        EnqueueGrowsWithin(q.(store := s), cap, cb, s.tasks[cb].cfg.priority);
      }
    }
  }

  lemma CompletionGrowsWithin(q: QueueState, cap: nat, done: Id, k: nat, out: Outcome, builds: Builds, now: u64)
    requires done in q.flights && k < |q.flights[done]|
    ensures GrowsWithin(q, Complete(q, cap, done, k, out, builds, now), cap)
  {
    var f, q1 := q.flights[done][k], q.(store := Settle(q.store, q.flights[done][k], out, now));
    var final := FinalState(q1.store, f);
    var q2 := NotifyChain(q1, cap, f, final, builds.step, now);
    if f.cfg.chainId.Some? && final.Success? {
      AdvanceGrowsWithin(q1, cap, f.cfg.chainId.value, builds.step, now);
    }
    assert GrowsWithin(q1, q2, cap);
    ChordGrowsWithin(q2, cap, f, builds.callback, now);
    GrowsWithinTwice(q1, q2, Notify(q1, cap, f, final, builds, now), cap);
  }

  /** The queue after a step: shrunk by its front, or grown within its bound. */
  predicate StaysWithin(q: QueueState, q': QueueState, cap: nat) {
    || (q'.refused == q.refused && |q'.pending| <= |q.pending|)
    || GrowsWithin(q, q', cap)
  }

  lemma PrologueStaysWithin(q: QueueState, now: u64, cap: nat)
    ensures StaysWithin(q, Prologue(q, now), cap)
  {
  }

  lemma InsertionStaysWithin(p: Params, e: EngineState, a: Action)
    requires Enabled(p, e, a) && (a.Dispatch? || a.NewChain? || a.NewHeader?)
    ensures StaysWithin(e.q, Step(p, e, a).q, p.cap)
  {
    match a
    case Dispatch(b, cfg, now) =>
      var s := if cfg.replaceExisting then DeleteTask(e.q.store, b.id) else e.q.store;
      EnqueueGrowsWithin(e.q.(store := PutTask(s, NewTask(b.id, cfg, b.nextFire, now))), p.cap, b.id, cfg.priority);
    case NewChain(c, tasks, built, now) =>
      AdvanceGrowsWithin(e.q.(store := CreateChain(e.q.store, c, tasks)), p.cap, c, built, now);
    case NewHeader(c, cfg, b, now) =>
      EnqueueGrowsWithin(e.q.(store := PutTask(e.q.store, HeaderTask(c, cfg, b, now))), p.cap, b.id, cfg.priority);
  }

  lemma StepStaysWithin(p: Params, e: EngineState, a: Action)
    requires Enabled(p, e, a)
    ensures StaysWithin(e.q, Step(p, e, a).q, p.cap)
  {
    match a
    case ProcessOne(now) => PrologueStaysWithin(e.q, now, p.cap);
    case Completion(done, k, out, builds, now) => CompletionGrowsWithin(e.q, p.cap, done, k, out, builds, now);
    case TimerFires(i) =>
      EnqueueGrowsWithin(e.q.(timers := Without(e.q.timers, i)), p.cap, e.q.timers[i].id, e.q.timers[i].priority);
    case CallbackEnqueues(i) =>
      var cb := e.callbacks[i];
      EnqueueGrowsWithin(e.q, p.cap, cb, if cb in e.q.store.tasks then e.q.store.tasks[cb].cfg.priority else 0);
    case RetryTask => EnqueueGrowsWithin(e.q, p.cap, e.retry.todo[0].id, e.retry.todo[0].cfg.priority);
    case _ =>
      if a.Dispatch? || a.NewChain? || a.NewHeader? {
        InsertionStaysWithin(p, e, a);
      }
  }

  lemma {:induction false} TraceIsBounded(p: Params, states: seq<Sys>, actions: seq<Action>, k: nat)
    requires IsTrace(p, states, actions) && k <= |actions|
    ensures |states[k].e.q.pending| <= p.cap
  {
    if k > 0 {
      TraceIsBounded(p, states, actions, k - 1);
      assert MovesAt(p, states, actions, k - 1);
      StepStaysWithin(p, states[k - 1].e, actions[k - 1]);
    }
  }

  /** In every reachable state the queue holds at most as many entries as it may,
      and a step that refuses an enqueue leaves it full. */
  lemma QueueIsBounded(p: Params, s: Sys, a: Action)
    requires Reachable(p, s) && Enabled(p, s.e, a)
    ensures |s.e.q.pending| <= p.cap && |Next(p, s, a).e.q.pending| <= p.cap
    ensures Next(p, s, a).e.q.refused != s.e.q.refused ==> |Next(p, s, a).e.q.pending| == p.cap
  {
    var states, actions :| IsTrace(p, states, actions) && states[|actions|] == s;
    TraceIsBounded(p, states, actions, |actions|);
    StepStaysWithin(p, s.e, a);
  }
}
