/** Every step of the engine, seen from every id, is one of the ways a life may
    change; so every life in every reachable state satisfies its invariant. */
module Steps {
  import opened Types
  import opened PriorityQueue
  import opened Store
  import opened Queue
  import opened Handlers
  import Overlap
  import opened Engine
  import opened Lives
  import Chain
  import Chord
  import Cron
  import RateLimiting
  import Watchdogs

  // ----- the view of one id -----

  /** The tasks inserted under an id, in order. */
  function Made(log: seq<Task>, id: Id): seq<Task> {
    if log == [] then []
    else
      Made(log[..|log| - 1], id)
      + (if log[|log| - 1].id == id then [log[|log| - 1]] else [])
  }

  lemma MadeAppend(log: seq<Task>, t: Task, id: Id)
    ensures Made(log + [t], id) == Made(log, id) + (if t.id == id then [t] else [])
  {
    assert (log + [t])[..|log|] == log;
  }

  function Listed(todo: seq<Task>, id: Id): set<Task> {
    set t | t in todo && t.id == id
  }

  /** Its copies the cron and retry scans have yet to visit. */
  function ListedBy(e: EngineState, id: Id): set<Task> {
    Listed(e.cron.todo, id) + Listed(e.retry.todo, id)
  }

  predicate Queued(q: QueueState, id: Id) {
    id in Ids(q.pending) || id in Ids(q.timers)
  }

  function HaltOf(h: History, id: Id): Option<Halt> {
    if id in h.halted then Some(h.halted[id]) else None
  }

  function LifeOf(s: Sys, id: Id): Life {
    var q := s.e.q;
    Life(Row(q.store, id),
         Made(q.store.inserted, id),
         CountEvents(q.store.events, id, Started),
         CountEvents(q.store.events, id, Succeeded),
         FlightsOf(q, id),
         Overlap.CountOf(q.running, id),
         Queued(q, id),
         id in q.refused,
         id in s.e.callbacks || id in s.e.due,
         ListedBy(s.e, id),
         id in s.h.touched,
         id in s.h.requeued,
         id in s.h.parked,
         Tally(s.h.consults, id),
         Tally(s.h.answered, id),
         HaltOf(s.h, id),
         id in s.h.overruled,
         s.h.forged,
         id in s.h.fired,
         id in s.h.skipped,
         id in s.h.ended)
  }

  ghost predicate Well(s: Sys, id: Id) {
    Inv(id, LifeOf(s, id))
  }

  ghost predicate AllWell(s: Sys) {
    forall id :: Well(s, id)
  }

  // ----- histories grow -----

  /** For one id: no completion, cancel or overruling. */
  ghost predicate GrowsFor(h: History, h': History, id: Id) {
    && h.touched <= h'.touched && h.requeued <= h'.requeued && h.parked <= h'.parked
    && h.forged <= h'.forged && h.fired <= h'.fired && h.skipped <= h'.skipped
    && Tally(h'.consults, id) == Tally(h.consults, id)
    && Tally(h'.answered, id) == Tally(h.answered, id)
    && HaltOf(h', id) == HaltOf(h, id)
    && (id in h'.overruled <==> id in h.overruled)
    && (id in h'.ended <==> id in h.ended)
  }

  ghost predicate Grows(h: History, h': History) {
    && h.touched <= h'.touched && h.requeued <= h'.requeued && h.parked <= h'.parked
    && h.forged <= h'.forged && h.fired <= h'.fired && h.skipped <= h'.skipped
    && h'.consults == h.consults && h'.answered == h.answered
    && h'.halted == h.halted && h'.overruled == h.overruled && h'.ended == h.ended
  }

  lemma RememberGrows(p: Params, e: EngineState, a: Action, e': EngineState, h: History)
    requires !a.Completion? && !a.Cancel? && !a.CronTask?
    ensures Grows(h, Remember(p, e, a, e', h))
  {
  }

  // ----- the queue -----

  /** Only the store and what is queued differ, and nobody queued is dropped. */
  predicate QueueGrows(q: QueueState, q': QueueState) {
    && Ids(q.pending) <= Ids(q'.pending)
    && Ids(q.timers) <= Ids(q'.timers)
    && q.refused <= q'.refused
    && q'.flights == q.flights && q'.running == q.running
  }

  lemma EnqueueGrows(q: QueueState, cap: nat, id: Id, priority: int)
    ensures QueueGrows(q, EnqueueId(q, cap, id, priority))
    ensures Queued(EnqueueId(q, cap, id, priority), id) || id in EnqueueId(q, cap, id, priority).refused
    ensures |q.pending| < cap ==> Queued(EnqueueId(q, cap, id, priority), id)
  {
    if |q.pending| < cap {
      PushIds(q.pending, cap, Entry(priority, id));
    }
  }

  lemma IdsCons(s: seq<Entry>)
    requires s != []
    ensures Ids(s) == {s[0].id} + Ids(s[1..])
  {
    forall id | id in Ids(s)
      ensures id in {s[0].id} + Ids(s[1..])
    {
      var e :| e in s && e.id == id;
      if e != s[0] {
        assert e in s[1..];
      }
    }
  }

  lemma TimerAdds(q: QueueState, t: Task)
    ensures Ids(AddTimer(q, t).timers) == Ids(q.timers) + {t.id}
  {
    var e := Entry(t.cfg.priority, t.id);
    var s := q.timers + [e];
    assert forall x :: x in s <==> x in q.timers || x == e;
    assert e in s;
  }

  // ----- events -----

  predicate IsSilent(kind: EventType) {
    !kind.Started? && !kind.Succeeded?
  }

  lemma SilentEvent(es: seq<Event>, id': Id, kind: EventType, ts: u64, id: Id)
    requires IsSilent(kind)
    ensures CountEvents(es + [Event(id', kind, ts)], id, Started) == CountEvents(es, id, Started)
    ensures CountEvents(es + [Event(id', kind, ts)], id, Succeeded) == CountEvents(es, id, Succeeded)
  {
    CountAppend(es, Event(id', kind, ts), id, Started);
    CountAppend(es, Event(id', kind, ts), id, Succeeded);
  }

  /** What the two histories in the store say of an id. */
  predicate SameTale(s: StoreState, s': StoreState, id: Id) {
    && Made(s'.inserted, id) == Made(s.inserted, id)
    && CountEvents(s'.events, id, Started) == CountEvents(s.events, id, Started)
    && CountEvents(s'.events, id, Succeeded) == CountEvents(s.events, id, Succeeded)
  }

  // ----- two shapes most steps have -----

  /** The queue keeps the id where it was, or queues it. */
  predicate QueuePasses(q: QueueState, q': QueueState, id: Id) {
    && (Queued(q, id) ==> Queued(q', id) || id in q'.refused)
    && (id in q.refused ==> id in q'.refused)
    && FlightsOf(q', id) == FlightsOf(q, id)
    && Overlap.CountOf(q'.running, id) == Overlap.CountOf(q.running, id)
    && Row(q'.store, id) == Row(q.store, id)
    && SameTale(q.store, q'.store, id)
  }

  /** Nothing about the id but where it is queued. */
  predicate Passes(s: Sys, s': Sys, id: Id) {
    && QueuePasses(s.e.q, s'.e.q, id)
    && (id in s.e.callbacks || id in s.e.due ==> LifeOf(s', id).due || Held(LifeOf(s', id)) || id in s'.e.q.refused)
    && ListedBy(s'.e, id) <= ListedBy(s.e, id)
  }

  lemma PassesKeeps(s: Sys, s': Sys, id: Id)
    requires Inv(id, LifeOf(s, id)) && Passes(s, s', id) && GrowsFor(s.h, s'.h, id)
    ensures Inv(id, LifeOf(s', id))
  {
    IdlesKeeps(id, LifeOf(s, id), LifeOf(s', id));
  }

  /** Only the store differs. */
  ghost predicate OnlyStore(s: Sys, s': Sys) {
    s'.e == WithStore(s.e, s'.e.q.store)
  }

  lemma OnlyStorePasses(s: Sys, s': Sys, id: Id)
    requires OnlyStore(s, s') && SameTale(s.e.q.store, s'.e.q.store, id)
    requires Row(s'.e.q.store, id) == Row(s.e.q.store, id)
    ensures Passes(s, s', id)
  {
  }

  /** Only the store differs, and nothing of the id in it. */
  lemma OnlyStoreKeeps(s: Sys, s': Sys, id: Id)
    requires Inv(id, LifeOf(s, id)) && GrowsFor(s.h, s'.h, id)
    requires OnlyStore(s, s') && SameTale(s.e.q.store, s'.e.q.store, id)
    requires Row(s'.e.q.store, id) == Row(s.e.q.store, id)
    ensures Inv(id, LifeOf(s', id))
  {
    OnlyStorePasses(s, s', id);
    PassesKeeps(s, s', id);
  }

  /** A task is inserted and its id enqueued. */
  predicate Adds(q: QueueState, q': QueueState, cap: nat, t: Task) {
    && q'.store.tasks == q.store.tasks[t.id := t]
    && q'.store.inserted == q.store.inserted + [t]
    && q'.store.events == q.store.events
    && QueueGrows(q, q')
    && (Queued(q', t.id) || t.id in q'.refused || Waits(t))
  }

  predicate IsNew(t: Task) {
    t.state.Pending? && t.attempts == 0 && t.executionCount == 0 && !t.cancelRequested
  }

  lemma AddsKeeps(s: Sys, s': Sys, cap: nat, t: Task, id: Id)
    requires Inv(id, LifeOf(s, id)) && Grows(s.h, s'.h)
    requires Adds(s.e.q, s'.e.q, cap, t) && IsNew(t)
    requires s'.e == s.e.(q := s'.e.q)
    requires t.nextFire == Some(U64_MAX) ==> t.id in s'.h.parked
    ensures Inv(id, LifeOf(s', id))
  {
    MadeAppend(s.e.q.store.inserted, t, id);
    if t.id == id {
      InsertsKeeps(id, LifeOf(s, id), LifeOf(s', id), t);
    } else {
      PassesKeeps(s, s', id);
    }
  }

  // ----- requests -----

  lemma DispatchKeeps(s: Sys, s': Sys, cap: nat, b: Chord.Built, cfg: TaskConfig, now: u64, id: Id)
    requires Inv(id, LifeOf(s, id)) && Grows(s.h, s'.h)
    requires s'.e == s.e.(q := DispatchOp(s.e.q, cap, b, cfg, now).0)
    requires AtMax(Some(b)) <= s'.h.parked
    requires cfg.replaceExisting && b.id in s.e.q.store.tasks ==> b.id in s'.h.touched
    requires cfg.chainId.Some? ==> cfg.chainId.value in s'.h.forged
    ensures Inv(id, LifeOf(s', id))
  {
    var t := NewTask(b.id, cfg, b.nextFire, now);
    if !cfg.replaceExisting && b.id in s.e.q.store.tasks {
      PassesKeeps(s, s', id);
    } else {
      DispatchAdds(s.e.q, cap, b, cfg, now);
      if cfg.replaceExisting && b.id in s.e.q.store.tasks && id == b.id {
        MadeAppend(s.e.q.store.inserted, t, id);
        DisturbsKeeps(id, LifeOf(s, id), LifeOf(s', id));
      } else {
        AddsKeeps(s, s', cap, t, id);
      }
    }
  }

  lemma DispatchAdds(q: QueueState, cap: nat, b: Chord.Built, cfg: TaskConfig, now: u64)
    requires cfg.replaceExisting || b.id !in q.store.tasks
    ensures Adds(q, DispatchOp(q, cap, b, cfg, now).0, cap, NewTask(b.id, cfg, b.nextFire, now))
    ensures DispatchOp(q, cap, b, cfg, now).0.store.chains == q.store.chains
  {
    var t := NewTask(b.id, cfg, b.nextFire, now);
    var store := if cfg.replaceExisting then DeleteTask(q.store, b.id) else q.store;
    EnqueueGrows(q.(store := PutTask(store, t)), cap, t.id, cfg.priority);
    assert DispatchOp(q, cap, b, cfg, now).0.store.tasks == q.store.tasks[t.id := t];
  }

  lemma AdvanceAdds(q: QueueState, cap: nat, chainId: Id, built: Option<Chord.Built>, now: u64)
    ensures var q' := AdvanceAndDispatch(q, cap, chainId, built, now);
            || (q' == q.(store := q.store.(chains := q'.store.chains)))
            || (built.Some? && exists cfg: TaskConfig ::
                  Adds(q, q', cap, NewTask(built.value.id, cfg, built.value.nextFire, now)))
  {
    var (s, r) := Chain.Advance(q.store, chainId);
    if r.NextStep? && built.Some? {
      var cfg := r.cfg.(chainId := Some(chainId));
      var t := NewTask(built.value.id, cfg, built.value.nextFire, now);
      EnqueueGrows(q.(store := PutTask(s, t)), cap, t.id, cfg.priority);
      assert Adds(q, AdvanceAndDispatch(q, cap, chainId, built, now), cap, t);
    }
  }

  /** Advancing a chain, whoever asks, keeps every life well. */
  lemma AdvanceKeeps(s: Sys, s': Sys, cap: nat, chainId: Id, built: Option<Chord.Built>, now: u64, id: Id)
    requires Inv(id, LifeOf(s, id)) && Grows(s.h, s'.h)
    requires s'.e == s.e.(q := AdvanceAndDispatch(s.e.q, cap, chainId, built, now))
    requires AtMax(built) <= s'.h.parked
    ensures Inv(id, LifeOf(s', id))
  {
    AdvanceAdds(s.e.q, cap, chainId, built, now);
    if s'.e.q == s.e.q.(store := s.e.q.store.(chains := s'.e.q.store.chains)) {
      OnlyStoreKeeps(s, s', id);
    } else {
      var cfg :| Adds(s.e.q, s'.e.q, cap, NewTask(built.value.id, cfg, built.value.nextFire, now));
      AddsKeeps(s, s', cap, NewTask(built.value.id, cfg, built.value.nextFire, now), id);
    }
  }

  lemma NewChainKeeps(s: Sys, s': Sys, cap: nat, c: Id, tasks: seq<TaskConfig>, built: Option<Chord.Built>,
                      now: u64, id: Id)
    requires Inv(id, LifeOf(s, id)) && Grows(s.h, s'.h)
    requires s'.e == s.e.(q := ChainOp(s.e.q, cap, c, tasks, built, now))
    requires AtMax(built) <= s'.h.parked
    ensures Inv(id, LifeOf(s', id))
  {
    if tasks == [] {
      PassesKeeps(s, s', id);
    } else {
      var created := Sys(WithStore(s.e, CreateChain(s.e.q.store, c, tasks)), s.h);
      PassesKeeps(s, created, id);
      AdvanceKeeps(created, s', cap, c, built, now, id);
    }
  }

  lemma NewHeaderKeeps(s: Sys, s': Sys, cap: nat, c: Id, cfg: TaskConfig, b: Chord.Built, now: u64, id: Id)
    requires Inv(id, LifeOf(s, id)) && Grows(s.h, s'.h)
    requires s'.e == s.e.(q := InsertHeader(s.e.q, cap, c, cfg, b, now))
    requires AtMax(Some(b)) <= s'.h.parked
    ensures Inv(id, LifeOf(s', id))
  {
    var t := HeaderTask(c, cfg, b, now);
    EnqueueGrows(s.e.q.(store := PutTask(s.e.q.store, t)), cap, t.id, cfg.priority);
    AddsKeeps(s, s', cap, t, id);
  }

  lemma CancelTale(s: StoreState, id': Id, now: u64, id: Id)
    ensures SameTale(s, CancelTask(s, id', now).0, id)
    ensures id != id' ==> Row(CancelTask(s, id', now).0, id) == Row(s, id)
  {
    SilentEvent(s.events, id', CancelledEvent, now, id);
  }

  lemma CancelRow(t: Task, s: StoreState, now: u64)
    requires t.id in s.tasks && s.tasks[t.id] == t
    ensures Row(CancelTask(s, t.id, now).0, t.id)
         == Some(match t.state
                 case Pending => t.(state := Cancelled, finishedAt := Some(now))
                 case Running => t.(cancelRequested := true)
                 case _ => t)
  {
  }

  /** The history after a cancel request. */
  ghost predicate CancelNoted(s: Sys, h': History, id: Id, ok: bool) {
    && s.h.touched <= h'.touched && s.h.requeued <= h'.requeued
    && s.h.parked <= h'.parked && s.h.forged <= h'.forged
    && s.h.fired <= h'.fired && s.h.skipped <= h'.skipped
    && h'.consults == s.h.consults && h'.answered == s.h.answered && h'.ended == s.h.ended
    && h'.overruled == (if ok then s.h.overruled - {id} else s.h.overruled)
    && h'.halted == (if ok && id !in s.h.halted
                     then s.h.halted[id := Halt(CountEvents(s.e.q.store.events, id, Started), Tally(s.h.consults, id))]
                     else s.h.halted)
  }

  /** What an accepted cancel makes of a life. */
  predicate IsCancelled(l: Life, l': Life, now: u64) {
    && l.row.Some? && Edits(l, l') && StaysHeld(l, l')
    && l'.row == Some(match l.row.value.state
                      case Pending => l.row.value.(state := Cancelled, finishedAt := Some(now))
                      case Running => l.row.value.(cancelRequested := true)
                      case _ => l.row.value)
    && (if l.row.value.state.Pending? || l.row.value.state.Running?
        then !l'.overruled && l'.halt == (if l.halt.Some? then l.halt else Some(Halt(l.starts, l.consults)))
        else l'.overruled == l.overruled && l'.halt == l.halt)
  }

  lemma CancelledIsKept(l: Life, l': Life, now: u64)
    requires Kept(l) && IsCancelled(l, l', now)
    ensures Kept(l')
  {
  }

  lemma CancelledKeepsCancel(id: Id, l: Life, l': Life, now: u64)
    requires Sound(id, l) && QuietLife(l) && CancelKept(l) && IsCancelled(l, l', now)
    ensures CancelKept(l')
  {
  }

  lemma CancelOwn(s: Sys, s': Sys, now: u64, id: Id)
    requires Inv(id, LifeOf(s, id)) && id in s.e.q.store.tasks
    requires CancelNoted(s, s'.h, id, CancelTask(s.e.q.store, id, now).1.CancelOk?)
    requires OnlyStore(s, s') && s'.e.q.store == CancelTask(s.e.q.store, id, now).0
    ensures Inv(id, LifeOf(s', id))
  {
    CancelIsCancelled(s, s', now, id);
    CancelledIsKept(LifeOf(s, id), LifeOf(s', id), now);
    CancelledKeepsCancel(id, LifeOf(s, id), LifeOf(s', id), now);
    EditsKeeps(id, LifeOf(s, id), LifeOf(s', id));
  }

  lemma CancelIsCancelled(s: Sys, s': Sys, now: u64, id: Id)
    requires id in s.e.q.store.tasks && s.e.q.store.tasks[id].id == id
    requires CancelNoted(s, s'.h, id, CancelTask(s.e.q.store, id, now).1.CancelOk?)
    requires OnlyStore(s, s') && s'.e.q.store == CancelTask(s.e.q.store, id, now).0
    ensures IsCancelled(LifeOf(s, id), LifeOf(s', id), now)
  {
    CancelTale(s.e.q.store, id, now, id);
    CancelRow(s.e.q.store.tasks[id], s.e.q.store, now);
  }

  lemma CancelKeeps(s: Sys, s': Sys, id': Id, now: u64, id: Id)
    requires Inv(id, LifeOf(s, id))
    requires CancelNoted(s, s'.h, id', CancelTask(s.e.q.store, id', now).1.CancelOk?)
    requires OnlyStore(s, s') && s'.e.q.store == CancelTask(s.e.q.store, id', now).0
    ensures Inv(id, LifeOf(s', id))
  {
    CancelTale(s.e.q.store, id', now, id);
    if id == id' && id in s.e.q.store.tasks {
      CancelOwn(s, s', now, id);
    } else {
      OnlyStoreKeeps(s, s', id);
    }
  }

  lemma RequeueKeeps(s: Sys, s': Sys, id': Id, now: u64, id: Id)
    requires Inv(id, LifeOf(s, id)) && Grows(s.h, s'.h)
    requires OnlyStore(s, s') && s'.e.q.store == RequeueTask(s.e.q.store, id', now).0
    requires now == U64_MAX ==> id' in s'.h.parked
    requires RequeueTask(s.e.q.store, id', now).1 ==> id' in s'.h.requeued
    ensures Inv(id, LifeOf(s', id))
  {
    if id == id' && RequeueTask(s.e.q.store, id, now).1 {
      GoesBackKeeps(id, LifeOf(s, id), LifeOf(s', id));
    } else {
      OnlyStoreKeeps(s, s', id);
    }
  }

  lemma RemoveKeeps(s: Sys, s': Sys, id': Id, id: Id)
    requires Inv(id, LifeOf(s, id)) && Grows(s.h, s'.h)
    requires OnlyStore(s, s') && s'.e.q.store == DeleteTask(s.e.q.store, id')
    requires id' in s.e.q.store.tasks ==> id' in s'.h.touched
    ensures Inv(id, LifeOf(s', id))
  {
    if id == id' && id in s.e.q.store.tasks {
      DisturbsKeeps(id, LifeOf(s, id), LifeOf(s', id));
    } else {
      OnlyStoreKeeps(s, s', id);
    }
  }

  lemma ModifiedRows(s: StoreState, id': Id, cfg: TaskConfig, paused: bool, next: Option<u64>, id: Id)
    ensures var s' := ModifyTask(s, id', cfg, paused, next);
            && s' == s.(tasks := s'.tasks)
            && (id != id' || id !in s.tasks ==> Row(s', id) == Row(s, id))
            && (id == id' && id in s.tasks ==>
                  Row(s', id) == Some(if s.tasks[id].state.IsTerminal() then s.tasks[id]
                                      else s.tasks[id].(cfg := cfg, paused := paused, nextFire := next)))
  {
  }

  lemma ModifyKeeps(s: Sys, s': Sys, id': Id, cfg: TaskConfig, paused: bool, next: Option<u64>, id: Id)
    requires Inv(id, LifeOf(s, id)) && Grows(s.h, s'.h)
    requires OnlyStore(s, s') && s'.e.q.store == ModifyTask(s.e.q.store, id', cfg, paused, next)
    requires id' in s.e.q.store.tasks ==> id' in s'.h.touched
    requires cfg.chainId.Some? ==> cfg.chainId.value in s'.h.forged
    ensures Inv(id, LifeOf(s', id))
  {
    ModifiedRows(s.e.q.store, id', cfg, paused, next, id);
    if id == id' && id in s.e.q.store.tasks {
      DisturbsKeeps(id, LifeOf(s, id), LifeOf(s', id));
    } else {
      OnlyStoreKeeps(s, s', id);
    }
  }

  lemma PauseRetimes(s: Sys, s': Sys, id: Id, paused: bool)
    requires id in s.e.q.store.tasks && Grows(s.h, s'.h)
    requires OnlyStore(s, s') && s'.e.q.store == PauseTask(s.e.q.store, id, paused)
    ensures Retimes(LifeOf(s, id), LifeOf(s', id)) && StaysHeld(LifeOf(s, id), LifeOf(s', id))
    ensures LifeOf(s', id).row == Some(s.e.q.store.tasks[id].(paused := paused))
  {
  }

  lemma PauseKeeps(s: Sys, s': Sys, id': Id, paused: bool, id: Id)
    requires Inv(id, LifeOf(s, id)) && Grows(s.h, s'.h)
    requires OnlyStore(s, s') && s'.e.q.store == PauseTask(s.e.q.store, id', paused)
    ensures Inv(id, LifeOf(s', id))
  {
    if id == id' && id in s.e.q.store.tasks {
      PauseRetimes(s, s', id, paused);
      UnmovedIsKept(LifeOf(s, id), LifeOf(s', id));
      RetimesKeeps(id, LifeOf(s, id), LifeOf(s', id));
    } else {
      OnlyStoreKeeps(s, s', id);
    }
  }

  // ----- re-enqueues -----

  lemma TimerKeeps(s: Sys, s': Sys, cap: nat, i: nat, id: Id)
    requires Inv(id, LifeOf(s, id)) && Grows(s.h, s'.h) && i < |s.e.q.timers|
    requires s'.e == s.e.(q := FireTimer(s.e.q, cap, i))
    ensures Inv(id, LifeOf(s', id))
  {
    var e := s.e.q.timers[i];
    IdsWithout(s.e.q.timers, i);
    EnqueueGrows(s.e.q.(timers := Without(s.e.q.timers, i)), cap, e.id, e.priority);
    IdlesKeeps(id, LifeOf(s, id), LifeOf(s', id));
  }

  lemma InWithout(ids: seq<Id>, i: nat, id: Id)
    requires i < |ids| && id in ids && id != ids[i]
    ensures id in Without(ids, i)
  {
    var k :| 0 <= k < |ids| && ids[k] == id;
    assert Without(ids, i)[if k < i then k else k - 1] == id;
  }

  lemma CallbackKeeps(s: Sys, s': Sys, cap: nat, i: nat, id: Id)
    requires Inv(id, LifeOf(s, id)) && Grows(s.h, s'.h) && i < |s.e.callbacks|
    requires s'.e == s.e.(q := CallbackEnqueue(s.e.q, cap, s.e.callbacks[i]), callbacks := Without(s.e.callbacks, i))
    ensures Inv(id, LifeOf(s', id))
  {
    var due := s.e.callbacks[i];
    EnqueueGrows(s.e.q, cap, due, if due in s.e.q.store.tasks then s.e.q.store.tasks[due].cfg.priority else 0);
    if id in s.e.callbacks && id != due {
      InWithout(s.e.callbacks, i, id);
    }
    PassesKeeps(s, s', id);
  }

  lemma RetryTaskKeeps(s: Sys, s': Sys, cap: nat, t: Task, now: u64, id: Id)
    requires Inv(id, LifeOf(s, id)) && Grows(s.h, s'.h)
    requires s'.e == s.e.(q := RetryOne(s.e.q, cap, t, now), retry := s'.e.retry)
    requires t in s.e.retry.todo && ListedBy(s'.e, id) <= ListedBy(s.e, id)
    ensures Inv(id, LifeOf(s', id))
  {
    if IsRetryDue(t, now) && |s.e.q.pending| < cap && id == t.id && id in s.e.q.store.tasks {
      RetryOwn(s, s', cap, t, now);
    } else {
      RetryPasses(s.e.q, cap, t, now, id);
      PassesKeeps(s, s', id);
    }
  }

  lemma RetryPasses(q: QueueState, cap: nat, t: Task, now: u64, id: Id)
    requires IsRetryDue(t, now) && |q.pending| < cap ==> id != t.id || id !in q.store.tasks
    ensures QueuePasses(q, RetryOne(q, cap, t, now), id)
  {
    EnqueueGrows(q, cap, t.id, t.cfg.priority);
  }

  lemma RetryRetimes(s: Sys, s': Sys, cap: nat, t: Task, now: u64)
    requires Grows(s.h, s'.h) && ListedBy(s'.e, t.id) <= ListedBy(s.e, t.id)
    requires IsRetryDue(t, now) && |s.e.q.pending| < cap && t.id in s.e.q.store.tasks
    requires s'.e.q == RetryOne(s.e.q, cap, t, now) && s'.e == s.e.(q := s'.e.q, retry := s'.e.retry)
    ensures Retimes(LifeOf(s, t.id), LifeOf(s', t.id)) && LifeOf(s', t.id).queued
    ensures LifeOf(s', t.id).row.value.nextFire.None?
  {
    EnqueueGrows(s.e.q, cap, t.id, t.cfg.priority);
  }

  lemma RetryOwn(s: Sys, s': Sys, cap: nat, t: Task, now: u64)
    requires Inv(t.id, LifeOf(s, t.id)) && Grows(s.h, s'.h) && t in LifeOf(s, t.id).listed
    requires IsRetryDue(t, now) && |s.e.q.pending| < cap && t.id in s.e.q.store.tasks
    requires s'.e.q == RetryOne(s.e.q, cap, t, now) && s'.e == s.e.(q := s'.e.q, retry := s'.e.retry)
    requires ListedBy(s'.e, t.id) <= ListedBy(s.e, t.id)
    ensures Inv(t.id, LifeOf(s', t.id))
  {
    RetryRetimes(s, s', cap, t, now);
    ClearedIsKept(LifeOf(s, t.id), LifeOf(s', t.id), t);
    RetimesKeeps(t.id, LifeOf(s, t.id), LifeOf(s', t.id));
  }

  /** The retry scan clears the fire time of no cron task. */
  lemma ClearedIsKept(l: Life, l': Life, t: Task)
    requires SameConfig(l) && Kept(l) && t in l.listed && t.cfg.cron.None?
    requires Retimes(l, l') && l'.row.value.nextFire.None? && l'.queued
    ensures Kept(l')
  {
  }

  lemma WatchTale(s: StoreState, t: Task, now: u64, factor: u64, id: Id)
    ensures SameTale(s, Watchdogs.WatchTask(s, t, now, factor), id)
    ensures id != t.id ==> Row(Watchdogs.WatchTask(s, t, now, factor), id) == Row(s, id)
    ensures id == t.id && id in s.tasks ==>
              || Row(Watchdogs.WatchTask(s, t, now, factor), id) == Row(s, id)
              || (s.tasks[id].state.Running? && Row(Watchdogs.WatchTask(s, t, now, factor), id)
                    == Some(TaskWithState(s.tasks[id], Interrupted, None, Some(now))))
  {
    SilentEvent(s.events, t.id, HungDetected, now, id);
  }

  lemma WatchEdits(s: Sys, s': Sys, t: Task, now: u64, factor: u64)
    requires Inv(t.id, LifeOf(s, t.id)) && Grows(s.h, s'.h) && t.id in s.e.q.store.tasks
    requires s'.e == WithStore(s.e, Watchdogs.WatchTask(s.e.q.store, t, now, factor)).(dog := s'.e.dog)
    ensures Edits(LifeOf(s, t.id), LifeOf(s', t.id))
    ensures LifeOf(s', t.id).halt == LifeOf(s, t.id).halt && LifeOf(s', t.id).overruled == LifeOf(s, t.id).overruled
    ensures LifeOf(s', t.id).row == LifeOf(s, t.id).row
         || LifeOf(s', t.id).row == Some(TaskWithState(s.e.q.store.tasks[t.id], Interrupted, None, Some(now)))
    ensures StaysHeld(LifeOf(s, t.id), LifeOf(s', t.id))
  {
    WatchTale(s.e.q.store, t, now, factor, t.id);
  }

  lemma DogTaskKeeps(s: Sys, s': Sys, t: Task, now: u64, factor: u64, id: Id)
    requires Inv(id, LifeOf(s, id)) && Grows(s.h, s'.h)
    requires s'.e == WithStore(s.e, Watchdogs.WatchTask(s.e.q.store, t, now, factor)).(dog := s'.e.dog)
    ensures Inv(id, LifeOf(s', id))
  {
    if id == t.id && id in s.e.q.store.tasks {
      WatchEdits(s, s', t, now, factor);
      InterruptKeeps(id, LifeOf(s, id), LifeOf(s', id), now);
    } else {
      WatchTale(s.e.q.store, t, now, factor, id);
      PassesKeeps(s, s', id);
    }
  }

  // ----- the dispatch prologue -----

  /** A fire time that became `u64::MAX` is remembered. */
  predicate NewMaxIsParked(s: Sys, s': Sys, id: Id) {
    var row, row' := Row(s.e.q.store, id), Row(s'.e.q.store, id);
    row.Some? && row'.Some? && row.value.nextFire != Some(U64_MAX) && row'.value.nextFire == Some(U64_MAX) ==>
      id in s'.h.parked
  }

  lemma TimerOnly(q: QueueState, t: Task, id: Id)
    ensures QueuePasses(q, AddTimer(q, t), id)
    ensures Queued(AddTimer(q, t), t.id)
  {
    TimerAdds(q, t);
  }

  /** A state change appends no event and inserts nothing. */
  lemma StateTale(s: StoreState, id': Id, state: TaskState, now: u64, id: Id)
    ensures var s' := UpdateState(s, id', state, None, Some(now));
            s'.inserted == s.inserted && s'.events == s.events && (id != id' ==> Row(s', id) == Row(s, id))
  {
  }

  lemma ExpireTale(q: QueueState, t: Task, now: u64, id: Id)
    ensures SameTale(q.store, ExpireNow(q, t, now).store, id)
    ensures id != t.id ==> Row(ExpireNow(q, t, now).store, id) == Row(q.store, id)
  {
    StateTale(q.store, t.id, Expired, now, id);
    SilentEvent(UpdateState(q.store, t.id, Expired, None, Some(now)).events, t.id, ExpiredEvent, now, id);
  }

  /** Only the store differs, and nothing of the id in it. */
  lemma StorePasses(q: QueueState, q': QueueState, id: Id)
    requires q' == q.(store := q'.store) && SameTale(q.store, q'.store, id) && Row(q'.store, id) == Row(q.store, id)
    ensures QueuePasses(q, q', id)
  {
  }

  lemma ExpirePasses(q: QueueState, t: Task, now: u64, id: Id)
    requires id != t.id
    ensures QueuePasses(q, ExpireNow(q, t, now), id)
  {
    ExpireTale(q, t, now, id);
    StorePasses(q, ExpireNow(q, t, now), id);
  }

  lemma HoldForOverlapTale(q: QueueState, t: Task, now: u64, id: Id)
    ensures QueuePasses(q, HoldForOverlap(q, t, now), id)
    ensures Queued(HoldForOverlap(q, t, now), t.id)
  {
    SilentEvent(q.store.events, t.id, MaxInstancesReached, now, id);
    TimerOnly(q.(store := RecordEvent(q.store, t.id, MaxInstancesReached, now)), t, id);
  }

  lemma HoldForRateTale(q: QueueState, t: Task, now: u64, id: Id)
    ensures SameTale(q.store, HoldForRate(q, t, now).store, id)
    ensures Queued(HoldForRate(q, t, now), t.id)
    ensures id != t.id ==> QueuePasses(q, HoldForRate(q, t, now), id)
  {
    SilentEvent(q.store.events, t.id, RateLimited, now, id);
    TimerAdds(q, t);
  }

  lemma StartTale(q: QueueState, t: Task, now: u64, id: Id)
    ensures id != t.id ==> QueuePasses(q, StartTask(q, t, now), id)
    ensures Made(StartTask(q, t, now).store.inserted, id) == Made(q.store.inserted, id)
    ensures CountEvents(StartTask(q, t, now).store.events, id, Succeeded) == CountEvents(q.store.events, id, Succeeded)
    ensures CountEvents(StartTask(q, t, now).store.events, id, Started)
         == CountEvents(q.store.events, id, Started) + (if id == t.id then 1 else 0)
  {
    CountAppend(q.store.events, Event(t.id, Started, now), id, Started);
    CountAppend(q.store.events, Event(t.id, Started, now), id, Succeeded);
  }

  function Limited(q: QueueState, t: Task, now: u64): QueueState {
    q.(buckets := RateLimiting.CheckAndRecord(q.buckets, t.id, t.cfg.rateCount, t.cfg.rateWindow, now).0)
  }

  /** The six ways `Admit` treats the drained task itself. */
  lemma AdmitOwn(q: QueueState, t: Task, now: u64)
    ensures var q' := Admit(q, t, now);
            if Cron.IsExpired(t, now) then q' == ExpireNow(q, t, now)
            else
            || q' == AddTimer(q, t)
            || (q' == HoldForRate(Limited(q, t, now), t, now) && t.cfg.rateCount > 0)
            || q' == HoldForOverlap(Limited(q, t, now), t, now)
            || (q' == StartTask(Limited(q, t, now), t, now) && Overlap.MayFire(q.running, q.store, t))
  {
  }

  lemma AdmitOther(q: QueueState, t: Task, now: u64, id: Id)
    requires id != t.id
    ensures QueuePasses(q, Admit(q, t, now), id)
  {
    AdmitOwn(q, t, now);
    var q', q1 := Admit(q, t, now), Limited(q, t, now);
    if Cron.IsExpired(t, now) {
      ExpirePasses(q, t, now, id);
    } else if q' == AddTimer(q, t) {
      TimerOnly(q, t, id);
    } else if q' == HoldForRate(q1, t, now) {
      HoldForRateTale(q1, t, now, id);
    } else if q' == HoldForOverlap(q1, t, now) {
      HoldForOverlapTale(q1, t, now, id);
    } else {
      StartTale(q1, t, now, id);
    }
  }

  /** `s` before the drain; its queue after it is `q1`. */
  predicate Drained(q: QueueState, q1: QueueState, id: Id) {
    && q1 == q.(pending := q1.pending)
    && (forall other :: other in Ids(q.pending) && other != id ==> other in Ids(q1.pending))
  }

  lemma DrainOther(s: Sys, s': Sys, q1: QueueState, t: Task, now: u64, id: Id)
    requires Inv(id, LifeOf(s, id)) && Grows(s.h, s'.h)
    requires Drained(s.e.q, q1, t.id) && id != t.id
    requires s'.e == s.e.(q := Admit(q1, t, now))
    ensures Inv(id, LifeOf(s', id))
  {
    AdmitOther(q1, t, now, id);
    DrainPasses(s, s', q1, t.id, id);
    PassesKeeps(s, s', id);
  }

  /** The drain of another id, and what follows it, pass this one by. */
  lemma DrainPasses(s: Sys, s': Sys, q1: QueueState, id': Id, id: Id)
    requires Drained(s.e.q, q1, id') && id != id' && QueuePasses(q1, s'.e.q, id)
    requires s'.e == s.e.(q := s'.e.q)
    ensures Passes(s, s', id)
  {
  }

  lemma DrainIdles(s: Sys, s': Sys, q1: QueueState, id': Id, id: Id)
    requires Grows(s.h, s'.h) && Drained(s.e.q, q1, id') && s'.e == s.e.(q := q1)
    requires id' !in s.e.q.store.tasks || s.e.q.store.tasks[id'].state.IsTerminal()
    ensures Idles(LifeOf(s, id), LifeOf(s', id))
  {
  }

  lemma DrainNothing(s: Sys, s': Sys, q1: QueueState, id': Id, id: Id)
    requires Inv(id, LifeOf(s, id)) && Grows(s.h, s'.h)
    requires Drained(s.e.q, q1, id')
    requires id' !in s.e.q.store.tasks || s.e.q.store.tasks[id'].state.IsTerminal()
    requires s'.e == s.e.(q := q1)
    ensures Inv(id, LifeOf(s', id))
  {
    DrainIdles(s, s', q1, id', id);
    IdlesKeeps(id, LifeOf(s, id), LifeOf(s', id));
  }

  lemma ExpireEdits(s: Sys, s': Sys, q1: QueueState, t: Task, now: u64)
    requires Grows(s.h, s'.h) && q1 == s.e.q.(pending := q1.pending)
    requires Row(s.e.q.store, t.id) == Some(t) && s'.e == s.e.(q := ExpireNow(q1, t, now))
    ensures Edits(LifeOf(s, t.id), LifeOf(s', t.id))
    ensures LifeOf(s', t.id).row == Some(TaskWithState(t, Expired, None, Some(now)))
    ensures LifeOf(s', t.id).halt == LifeOf(s, t.id).halt && LifeOf(s', t.id).overruled == LifeOf(s, t.id).overruled
  {
    ExpireTale(q1, t, now, t.id);
  }

  lemma DrainExpires(s: Sys, s': Sys, q1: QueueState, t: Task, now: u64)
    requires Inv(t.id, LifeOf(s, t.id)) && Grows(s.h, s'.h)
    requires Drained(s.e.q, q1, t.id) && Row(s.e.q.store, t.id) == Some(t) && t.state.Pending?
    requires s'.e == s.e.(q := ExpireNow(q1, t, now))
    ensures Inv(t.id, LifeOf(s', t.id))
  {
    ExpireEdits(s, s', q1, t, now);
    ExpiresKeeps(t.id, LifeOf(s, t.id), LifeOf(s', t.id), now);
  }

  lemma DrainHolds(s: Sys, s': Sys, q1: QueueState, q2: QueueState, t: Task, now: u64)
    requires Inv(t.id, LifeOf(s, t.id)) && Grows(s.h, s'.h)
    requires q1 == s.e.q.(pending := q1.pending) && q2 == q1.(buckets := q2.buckets)
    requires s'.e.q == AddTimer(q2, t) || s'.e.q == HoldForOverlap(q2, t, now)
    requires s'.e == s.e.(q := s'.e.q)
    ensures Inv(t.id, LifeOf(s', t.id))
  {
    if s'.e.q == AddTimer(q2, t) {
      TimerOnly(q2, t, t.id);
    } else {
      HoldForOverlapTale(q2, t, now, t.id);
    }
    HeldAgain(s.e.q, q2, s'.e.q, t.id);
    PassesKeeps(s, s', t.id);
  }

  /** Whatever the drain took, the id is queued again. */
  lemma HeldAgain(q: QueueState, q2: QueueState, q': QueueState, id: Id)
    requires q2 == q.(pending := q2.pending, buckets := q2.buckets)
    requires QueuePasses(q2, q', id) && Queued(q', id)
    ensures QueuePasses(q, q', id)
  {
  }

  lemma RateHoldRow(q: QueueState, t: Task, now: u64)
    requires Row(q.store, t.id) == Some(t)
    ensures Row(HoldForRate(q, t, now).store, t.id)
         == Some(if IsPeriodic(t.cfg) then t.(nextFire := Some(WrappingAdd(now, t.cfg.rateWindow))) else t)
  {
  }

  lemma RateHoldRetimes(s: Sys, s': Sys, q1: QueueState, q2: QueueState, t: Task, now: u64)
    requires Grows(s.h, s'.h)
    requires q1 == s.e.q.(pending := q1.pending) && Row(s.e.q.store, t.id) == Some(t)
    requires q2 == q1.(buckets := q2.buckets)
    requires s'.e == s.e.(q := HoldForRate(q2, t, now))
    ensures Retimes(LifeOf(s, t.id), LifeOf(s', t.id)) && LifeOf(s', t.id).queued
    ensures LifeOf(s', t.id).row.value.nextFire == t.nextFire
         || (LifeOf(s', t.id).row.value.nextFire.Some? && IsPeriodic(t.cfg))
  {
    HoldForRateTale(q2, t, now, t.id);
    RateHoldRow(q2, t, now);
  }

  lemma DrainRateHold(s: Sys, s': Sys, q1: QueueState, q2: QueueState, t: Task, now: u64)
    requires Inv(t.id, LifeOf(s, t.id)) && Grows(s.h, s'.h)
    requires q1 == s.e.q.(pending := q1.pending) && Row(s.e.q.store, t.id) == Some(t)
    requires q2 == q1.(buckets := q2.buckets)
    requires s'.e == s.e.(q := HoldForRate(q2, t, now)) && t.cfg.rateCount > 0
    requires NewMaxIsParked(s, s', t.id)
    ensures Inv(t.id, LifeOf(s', t.id))
  {
    RateHoldRetimes(s, s', q1, q2, t, now);
    HeldIsKept(LifeOf(s, t.id), LifeOf(s', t.id));
    RetimesKeeps(t.id, LifeOf(s, t.id), LifeOf(s', t.id));
  }

  /** A task held again is kept if its fire time is unchanged or set anew. */
  lemma HeldIsKept(l: Life, l': Life)
    requires Kept(l) && SameConfig(l) && Retimes(l, l') && l'.queued
    requires l'.row.value.nextFire == l.row.value.nextFire
             || (l'.row.value.nextFire.Some? && IsPeriodic(l.row.value.cfg) && l.row.value.cfg.rateCount > 0)
    requires l.row.value.nextFire != Some(U64_MAX) && l'.row.value.nextFire == Some(U64_MAX) ==> l'.parked
    ensures Kept(l')
  {
  }

  lemma DrainStarts(s: Sys, s': Sys, q1: QueueState, q2: QueueState, t: Task, now: u64)
    requires Inv(t.id, LifeOf(s, t.id)) && Grows(s.h, s'.h)
    requires Drained(s.e.q, q1, t.id) && Row(s.e.q.store, t.id) == Some(t) && !t.state.IsTerminal()
    requires q2 == q1.(buckets := q2.buckets) && Overlap.MayFire(q1.running, q1.store, t)
    requires s'.e == s.e.(q := StartTask(q2, t, now))
    ensures Inv(t.id, LifeOf(s', t.id))
  {
    StartTale(q2, t, now, t.id);
    StartsKeeps(t.id, LifeOf(s, t.id), LifeOf(s', t.id));
  }

  lemma DrainOwn(s: Sys, s': Sys, q1: QueueState, t: Task, now: u64)
    requires Inv(t.id, LifeOf(s, t.id)) && Grows(s.h, s'.h)
    requires Drained(s.e.q, q1, t.id) && Row(s.e.q.store, t.id) == Some(t) && !t.state.IsTerminal()
    requires s'.e == s.e.(q := Admit(q1, t, now))
    requires NewMaxIsParked(s, s', t.id)
    ensures Inv(t.id, LifeOf(s', t.id))
  {
    AdmitOwn(q1, t, now);
    var q2 := Limited(q1, t, now);
    if Cron.IsExpired(t, now) {
      DrainExpires(s, s', q1, t, now);
    } else if s'.e.q == AddTimer(q1, t) {
      DrainHolds(s, s', q1, q1, t, now);
    } else if s'.e.q == HoldForRate(q2, t, now) && t.cfg.rateCount > 0 {
      DrainRateHold(s, s', q1, q2, t, now);
    } else if s'.e.q == HoldForOverlap(q2, t, now) {
      DrainHolds(s, s', q1, q2, t, now);
    } else {
      DrainStarts(s, s', q1, q2, t, now);
    }
  }

  lemma PrologueKeeps(s: Sys, s': Sys, now: u64, id: Id)
    requires AllWell(s) && Grows(s.h, s'.h)
    requires s'.e == s.e.(q := Prologue(s.e.q, now))
    requires NewMaxIsParked(s, s', id)
    ensures Inv(id, LifeOf(s', id))
  {
    var q := s.e.q;
    assert Well(s, id);
    if q.pending == [] {
      PassesKeeps(s, s', id);
    } else {
      IdsCons(q.pending);
      var id' := q.pending[0].id;
      var q1 := q.(pending := q.pending[1..]);
      if id' !in q.store.tasks || q.store.tasks[id'].state.IsTerminal() {
        DrainNothing(s, s', q1, id', id);
      } else {
        assert Well(s, id');
        var t := q.store.tasks[id'];
        if id == id' {
          DrainOwn(s, s', q1, t, now);
        } else {
          DrainOther(s, s', q1, t, now, id);
        }
      }
    }
  }

  // ----- the cron scan -----

  lemma ListKeeps(s: Sys, s': Sys, list: seq<Task>, now: u64, id: Id)
    requires Inv(id, LifeOf(s, id)) && Grows(s.h, s'.h)
    requires IsActiveList(s.e.q.store, list)
    requires s'.e == s.e.(cron := Scan(list, now)) || s'.e == s.e.(retry := Scan(list, now))
    ensures Inv(id, LifeOf(s', id))
  {
    var mid := s.(e := s'.e);
    ListedIsRow(s.e.q.store, list, id);
    assert ListedBy(s'.e, id) <= ListedBy(s.e, id) + Listed(list, id);
    ListsKeeps(id, LifeOf(s, id), LifeOf(mid, id));
    PassesKeeps(mid, s', id);
  }

  lemma ListedIsRow(s: StoreState, list: seq<Task>, id: Id)
    requires IsActiveList(s, list)
    ensures Listed(list, id) == {}
         || (id in s.tasks && !s.tasks[id].state.IsTerminal() && Listed(list, id) == {s.tasks[id]})
  {
    forall t | t in Listed(list, id)
      ensures Row(s, id) == Some(t) && !t.state.IsTerminal()
    {
      var k :| 0 <= k < |list| && list[k] == t;
    }
    if Listed(list, id) != {} {
      assert Listed(list, id) == {s.tasks[id]};
    }
  }

  lemma EndKeeps(s: Sys, s': Sys, id: Id)
    requires Inv(id, LifeOf(s, id)) && Grows(s.h, s'.h)
    requires s'.e == s.e.(callbacks := s.e.callbacks + s.e.due, due := [], cron := IDLE)
    ensures Inv(id, LifeOf(s', id))
  {
    PassesKeeps(s, s', id);
  }

  lemma DogBeginKeeps(s: Sys, s': Sys, list: seq<Task>, now: u64, id: Id)
    requires Inv(id, LifeOf(s, id)) && Grows(s.h, s'.h)
    requires s'.e == s.e.(dog := Scan(list, now))
    ensures Inv(id, LifeOf(s', id))
  {
    PassesKeeps(s, s', id);
  }

  lemma ScanTale(s: StoreState, id': Id, effect: Cron.ScanEffect, now: u64, id: Id)
    requires effect.event.Some? ==> IsSilent(effect.event.value)
    ensures SameTale(s, Cron.ApplyEffect(s, id', effect, now), id)
  {
    if effect.event.Some? {
      SilentEvent(s.events, id', effect.event.value, now, id);
    }
  }

  lemma ScanEffects(o: Cron.Oracle, t: Task, now: u64, draw: nat)
    ensures var e := Cron.ScanTask(o, t, now, draw);
            && (e.event.Some? ==> IsSilent(e.event.value))
            && (e.setState.Some? ==> e.setState.value.IsTerminal())
            && (IsPureInterval(t.cfg) ==> e.setNextFire.Some? || !e.due)
  {
    Cron.CronTriggerIffExprs(t.cfg);
  }

  lemma CronRow(p: Params, s: Sys, s': Sys, draw: nat, id: Id)
    requires s.e.cron.todo != [] && s'.e == CronStep(p, s.e, draw)
    requires id == s.e.cron.todo[0].id && id in s.e.q.store.tasks
    ensures SameTale(s.e.q.store, s'.e.q.store, id)
    ensures var effect := Cron.ScanTask(p.oracle, s.e.cron.todo[0], s.e.cron.now, draw);
            && Row(s'.e.q.store, id) == Some(Cron.RowAfter(s.e.q.store.tasks[id], effect, s.e.cron.now))
            && s'.e.q == s.e.q.(store := s'.e.q.store)
            && s'.e.callbacks == s.e.callbacks
            && s'.e.due == (if effect.due then s.e.due + [id] else s.e.due)
            && s'.e.cron.todo == s.e.cron.todo[1..]
  {
    var t, now := s.e.cron.todo[0], s.e.cron.now;
    var effect := Cron.ScanTask(p.oracle, t, now, draw);
    ScanEffects(p.oracle, t, now, draw);
    ScanTale(s.e.q.store, id, effect, now, id);
    Cron.EffectOnRows(s.e.q.store, id, effect, now);
  }

  /** The history after a cron scan's visit to its first listed task. */
  ghost predicate ScanNoted(p: Params, s: Sys, h': History, draw: nat)
    requires s.e.cron.todo != []
  {
    var t := s.e.cron.todo[0];
    && s.h.touched <= h'.touched && s.h.requeued <= h'.requeued
    && s.h.parked <= h'.parked && s.h.forged <= h'.forged
    && h'.fired == s.h.fired + Fires(p, s.e, CronTask(draw))
    && h'.skipped == s.h.skipped + Skips(p, s.e, CronTask(draw))
    && h'.consults == s.h.consults && h'.answered == s.h.answered
    && h'.halted == s.h.halted && h'.ended == s.h.ended
    && h'.overruled == (if t.id in s.e.q.store.tasks && Cron.ScanTask(p.oracle, t, s.e.cron.now, draw).setState.Some?
                        then s.h.overruled + {t.id} else s.h.overruled)
  }

  lemma CronEdits(p: Params, s: Sys, s': Sys, draw: nat, id: Id)
    requires Inv(id, LifeOf(s, id))
    requires s.e.cron.todo != [] && s'.e == CronStep(p, s.e, draw) && ScanNoted(p, s, s'.h, draw)
    requires id == s.e.cron.todo[0].id && id in s.e.q.store.tasks
    ensures Edits(LifeOf(s, id), LifeOf(s', id))
  {
    CronRow(p, s, s', draw, id);
    ScanEffects(p.oracle, s.e.cron.todo[0], s.e.cron.now, draw);
  }

  /** A visited task is kept: its fire time moves only to a known time, or to the
      sentinel of a run-at task that is due. */
  lemma VisitedIsKept(o: Cron.Oracle, l: Life, l': Life, t: Task, now: u64, draw: nat)
    requires SameConfig(l) && Kept(l) && t in l.listed && Edits(l, l') && (Held(l) ==> Held(l'))
    requires var e := Cron.ScanTask(o, t, now, draw);
             && l'.row.value == Cron.RowAfter(l.row.value, e, now) && (e.due ==> l'.due)
             && (t.cfg.runAt.Some? && e.setNextFire.Some? ==> l'.fired && (e.due || l'.skipped))
    requires l.row.value.cfg.runAt.Some?
             || l.row.value.nextFire == Some(U64_MAX) || l'.row.value.nextFire != Some(U64_MAX) || l'.parked
    ensures Kept(l')
  {
    ScanEffects(o, t, now, draw);
  }

  lemma CronOwn(p: Params, s: Sys, s': Sys, draw: nat, id: Id)
    requires Inv(id, LifeOf(s, id))
    requires s.e.cron.todo != [] && s'.e == CronStep(p, s.e, draw) && ScanNoted(p, s, s'.h, draw)
    requires id == s.e.cron.todo[0].id && id in s.e.q.store.tasks
    requires s.e.q.store.tasks[id].cfg.runAt.Some? || NewMaxIsParked(s, s', id)
    requires Edits(LifeOf(s, id), LifeOf(s', id))
    ensures Kept(LifeOf(s', id))
  {
    CronRow(p, s, s', draw, id);
    var t := s.e.cron.todo[0];
    assert t in LifeOf(s, id).listed;
    VisitedIsKept(p.oracle, LifeOf(s, id), LifeOf(s', id), t, s.e.cron.now, draw);
  }

  /** What a cron scan's visit makes of a life, as far as cancels go. */
  predicate IsVisited(o: Cron.Oracle, l: Life, l': Life, t: Task, now: u64, draw: nat) {
    && t in l.listed && l.row.Some? && l'.made == l.made
    && (l.touched ==> l'.touched) && (l.requeued ==> l'.requeued)
    && l'.flights == l.flights && l'.starts == l.starts && l'.consults == l.consults && l'.halt == l.halt
    && var e := Cron.ScanTask(o, t, now, draw);
       && l'.row == Some(Cron.RowAfter(l.row.value, e, now))
       && (l'.overruled <==> l.overruled || e.setState.Some?)
  }

  /** A stale listing decides the state only through an expiry or an end date:
      its copy is below its maximum for good. */
  lemma VisitedKeepsCancel(o: Cron.Oracle, l: Life, l': Life, t: Task, now: u64, draw: nat)
    requires SameConfig(l) && QuietLife(l) && CancelKept(l) && IsVisited(o, l, l', t, now, draw)
    ensures CancelKept(l')
  {
    ScanEffects(o, t, now, draw);
    if Cron.ScanTask(o, t, now, draw).setState.Some? && !Cron.ReachedMax(t) {
      DecidesStateOnlyByDate(o, t, now, draw);
    }
  }

  lemma CronKeepsCancel(p: Params, s: Sys, s': Sys, draw: nat, id: Id)
    requires Inv(id, LifeOf(s, id))
    requires s.e.cron.todo != [] && s'.e == CronStep(p, s.e, draw) && ScanNoted(p, s, s'.h, draw)
    requires id == s.e.cron.todo[0].id && id in s.e.q.store.tasks
    ensures CancelKept(LifeOf(s', id))
  {
    CronRow(p, s, s', draw, id);
    VisitedKeepsCancel(p.oracle, LifeOf(s, id), LifeOf(s', id), s.e.cron.todo[0], s.e.cron.now, draw);
  }

  lemma DecidesStateOnlyByDate(o: Cron.Oracle, t: Task, now: u64, draw: nat)
    requires Cron.ScanTask(o, t, now, draw).setState.Some? && !Cron.ReachedMax(t)
    ensures CanBeOverruled(t.cfg)
    ensures Cron.ScanTask(o, t, now, draw).setState.value in {Success, Expired}
  {
  }

  lemma CronTaskKeeps(p: Params, s: Sys, s': Sys, draw: nat, id: Id)
    requires Inv(id, LifeOf(s, id))
    requires s.e.cron.todo != [] && s'.e == CronStep(p, s.e, draw) && ScanNoted(p, s, s'.h, draw)
    requires (id in s.e.q.store.tasks && s.e.q.store.tasks[id].cfg.runAt.Some?) || NewMaxIsParked(s, s', id)
    ensures Inv(id, LifeOf(s', id))
  {
    var t, now := s.e.cron.todo[0], s.e.cron.now;
    if id == t.id && id in s.e.q.store.tasks {
      CronEdits(p, s, s', draw, id);
      CronOwn(p, s, s', draw, id);
      CronKeepsCancel(p, s, s', draw, id);
      EditsKeeps(id, LifeOf(s, id), LifeOf(s', id));
    } else {
      CronOther(p, s, s', draw, id);
    }
  }

  lemma CronOther(p: Params, s: Sys, s': Sys, draw: nat, id: Id)
    requires Inv(id, LifeOf(s, id))
    requires s.e.cron.todo != [] && s'.e == CronStep(p, s.e, draw) && ScanNoted(p, s, s'.h, draw)
    requires id != s.e.cron.todo[0].id || id !in s.e.q.store.tasks
    ensures Inv(id, LifeOf(s', id))
  {
    var t, now := s.e.cron.todo[0], s.e.cron.now;
    var effect := Cron.ScanTask(p.oracle, t, now, draw);
    ScanEffects(p.oracle, t, now, draw);
    ScanTale(s.e.q.store, t.id, effect, now, id);
    Cron.EffectOnRows(s.e.q.store, t.id, effect, now);
    PassesKeeps(s, s', id);
  }

  // ----- completion -----

  /** The history after execution `f` of `id` ended. */
  ghost predicate Counted(h: History, h': History, id: Id, row: Option<Task>, f: Task, out: Outcome, now: u64) {
    && h.touched <= h'.touched && h.requeued <= h'.requeued && h.parked <= h'.parked
    && h.forged <= h'.forged && h.fired <= h'.fired && h.skipped <= h'.skipped
    && h'.consults == Bump(h.consults, id, Consults(row, f, out))
    && h'.answered == Bump(h.answered, id, Answers(out))
    && h'.halted == h.halted && h'.overruled == h.overruled - {id}
    && h'.ended == (if Ends(row, f, out, now) then h.ended + {id} else h.ended)
  }

  function Landed(q: QueueState, id: Id, k: nat, out: Outcome, now: u64): QueueState
    requires id in q.flights && k < |q.flights[id]|
  {
    EndFlight(q.(store := Settle(q.store, q.flights[id][k], out, now)), id, k)
  }

  lemma SettleTale(s: StoreState, f: Task, out: Outcome, now: u64, id: Id)
    ensures var s' := Settle(s, f, out, now);
            && Made(s'.inserted, id) == Made(s.inserted, id)
            && CountEvents(s'.events, id, Started) == CountEvents(s.events, id, Started)
            && CountEvents(s'.events, id, Succeeded) == CountEvents(s.events, id, Succeeded)
                 + (if id == f.id && SettleEvent(Row(s, id), f, out) == Some(Succeeded) then 1 else 0)
  {
    var event := SettleEvent(Row(s, f.id), f, out);
    if event.Some? {
      CountAppend(s.events, Event(f.id, event.value, now), id, Started);
      CountAppend(s.events, Event(f.id, event.value, now), id, Succeeded);
    }
  }

  lemma LandPasses(q: QueueState, id': Id, k: nat, out: Outcome, now: u64, id: Id)
    requires id' in q.flights && k < |q.flights[id']| && q.flights[id'][k].id == id' && id != id'
    ensures QueuePasses(q, Landed(q, id', k, out, now), id)
  {
    SettleTale(q.store, q.flights[id'][k], out, now, id);
  }

  lemma LandOther(s: Sys, s': Sys, id': Id, k: nat, out: Outcome, now: u64, id: Id)
    requires Inv(id, LifeOf(s, id)) && Inv(id', LifeOf(s, id')) && id != id'
    requires id' in s.e.q.flights && k < |s.e.q.flights[id']|
    requires s'.e == s.e.(q := Landed(s.e.q, id', k, out, now))
    requires Counted(s.h, s'.h, id', Row(s.e.q.store, id'), s.e.q.flights[id'][k], out, now)
    ensures Inv(id, LifeOf(s', id))
  {
    assert FlightsOf(s.e.q, id')[k].id == id';
    LandPasses(s.e.q, id', k, out, now, id);
    PassesKeeps(s, s', id);
  }

  lemma LandOwn(s: Sys, s': Sys, id: Id, k: nat, out: Outcome, now: u64)
    requires Inv(id, LifeOf(s, id))
    requires id in s.e.q.flights && k < |s.e.q.flights[id]|
    requires s'.e == s.e.(q := Landed(s.e.q, id, k, out, now))
    requires Counted(s.h, s'.h, id, Row(s.e.q.store, id), s.e.q.flights[id][k], out, now)
    requires RetriesAtMax(Row(s.e.q.store, id), s.e.q.flights[id][k], out, now) ==> id in s'.h.parked
    ensures Finishes(LifeOf(s, id), LifeOf(s', id), k, out, now)
    ensures Inv(id, LifeOf(s', id))
  {
    assert FlightsOf(s.e.q, id)[k].id == id;
    SettleTale(s.e.q.store, s.e.q.flights[id][k], out, now, id);
    FinishesKeeps(id, LifeOf(s, id), LifeOf(s', id), k, out, now);
  }

  // Notifying the chain and the chord.

  lemma NotifyChainKeeps(s: Sys, s': Sys, cap: nat, f: Task, final: TaskState, built: Option<Chord.Built>,
                         now: u64, id: Id)
    requires Inv(id, LifeOf(s, id)) && s'.h == s.h
    requires s'.e == s.e.(q := NotifyChain(s.e.q, cap, f, final, built, now))
    requires AtMax(built) <= s.h.parked
    ensures Inv(id, LifeOf(s', id))
  {
    if f.cfg.chainId.Some? && final.Success? {
      AdvanceKeeps(s, s', cap, f.cfg.chainId.value, built, now, id);
    } else {
      PassesKeeps(s, s', id);
    }
  }

  /** The task a chord builds carries no chain marker. */
  ghost predicate PutsCallback(s: StoreState, s': StoreState, b: Chord.Built, now: u64) {
    exists cfg: TaskConfig ::
      var t := NewTask(b.id, cfg, b.nextFire, now);
      cfg.chainId.None? && s'.tasks == s.tasks[t.id := t] && s'.inserted == s.inserted + [t]
  }

  ghost predicate AddsCallback(q: QueueState, q': QueueState, cap: nat, b: Chord.Built, now: u64) {
    exists cfg: TaskConfig ::
      cfg.chainId.None? && Adds(q, q', cap, NewTask(b.id, cfg, b.nextFire, now))
  }

  /** The chord is live and all its headers are in Success. */
  predicate AllIn(s: StoreState, chordId: Id) {
    && chordId in s.chords
    && s.chords[chordId].state != RecSuccess && s.chords[chordId].state != RecPartialFailed
    && s.chords[chordId].headerIds != []
    && var t := Chord.TallyAll(s, s.chords[chordId].headerIds);
       t.failed == 0 && t.succeeded == |s.chords[chordId].headerIds|
  }

  lemma RefreshLeavesRows(s: StoreState, chordId: Id, built: Option<Chord.Built>, now: u64)
    requires !AllIn(s, chordId) || built.None?
    ensures SameRows(s, Chord.Refresh(s, chordId, built, now).0)
    ensures Chord.Refresh(s, chordId, built, now).0.chains == s.chains
  {
  }

  lemma RefreshPutsCallback(s: StoreState, chordId: Id, b: Chord.Built, now: u64)
    requires AllIn(s, chordId)
    ensures var (s', r) := Chord.Refresh(s, chordId, Some(b), now);
            && s'.events == s.events && s'.chains == s.chains && PutsCallback(s, s', b, now)
            && r == Some(Chord.RefreshResult(RecSuccess, Some(b.id)))
  {
    var t := Chord.TallyAll(s, s.chords[chordId].headerIds);
    CallbackIsPut(s, chordId, Chord.CallbackConfig(s.chords[chordId], t.results), b, now);
  }

  lemma CallbackIsPut(s: StoreState, chordId: Id, cfg: TaskConfig, b: Chord.Built, now: u64)
    requires cfg.chainId.None?
    ensures var t := NewTask(b.id, cfg, b.nextFire, now);
            var s' := UpdateChordState(PutTask(s, t), chordId, RecSuccess, Some(b.id));
            PutsCallback(s, s', b, now) && s'.events == s.events && s'.chains == s.chains
  {
    var t := NewTask(b.id, cfg, b.nextFire, now);
    var s' := UpdateChordState(PutTask(s, t), chordId, RecSuccess, Some(b.id));
    assert s'.tasks == s.tasks[t.id := t] && s'.inserted == s.inserted + [t];
  }

  /** A refresh inserts the callback it just built, or leaves the rows alone. */
  lemma RefreshInserts(s: StoreState, chordId: Id, built: Option<Chord.Built>, now: u64)
    ensures var (s', r) := Chord.Refresh(s, chordId, built, now);
            && s'.events == s.events && s'.chains == s.chains
            && (|| (s'.tasks == s.tasks && s'.inserted == s.inserted)
                || (built.Some? && PutsCallback(s, s', built.value, now)
                    && r.Some? && r.value.callbackTaskId == Some(built.value.id)))
  {
    if AllIn(s, chordId) && built.Some? {
      RefreshPutsCallback(s, chordId, built.value, now);
    } else {
      RefreshLeavesRows(s, chordId, built, now);
    }
  }

  ghost predicate SameRows(s: StoreState, s': StoreState) {
    s'.tasks == s.tasks && s'.inserted == s.inserted && s'.events == s.events
  }

  lemma ChordAdds(q: QueueState, cap: nat, f: Task, built: Option<Chord.Built>, now: u64)
    ensures var q' := NotifyChord(q, cap, f, built, now);
            || (SameRows(q.store, q'.store) && QueueGrows(q, q'))
            || (built.Some? && AddsCallback(q, q', cap, built.value, now))
  {
    if f.cfg.chordId.Some? {
      var (s, r) := Chord.Refresh(q.store, f.cfg.chordId.value, built, now);
      RefreshInserts(q.store, f.cfg.chordId.value, built, now);
      if r.Some? && r.value.callbackTaskId.Some? && r.value.callbackTaskId.value in s.tasks {
        var cb := r.value.callbackTaskId.value;
        EnqueueGrows(q.(store := s), cap, cb, s.tasks[cb].cfg.priority);
      }
      if built.Some? && PutsCallback(q.store, s, built.value, now) {
        var cfg: TaskConfig :|
          var t := NewTask(built.value.id, cfg, built.value.nextFire, now);
          cfg.chainId.None? && s.tasks == q.store.tasks[t.id := t] && s.inserted == q.store.inserted + [t];
        assert Adds(q, NotifyChord(q, cap, f, built, now), cap,
                    NewTask(built.value.id, cfg, built.value.nextFire, now));
      }
    }
  }

  lemma NotifyChordKeeps(s: Sys, s': Sys, cap: nat, f: Task, built: Option<Chord.Built>, now: u64, id: Id)
    requires Inv(id, LifeOf(s, id)) && s'.h == s.h
    requires s'.e == s.e.(q := NotifyChord(s.e.q, cap, f, built, now))
    requires AtMax(built) <= s.h.parked
    ensures Inv(id, LifeOf(s', id))
  {
    ChordAdds(s.e.q, cap, f, built, now);
    if built.Some? && AddsCallback(s.e.q, s'.e.q, cap, built.value, now) {
      var b := built.value;
      var cfg: TaskConfig :| cfg.chainId.None? && Adds(s.e.q, s'.e.q, cap, NewTask(b.id, cfg, b.nextFire, now));
      AddsKeeps(s, s', cap, NewTask(b.id, cfg, b.nextFire, now), id);
    } else {
      PassesKeeps(s, s', id);
    }
  }

  /** Ending the flight first makes no difference to the notifications. */
  function Grounded(q: QueueState, from: QueueState): QueueState {
    q.(flights := from.flights, running := from.running)
  }

  lemma NotifyCommutes(q: QueueState, cap: nat, f: Task, final: TaskState, builds: Builds, now: u64, from: QueueState)
    ensures Notify(Grounded(q, from), cap, f, final, builds, now)
         == Grounded(Notify(q, cap, f, final, builds, now), from)
  {
    ChainCommutes(q, cap, f, final, builds.step, now, from);
    ChordCommutes(NotifyChain(q, cap, f, final, builds.step, now), cap, f, builds.callback, now, from);
  }

  lemma ChainCommutes(q: QueueState, cap: nat, f: Task, final: TaskState, built: Option<Chord.Built>, now: u64,
                      from: QueueState)
    ensures NotifyChain(Grounded(q, from), cap, f, final, built, now)
         == Grounded(NotifyChain(q, cap, f, final, built, now), from)
  {
  }

  lemma ChordCommutes(q: QueueState, cap: nat, f: Task, built: Option<Chord.Built>, now: u64, from: QueueState)
    ensures NotifyChord(Grounded(q, from), cap, f, built, now) == Grounded(NotifyChord(q, cap, f, built, now), from)
  {
  }

  /** A completion is: end the flight, then perhaps notify, then perhaps forget
      the rate-limit bucket. */
  function Notified(q: QueueState, id: Id, k: nat, cap: nat, out: Outcome, builds: Builds, now: u64): QueueState
    requires id in q.flights && k < |q.flights[id]|
  {
    var f := q.flights[id][k];
    var q1 := Landed(q, id, k, out, now);
    var final := FinalState(q1.store, f);
    if ExitOf(Row(q.store, f.id), out).NormalExit? && final.IsTerminal()
    then Notify(q1, cap, f, final, builds, now)
    else q1
  }

  lemma CompleteIsNotified(q: QueueState, id: Id, k: nat, cap: nat, out: Outcome, builds: Builds, now: u64)
    requires id in q.flights && k < |q.flights[id]|
    ensures var q' := Complete(q, cap, id, k, out, builds, now);
            q' == Notified(q, id, k, cap, out, builds, now).(buckets := q'.buckets)
  {
    var f := q.flights[id][k];
    var q0 := q.(store := Settle(q.store, f, out, now));
    var final := FinalState(q0.store, f);
    NotifyKeepsFlights(q0, cap, f, final, builds, now);
    NotifyCommutes(q0, cap, f, final, builds, now, Landed(q, id, k, out, now));
    assert Grounded(q0, Landed(q, id, k, out, now)) == Landed(q, id, k, out, now);
  }

  lemma LandKeeps(s: Sys, s': Sys, id': Id, k: nat, out: Outcome, now: u64, id: Id)
    requires AllWell(s)
    requires id' in s.e.q.flights && k < |s.e.q.flights[id']|
    requires s'.e == s.e.(q := Landed(s.e.q, id', k, out, now))
    requires Counted(s.h, s'.h, id', Row(s.e.q.store, id'), s.e.q.flights[id'][k], out, now)
    requires RetriesAtMax(Row(s.e.q.store, id'), s.e.q.flights[id'][k], out, now) ==> id' in s'.h.parked
    ensures Inv(id, LifeOf(s', id))
  {
    assert Well(s, id) && Well(s, id');
    if id == id' {
      LandOwn(s, s', id, k, out, now);
    } else {
      LandOther(s, s', id', k, out, now, id);
    }
  }

  lemma NotifyKeeps(s: Sys, s': Sys, cap: nat, f: Task, final: TaskState, builds: Builds, now: u64, id: Id)
    requires Inv(id, LifeOf(s, id)) && s'.h == s.h
    requires s'.e == s.e.(q := Notify(s.e.q, cap, f, final, builds, now))
    requires AtMax(builds.step) + AtMax(builds.callback) <= s.h.parked
    ensures Inv(id, LifeOf(s', id))
  {
    var mid := s.(e := s.e.(q := NotifyChain(s.e.q, cap, f, final, builds.step, now)));
    NotifyChainKeeps(s, mid, cap, f, final, builds.step, now, id);
    NotifyChordKeeps(mid, s', cap, f, builds.callback, now, id);
  }

  lemma CompletionKeeps(s: Sys, s': Sys, id': Id, k: nat, cap: nat, out: Outcome, builds: Builds, now: u64, id: Id)
    requires AllWell(s)
    requires id' in s.e.q.flights && k < |s.e.q.flights[id']|
    requires s'.e == s.e.(q := Complete(s.e.q, cap, id', k, out, builds, now))
    requires Counted(s.h, s'.h, id', Row(s.e.q.store, id'), s.e.q.flights[id'][k], out, now)
    requires RetriesAtMax(Row(s.e.q.store, id'), s.e.q.flights[id'][k], out, now) ==> id' in s'.h.parked
    requires AtMax(builds.step) + AtMax(builds.callback) <= s'.h.parked
    ensures Inv(id, LifeOf(s', id))
  {
    var f := s.e.q.flights[id'][k];
    var landed := Sys(s.e.(q := Landed(s.e.q, id', k, out, now)), s'.h);
    LandKeeps(s, landed, id', k, out, now, id);
    var notified := Sys(s.e.(q := Notified(s.e.q, id', k, cap, out, builds, now)), s'.h);
    var final := FinalState(landed.e.q.store, f);
    if ExitOf(Row(s.e.q.store, f.id), out).NormalExit? && final.IsTerminal() {
      NotifyKeeps(landed, notified, cap, f, final, builds, now, id);
    }
    CompleteIsNotified(s.e.q, id', k, cap, out, builds, now);
    BucketsDoNotMatter(notified, s', id);
  }

  lemma BucketsDoNotMatter(s: Sys, s': Sys, id: Id)
    requires s'.h == s.h && s'.e == s.e.(q := s.e.q.(buckets := s'.e.q.buckets))
    ensures LifeOf(s', id) == LifeOf(s, id)
  {
  }

  // ----- every step, every run -----

  lemma RememberCounts(p: Params, e: EngineState, a: Action, e': EngineState, h: History)
    requires a.Completion? && a.id in e.q.flights && a.k < |e.q.flights[a.id]|
    ensures Counted(h, Remember(p, e, a, e', h), a.id, Row(e.q.store, a.id), e.q.flights[a.id][a.k], a.out, a.now)
    ensures GivenMax(e, a) <= Remember(p, e, a, e', h).parked
  {
  }

  lemma RememberMax(p: Params, e: EngineState, a: Action, e': EngineState, h: History)
    ensures GivenMax(e, a) <= Remember(p, e, a, e', h).parked
    ensures Touches(e, a) <= Remember(p, e, a, e', h).touched
    ensures Requeues(e, a) <= Remember(p, e, a, e', h).requeued
    ensures Forges(a) <= Remember(p, e, a, e', h).forged
    ensures forall id :: BecameMax(e, a, e', id) ==> id in Remember(p, e, a, e', h).parked
  {
  }

  predicate IsInsertion(a: Action) {
    a.Dispatch? || a.NewChain? || a.NewHeader? || a.NewChord?
  }

  predicate IsRowRequest(a: Action) {
    a.Requeue? || a.Remove? || a.Modify? || a.SetPaused?
  }

  predicate IsTick(a: Action) {
    a.TimerFires? || a.CallbackEnqueues? || a.RetryTask? || a.DogTask?
  }

  lemma DispatchStepKeeps(p: Params, s: Sys, a: Action, id: Id)
    requires Well(s, id) && Enabled(p, s.e, a) && a.Dispatch?
    ensures Inv(id, LifeOf(Next(p, s, a), id))
  {
    var s' := Next(p, s, a);
    RememberGrows(p, s.e, a, s'.e, s.h);
    RememberMax(p, s.e, a, s'.e, s.h);
    DispatchKeeps(s, s', p.cap, a.b, a.cfg, a.now, id);
  }

  lemma ChainStepKeeps(p: Params, s: Sys, a: Action, id: Id)
    requires Well(s, id) && Enabled(p, s.e, a) && a.NewChain?
    ensures Inv(id, LifeOf(Next(p, s, a), id))
  {
    var s' := Next(p, s, a);
    RememberGrows(p, s.e, a, s'.e, s.h);
    RememberMax(p, s.e, a, s'.e, s.h);
    NewChainKeeps(s, s', p.cap, a.chainId, a.tasks, a.built, a.now, id);
  }

  lemma ChordStepKeeps(p: Params, s: Sys, a: Action, id: Id)
    requires Well(s, id) && Enabled(p, s.e, a) && (a.NewHeader? || a.NewChord?)
    ensures Inv(id, LifeOf(Next(p, s, a), id))
  {
    var s' := Next(p, s, a);
    RememberGrows(p, s.e, a, s'.e, s.h);
    RememberMax(p, s.e, a, s'.e, s.h);
    if a.NewHeader? {
      NewHeaderKeeps(s, s', p.cap, a.chordId, a.cfg, a.b, a.now, id);
    } else {
      OnlyStoreKeeps(s, s', id);
    }
  }

  lemma InsertionKeeps(p: Params, s: Sys, a: Action, id: Id)
    requires AllWell(s) && Enabled(p, s.e, a) && IsInsertion(a)
    ensures Inv(id, LifeOf(Next(p, s, a), id))
  {
    assert Well(s, id);
    if a.Dispatch? {
      DispatchStepKeeps(p, s, a, id);
    } else if a.NewChain? {
      ChainStepKeeps(p, s, a, id);
    } else {
      ChordStepKeeps(p, s, a, id);
    }
  }

  lemma RowRequestKeeps(p: Params, s: Sys, a: Action, id: Id)
    requires AllWell(s) && Enabled(p, s.e, a) && IsRowRequest(a)
    ensures Inv(id, LifeOf(Next(p, s, a), id))
  {
    var s' := Next(p, s, a);
    assert Well(s, id);
    RememberGrows(p, s.e, a, s'.e, s.h);
    RememberMax(p, s.e, a, s'.e, s.h);
    match a
    case Requeue(id', now) => RequeueKeeps(s, s', id', now, id);
    case Remove(id') => RemoveKeeps(s, s', id', id);
    case Modify(id', cfg, paused, next) => ModifyKeeps(s, s', id', cfg, paused, next, id);
    case SetPaused(id', paused) => PauseKeeps(s, s', id', paused, id);
  }

  lemma TickKeeps(p: Params, s: Sys, a: Action, id: Id)
    requires AllWell(s) && Enabled(p, s.e, a) && IsTick(a)
    ensures Inv(id, LifeOf(Next(p, s, a), id))
  {
    var s' := Next(p, s, a);
    assert Well(s, id);
    RememberGrows(p, s.e, a, s'.e, s.h);
    match a
    case TimerFires(i) => TimerKeeps(s, s', p.cap, i, id);
    case CallbackEnqueues(i) => CallbackKeeps(s, s', p.cap, i, id);
    case RetryTask => RetryTaskKeeps(s, s', p.cap, s.e.retry.todo[0], s.e.retry.now, id);
    case DogTask => DogTaskKeeps(s, s', s.e.dog.todo[0], s.e.dog.now, p.factor, id);
  }

  /** A scan begins or ends. */
  lemma EdgeKeeps(p: Params, s: Sys, a: Action, id: Id)
    requires AllWell(s) && Enabled(p, s.e, a)
    requires a.RetryBegin? || a.DogBegin? || a.CronBegin? || a.CronEnd?
    ensures Inv(id, LifeOf(Next(p, s, a), id))
  {
    var s' := Next(p, s, a);
    assert Well(s, id);
    RememberGrows(p, s.e, a, s'.e, s.h);
    if a.CronBegin? || a.RetryBegin? {
      ListKeeps(s, s', a.list, a.now, id);
    } else if a.CronEnd? {
      EndKeeps(s, s', id);
    } else {
      DogBeginKeeps(s, s', a.list, a.now, id);
    }
  }

  lemma CancelStepKeeps(p: Params, s: Sys, id': Id, now: u64, id: Id)
    requires AllWell(s) && Enabled(p, s.e, Cancel(id', now))
    ensures Inv(id, LifeOf(Next(p, s, Cancel(id', now)), id))
  {
    assert Well(s, id);
    CancelKeeps(s, Next(p, s, Cancel(id', now)), id', now, id);
  }

  lemma ProcessKeeps(p: Params, s: Sys, now: u64, id: Id)
    requires AllWell(s) && Enabled(p, s.e, ProcessOne(now))
    ensures Inv(id, LifeOf(Next(p, s, ProcessOne(now)), id))
  {
    var s' := Next(p, s, ProcessOne(now));
    RememberGrows(p, s.e, ProcessOne(now), s'.e, s.h);
    RememberMax(p, s.e, ProcessOne(now), s'.e, s.h);
    assert BecameMax(s.e, ProcessOne(now), s'.e, id) ==> id in s'.h.parked;
    PrologueKeeps(s, s', now, id);
  }

  lemma CronKeeps(p: Params, s: Sys, draw: nat, id: Id)
    requires AllWell(s) && Enabled(p, s.e, CronTask(draw))
    ensures Inv(id, LifeOf(Next(p, s, CronTask(draw)), id))
  {
    var s' := Next(p, s, CronTask(draw));
    assert Well(s, id);
    RememberMax(p, s.e, CronTask(draw), s'.e, s.h);
    var t, now := s.e.cron.todo[0], s.e.cron.now;
    Cron.EffectOnRows(s.e.q.store, t.id, Cron.ScanTask(p.oracle, t, now, draw), now);
    assert BecameMax(s.e, CronTask(draw), s'.e, id) ==> id in s'.h.parked;
    CronTaskKeeps(p, s, s', draw, id);
  }

  lemma CompletionStepKeeps(p: Params, s: Sys, a: Action, id: Id)
    requires AllWell(s) && Enabled(p, s.e, a) && a.Completion?
    ensures Inv(id, LifeOf(Next(p, s, a), id))
  {
    var s' := Next(p, s, a);
    RememberCounts(p, s.e, a, s'.e, s.h);
    CompletionKeeps(s, s', a.id, a.k, p.cap, a.out, a.builds, a.now, id);
  }

  lemma StepKeeps(p: Params, s: Sys, a: Action, id: Id)
    requires AllWell(s) && Enabled(p, s.e, a)
    ensures Inv(id, LifeOf(Next(p, s, a), id))
  {
    if IsInsertion(a) {
      InsertionKeeps(p, s, a, id);
    } else if IsRowRequest(a) {
      RowRequestKeeps(p, s, a, id);
    } else if IsTick(a) {
      TickKeeps(p, s, a, id);
    } else if a.Cancel? {
      CancelStepKeeps(p, s, a.id, a.now, id);
    } else if a.ProcessOne? {
      ProcessKeeps(p, s, a.now, id);
    } else if a.CronTask? {
      CronKeeps(p, s, a.draw, id);
    } else if a.Completion? {
      CompletionStepKeeps(p, s, a, id);
    } else {
      EdgeKeeps(p, s, a, id);
    }
  }

  lemma StartIsWell()
    ensures AllWell(START)
  {
    forall id
      ensures Well(START, id)
    {
      assert Ids([]) == {};
      assert Listed([], id) == {};
    }
  }

  lemma StepKeepsAll(p: Params, s: Sys, a: Action)
    requires AllWell(s) && Enabled(p, s.e, a)
    ensures AllWell(Next(p, s, a))
  {
    forall id
      ensures Well(Next(p, s, a), id)
    {
      StepKeeps(p, s, a, id);
    }
  }

  lemma {:induction false} RunKeeps(p: Params, s: Sys, actions: seq<Action>, s': Sys)
    requires AllWell(s) && IsRun(p, s, actions, s')
    ensures AllWell(s')
    decreases |actions|
  {
    if actions != [] {
      StepKeepsAll(p, s, actions[0]);
      RunKeeps(p, Next(p, s, actions[0]), actions[1..], s');
    }
  }

  lemma MoveKeepsAll(p: Params, s: Sys, a: Action, s': Sys)
    requires AllWell(s) && Moves(p, s, a, s')
    ensures AllWell(s')
  {
    StepKeepsAll(p, s, a);
  }

  lemma {:induction false} TraceIsWell(p: Params, states: seq<Sys>, actions: seq<Action>, k: nat)
    requires IsTrace(p, states, actions) && k <= |actions|
    ensures AllWell(states[k])
  {
    if k == 0 {
      StartIsWell();
    } else {
      TraceIsWell(p, states, actions, k - 1);
      assert MovesAt(p, states, actions, k - 1);
      MoveKeepsAll(p, states[k - 1], actions[k - 1], states[k]);
    }
  }

  lemma ReachableAllWell(p: Params, s: Sys)
    requires Reachable(p, s)
    ensures AllWell(s)
  {
    var states, actions :| IsTrace(p, states, actions) && states[|actions|] == s;
    TraceIsWell(p, states, actions, |actions|);
  }

  /** Every life in every reachable state satisfies its invariant. */
  lemma ReachableIsWell(p: Params, s: Sys, id: Id)
    requires Reachable(p, s)
    ensures Inv(id, LifeOf(s, id))
  {
    ReachableAllWell(p, s);
    assert Well(s, id);
  }
}
