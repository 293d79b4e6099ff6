/** The daemon's request handlers that create and cancel tasks. Building a task
    from its JSON is the caller's: a configuration comes with what building it
    yields, nothing when it does not build. */
module Handlers {
  import opened Types
  import opened PriorityQueue
  import opened Store
  import opened Queue
  import Chain
  import Chord

  datatype Reply = Accepted | IdConflict | QueueFull | Rejected

  // ----- dispatch -----

  /** A pure date trigger in the future is left to the cron scan. */
  predicate IsDeferred(cfg: TaskConfig, nextFire: Option<u64>, now: u64) {
    && cfg.runAt.Some? && cfg.cron.None? && cfg.interval.None?
    && nextFire.Some? && nextFire.value > now
  }

  function DispatchOp(q: QueueState, cap: nat, b: Chord.Built, cfg: TaskConfig, now: u64): (QueueState, Reply) {
    if !cfg.replaceExisting && b.id in q.store.tasks then (q, IdConflict)
    else
      var s := if cfg.replaceExisting then DeleteTask(q.store, b.id) else q.store;
      var q1 := q.(store := PutTask(s, NewTask(b.id, cfg, b.nextFire, now)));
      if IsDeferred(cfg, b.nextFire, now) then (q1, Accepted)
      else (EnqueueId(q1, cap, b.id, cfg.priority), if |q.pending| < cap then Accepted else QueueFull)
  }

  method HandleDispatch(queue: TaskQueue, b: Chord.Built, cfg: TaskConfig, now: u64) returns (reply: Reply)
    modifies queue`pending, queue`refused, queue.store
    ensures (queue.View(), reply) == DispatchOp(old(queue.View()), queue.maxPending, b, cfg, now)
  {
    var t := NewTask(b.id, cfg, b.nextFire, now);
    if cfg.replaceExisting {
      queue.store.Delete(t.id);
    } else {
      var existing := queue.store.LoadTask(t.id);
      if existing.Some? {
        return IdConflict;
      }
    }
    var isPureDateTrigger := cfg.runAt.Some? && cfg.cron.None? && cfg.interval.None?;
    var shouldDefer := isPureDateTrigger && t.nextFire.Some? && t.nextFire.value > now;
    queue.store.InsertTask(t);
    if !shouldDefer {
      reply := if |queue.pending| < queue.maxPending then Accepted else QueueFull;
      queue.EnqueueOrLog(t.id, cfg.priority);
    } else {
      reply := Accepted;
    }
  }

  // ----- chains -----

  function ChainOp(q: QueueState, cap: nat, chainId: Id, tasks: seq<TaskConfig>, built: Option<Chord.Built>,
                   now: u64): QueueState {
    if tasks == [] then q
    else AdvanceAndDispatch(q.(store := CreateChain(q.store, chainId, tasks)), cap, chainId, built, now)
  }

  method HandleChainOp(queue: TaskQueue, chainId: Id, tasks: seq<TaskConfig>, built: Option<Chord.Built>, now: u64)
    returns (reply: Reply)
    modifies queue`pending, queue`refused, queue.store
    ensures queue.View() == ChainOp(old(queue.View()), queue.maxPending, chainId, tasks, built, now)
    ensures reply == (if tasks == [] || built.None? then Rejected
                      else if |old(queue.pending)| >= queue.maxPending then QueueFull
                      else Accepted)
  {
    if tasks == [] {
      return Rejected;
    }
    var full := |queue.pending| >= queue.maxPending;
    queue.store.NewChain(chainId, tasks);
    queue.AdvanceChainAndDispatch(chainId, built, now);
    reply := if built.None? then Rejected else if full then QueueFull else Accepted;
  }

  lemma AcceptedIsQueued(q: QueueState, cap: nat, id: Id, priority: int)
    requires |q.pending| < cap
    ensures Entry(priority, id) in EnqueueId(q, cap, id, priority).pending
  {
    var e := Entry(priority, id);
    PushContents(q.pending, cap, e);
    assert e in multiset(Push(q.pending, cap, e));
  }

  lemma FirstAdvance(s: StoreState, chainId: Id, tasks: seq<TaskConfig>)
    requires tasks != []
    ensures var (s', r) := Chain.Advance(CreateChain(s, chainId, tasks), chainId);
            && s' == s.(chains := s.chains[chainId := ChainRecord(tasks, 1, RecRunning)])
            && r == Chain.NextStep(tasks[0])
  {
    assert s.chains[chainId := ChainRecord(tasks, 0, RecPending)][chainId := ChainRecord(tasks, 1, RecRunning)]
        == s.chains[chainId := ChainRecord(tasks, 1, RecRunning)];
  }

  /** A new chain hands out its first configuration, tagged with the chain. */
  lemma ChainOpDispatchesFirstStep(q: QueueState, cap: nat, chainId: Id, tasks: seq<TaskConfig>, b: Chord.Built,
                                   now: u64)
    requires tasks != []
    ensures var q' := ChainOp(q, cap, chainId, tasks, Some(b), now);
            && q'.store.chains == q.store.chains[chainId := ChainRecord(tasks, 1, RecRunning)]
            && q'.store.tasks
               == q.store.tasks[b.id := NewTask(b.id, tasks[0].(chainId := Some(chainId)), b.nextFire, now)]
            && (|q.pending| < cap ==> Entry(tasks[0].priority, b.id) in q'.pending)
  {
    FirstAdvance(q.store, chainId, tasks);
    var s := Chain.Advance(CreateChain(q.store, chainId, tasks), chainId).0;
    var t := NewTask(b.id, tasks[0].(chainId := Some(chainId)), b.nextFire, now);
    if |q.pending| < cap {
      AcceptedIsQueued(q.(store := PutTask(s, t)), cap, b.id, tasks[0].priority);
    }
  }

  // ----- chords -----

  datatype Header = Header(cfg: TaskConfig, built: Option<Chord.Built>)

  function HeaderTask(chordId: Id, cfg: TaskConfig, b: Chord.Built, now: u64): Task {
    NewTask(b.id, cfg.(chordId := Some(chordId)), b.nextFire, now)
  }

  function InsertHeader(q: QueueState, cap: nat, chordId: Id, cfg: TaskConfig, b: Chord.Built, now: u64): QueueState {
    EnqueueId(q.(store := PutTask(q.store, HeaderTask(chordId, cfg, b, now))), cap, b.id, cfg.priority)
  }

  /** The headers in order, up to the first that does not build or whose enqueue
      is refused; the ids of all of them when none fails. */
  function InsertHeaders(q: QueueState, cap: nat, chordId: Id, headers: seq<Header>, now: u64): (QueueState,
                         Option<seq<Id>>) {
    if headers == [] then (q, Some([]))
    else
      var (q1, ids) := InsertHeaders(q, cap, chordId, headers[..|headers| - 1], now);
      var h := headers[|headers| - 1];
      if ids.None? || h.built.None? then (q1, None)
      else
        (InsertHeader(q1, cap, chordId, h.cfg, h.built.value, now),
         if |q1.pending| < cap then Some(ids.value + [h.built.value.id]) else None)
  }

  function ChordOp(q: QueueState, cap: nat, chordId: Id, headers: seq<Header>, callback: TaskConfig,
                   now: u64): (QueueState, Reply) {
    if headers == [] then (q, Rejected)
    else
      var (q1, ids) := InsertHeaders(q, cap, chordId, headers, now);
      if ids.None? then (q1, Rejected)
      else (q1.(store := CreateChord(q1.store, chordId, ids.value, callback)), Accepted)
  }

  /** A header that failed ends the loop for good. */
  lemma {:induction false} FailedHeaderEndsLoop(q: QueueState, cap: nat, chordId: Id, headers: seq<Header>, k: nat,
                                                now: u64)
    requires k <= |headers| && InsertHeaders(q, cap, chordId, headers[..k], now).1.None?
    ensures InsertHeaders(q, cap, chordId, headers, now) == InsertHeaders(q, cap, chordId, headers[..k], now)
    decreases |headers|
  {
    if k == |headers| {
      assert headers[..k] == headers;
    } else {
      var front := headers[..|headers| - 1];
      assert front[..k] == headers[..k];
      FailedHeaderEndsLoop(q, cap, chordId, front, k, now);
    }
  }

  method HandleChordOp(queue: TaskQueue, chordId: Id, headers: seq<Header>, callback: TaskConfig, now: u64)
    returns (reply: Reply)
    modifies queue`pending, queue`refused, queue.store
    ensures (queue.View(), reply) == ChordOp(old(queue.View()), queue.maxPending, chordId, headers, callback, now)
  {
    if headers == [] {
      return Rejected;
    }
    var headerIds := [];
    var i := 0;
    while i < |headers|
      invariant 0 <= i <= |headers|
      invariant (queue.View(), Some(headerIds))
             == InsertHeaders(old(queue.View()), queue.maxPending, chordId, headers[..i], now)
    {
      var id := HandleHeader(queue, chordId, headers[i], now);
      assert headers[..i + 1][..i] == headers[..i];
      if id.None? {
        FailedHeaderEndsLoop(old(queue.View()), queue.maxPending, chordId, headers, i + 1, now);
        return Rejected;
      }
      headerIds := headerIds + [id.value];
      i := i + 1;
    }
    assert headers[..i] == headers;
    queue.store.NewChord(chordId, headerIds, callback);
    reply := Accepted;
  }

  /** The body of the header loop. */
  method HandleHeader(queue: TaskQueue, chordId: Id, h: Header, now: u64) returns (id: Option<Id>)
    modifies queue`pending, queue`refused, queue.store
    ensures h.built.None? ==> id.None? && queue.View() == old(queue.View())
    ensures h.built.Some? ==>
              && queue.View() == InsertHeader(old(queue.View()), queue.maxPending, chordId, h.cfg, h.built.value, now)
              && id == if |old(queue.pending)| < queue.maxPending then Some(h.built.value.id) else None
  {
    if h.built.None? {
      return None;
    }
    var t := NewTask(h.built.value.id, h.cfg.(chordId := Some(chordId)), h.built.value.nextFire, now);
    queue.store.InsertTask(t);
    id := if |queue.pending| < queue.maxPending then Some(t.id) else None;
    queue.EnqueueOrLog(t.id, h.cfg.priority);
  }

  ghost predicate HeaderMatches(h: Header, id: Id, inserted: Task, chordId: Id, now: u64) {
    && h.built.Some? && h.built.value.id == id
    && inserted == NewTask(id, h.cfg.(chordId := Some(chordId)), h.built.value.nextFire, now)
  }

  /** All headers build, and the queue has room for them. */
  ghost predicate AllFit(q: QueueState, cap: nat, headers: seq<Header>) {
    && |q.pending| + |headers| <= cap
    && forall i :: 0 <= i < |headers| ==> headers[i].built.Some?
  }

  lemma HeaderIsQueued(q: QueueState, cap: nat, chordId: Id, cfg: TaskConfig, b: Chord.Built, now: u64)
    ensures |InsertHeader(q, cap, chordId, cfg, b, now).pending|
         == if |q.pending| < cap then |q.pending| + 1 else |q.pending|
  {
    if |q.pending| < cap {
      PushContents(q.pending, cap, Entry(cfg.priority, b.id));
      assert |multiset(Push(q.pending, cap, Entry(cfg.priority, b.id)))| == |multiset(q.pending)| + 1;
    }
  }

  lemma {:induction false} HeadersFit(q: QueueState, cap: nat, chordId: Id, headers: seq<Header>, now: u64)
    requires headers != []
    ensures var (q', ids) := InsertHeaders(q, cap, chordId, headers, now);
            && (ids.Some? <==> AllFit(q, cap, headers))
            && (ids.Some? ==> |q'.pending| == |q.pending| + |headers|)
            && (|q.pending| <= cap ==> |q'.pending| <= cap)
  {
    var front, last := headers[..|headers| - 1], headers[|headers| - 1];
    assert forall i :: 0 <= i < |front| ==> headers[i] == front[i];
    if front != [] {
      HeadersFit(q, cap, chordId, front, now);
    }
    var (q1, ids) := InsertHeaders(q, cap, chordId, front, now);
    if ids.Some? && last.built.Some? {
      HeaderIsQueued(q1, cap, chordId, last.cfg, last.built.value, now);
    }
  }

  lemma {:induction false} HeadersAreInserted(q: QueueState, cap: nat, chordId: Id, headers: seq<Header>, now: u64)
    ensures var (q', ids) := InsertHeaders(q, cap, chordId, headers, now);
            && q'.store.chords == q.store.chords
            && q.store.inserted <= q'.store.inserted
            && (ids.Some? ==>
                  && |ids.value| == |headers| && |q'.store.inserted| == |q.store.inserted| + |headers|
                  && forall i :: 0 <= i < |headers| ==>
                       HeaderMatches(headers[i], ids.value[i], q'.store.inserted[|q.store.inserted| + i], chordId, now))
  {
    if headers != [] {
      var front, last := headers[..|headers| - 1], headers[|headers| - 1];
      HeadersAreInserted(q, cap, chordId, front, now);
      assert forall i :: 0 <= i < |front| ==> headers[i] == front[i];
    }
  }

  /** A chord is accepted if and only if it has headers, all of them build and the
      queue has room for all. It has then inserted one tagged task per header, in
      order, and its new record lists exactly their ids; a chord that is not
      accepted leaves no record, although its first headers may be inserted and
      queued. */
  lemma ChordOpRecordsItsHeaders(q: QueueState, cap: nat, chordId: Id, headers: seq<Header>, callback: TaskConfig,
                                 now: u64)
    ensures var (q', reply) := ChordOp(q, cap, chordId, headers, callback, now);
            var n := |q.store.inserted|;
            && (reply.Accepted? <==> headers != [] && AllFit(q, cap, headers))
            && (reply.Accepted? ==>
                  && chordId in q'.store.chords
                  && var r := q'.store.chords[chordId];
                     && r == ChordRecord(r.headerIds, callback, None, RecPending)
                     && q'.store.chords == q.store.chords[chordId := r]
                     && |r.headerIds| == |headers| && |q'.store.inserted| == n + |headers|
                     && forall i :: 0 <= i < |headers| ==>
                          HeaderMatches(headers[i], r.headerIds[i], q'.store.inserted[n + i], chordId, now))
            && (!reply.Accepted? ==> q'.store.chords == q.store.chords && reply.Rejected?)
            && (|q.pending| <= cap ==> |q'.pending| <= cap)
  {
    HeadersAreInserted(q, cap, chordId, headers, now);
    if headers != [] {
      HeadersFit(q, cap, chordId, headers, now);
    }
  }

  // ----- cancel -----

  method HandleCancel(queue: TaskQueue, id: Id, now: u64) returns (r: CancelResult)
    modifies queue.store
    ensures (queue.store.View(), r) == CancelTask(old(queue.store.View()), id, now)
    ensures queue.View() == old(queue.View()).(store := queue.store.View())
  {
    r := queue.store.Cancel(id, now);
  }
}
