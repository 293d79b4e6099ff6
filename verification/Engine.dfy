/** The daemon's task engine as a transition system: the queue loop, the spawned
    task futures and timers, the cron scan, the retry scan, the watchdog and the
    request handlers, all acting on one store.

    Each of the three scans lists the active tasks once and then works through
    that listing one task per step, so every other actor can interleave and the
    listed copies go stale. What an executor returns, what building a task
    yields, when a timer fires and every clock reading are arbitrary. */
module Engine {
  import opened Types
  import opened PriorityQueue
  import opened Store
  import opened Queue
  import opened Handlers
  import Chord
  import Cron
  import Watchdogs

  /** The pending queue's bound, the cron batch bound, the watchdog's factor and
      the cron expression library. */
  datatype Params = Params(cap: nat, batch: nat, factor: u64, oracle: Cron.Oracle)

  /** The rest of a scan's listing, and the clock the scan read. */
  datatype Scan = Scan(todo: seq<Task>, now: u64)

  const IDLE: Scan := Scan([], 0)

  /** `callbacks` are the spawned cron callbacks, each about to enqueue one id;
      `due` is the batch the running cron scan has collected. */
  datatype EngineState = EngineState(
    q: QueueState,
    callbacks: seq<Id>,
    cron: Scan,
    due: seq<Id>,
    retry: Scan,
    dog: Scan)

  const EMPTY_ENGINE: EngineState := EngineState(EMPTY_QUEUE, [], IDLE, [], IDLE, IDLE)

  datatype Action =
    | Dispatch(b: Chord.Built, cfg: TaskConfig, now: u64)
    | NewChain(chainId: Id, tasks: seq<TaskConfig>, built: Option<Chord.Built>, now: u64)
    | NewHeader(chordId: Id, cfg: TaskConfig, b: Chord.Built, now: u64)
    | NewChord(chordId: Id, headerIds: seq<Id>, callback: TaskConfig)
    | ProcessOne(now: u64)
    | Completion(id: Id, k: nat, out: Outcome, builds: Builds, now: u64)
    | TimerFires(i: nat)
    | CallbackEnqueues(i: nat)
    | CronBegin(list: seq<Task>, now: u64)
    | CronTask(draw: nat)
    | CronEnd
    | RetryBegin(list: seq<Task>, now: u64)
    | RetryTask
    | DogBegin(list: seq<Task>, now: u64)
    | DogTask
    | Cancel(id: Id, now: u64)
    | Requeue(id: Id, now: u64)
    | Remove(id: Id)
    | Modify(id: Id, cfg: TaskConfig, paused: bool, nextFire: Option<u64>)
    | SetPaused(id: Id, paused: bool)

  /** New chains and chords carry fresh ids; the queue loop runs either a
      prologue or the retry scan. */
  ghost predicate Enabled(p: Params, e: EngineState, a: Action) {
    match a
    case NewChain(c, _, _, _) => c !in e.q.store.chains
    case NewChord(c, _, _) => c !in e.q.store.chords
    case ProcessOne(_) => e.retry.todo == []
    case Completion(id, k, _, _, _) => id in e.q.flights && k < |e.q.flights[id]|
    case TimerFires(i) => i < |e.q.timers|
    case CallbackEnqueues(i) => i < |e.callbacks|
    case CronBegin(list, _) => e.cron.todo == [] && e.due == [] && IsActiveList(e.q.store, list)
    case CronTask(_) => e.cron.todo != [] && |e.due| < p.batch
    case CronEnd => e.cron.todo == [] || |e.due| >= p.batch
    case RetryBegin(list, _) => e.retry.todo == [] && IsActiveList(e.q.store, list)
    case RetryTask => e.retry.todo != []
    case DogBegin(list, _) => e.dog.todo == [] && IsActiveList(e.q.store, list)
    case DogTask => e.dog.todo != []
    case _ => true
  }

  function WithStore(e: EngineState, s: StoreState): EngineState {
    e.(q := e.q.(store := s))
  }

  /** Online changes by request, on a row that is there and not terminal. */
  function ModifyTask(s: StoreState, id: Id, cfg: TaskConfig, paused: bool, nextFire: Option<u64>): StoreState {
    if id !in s.tasks || s.tasks[id].state.IsTerminal() then s
    else s.(tasks := s.tasks[id := s.tasks[id].(cfg := cfg, paused := paused, nextFire := nextFire)])
  }

  function PauseTask(s: StoreState, id: Id, paused: bool): StoreState {
    if id !in s.tasks then s else s.(tasks := s.tasks[id := s.tasks[id].(paused := paused)])
  }

  function CronStep(p: Params, e: EngineState, draw: nat): EngineState
    requires e.cron.todo != []
  {
    var t := e.cron.todo[0];
    var effect := Cron.ScanTask(p.oracle, t, e.cron.now, draw);
    WithStore(e, Cron.ApplyEffect(e.q.store, t.id, effect, e.cron.now)).(
      cron := e.cron.(todo := e.cron.todo[1..]),
      due := if effect.due then e.due + [t.id] else e.due)
  }

  function Step(p: Params, e: EngineState, a: Action): EngineState
    requires Enabled(p, e, a)
  {
    match a
    case Dispatch(b, cfg, now) => e.(q := DispatchOp(e.q, p.cap, b, cfg, now).0)
    case NewChain(c, tasks, built, now) => e.(q := ChainOp(e.q, p.cap, c, tasks, built, now))
    case NewHeader(c, cfg, b, now) => e.(q := InsertHeader(e.q, p.cap, c, cfg, b, now))
    case NewChord(c, ids, callback) => WithStore(e, CreateChord(e.q.store, c, ids, callback))
    case ProcessOne(now) => e.(q := Prologue(e.q, now))
    case Completion(id, k, out, builds, now) => e.(q := Complete(e.q, p.cap, id, k, out, builds, now))
    case TimerFires(i) => e.(q := FireTimer(e.q, p.cap, i))
    case CallbackEnqueues(i) =>
      e.(q := CallbackEnqueue(e.q, p.cap, e.callbacks[i]), callbacks := Without(e.callbacks, i))
    case CronBegin(list, now) => e.(cron := Scan(list, now))
    case CronTask(draw) => CronStep(p, e, draw)
    case CronEnd => e.(callbacks := e.callbacks + e.due, due := [], cron := IDLE)
    case RetryBegin(list, now) => e.(retry := Scan(list, now))
    case RetryTask =>
      e.(q := RetryOne(e.q, p.cap, e.retry.todo[0], e.retry.now), retry := e.retry.(todo := e.retry.todo[1..]))
    case DogBegin(list, now) => e.(dog := Scan(list, now))
    case DogTask =>
      WithStore(e, Watchdogs.WatchTask(e.q.store, e.dog.todo[0], e.dog.now, p.factor)).(
        dog := e.dog.(todo := e.dog.todo[1..]))
    case Cancel(id, now) => WithStore(e, CancelTask(e.q.store, id, now).0)
    case Requeue(id, now) => WithStore(e, RequeueTask(e.q.store, id, now).0)
    case Remove(id) => WithStore(e, DeleteTask(e.q.store, id))
    case Modify(id, cfg, paused, next) => WithStore(e, ModifyTask(e.q.store, id, cfg, paused, next))
    case SetPaused(id, paused) => WithStore(e, PauseTask(e.q.store, id, paused))
  }

  // ----- what a run is remembered by -----

  /** `touched`: ids whose row was removed, replaced or modified by request;
      `requeued`: by request; `parked`: ids given the fire time `u64::MAX` by
      anything but a run-at scan; `forged`: chain markers a request supplied
      itself; `consults`: failed executions; `answered`: executions that
      received a status code; `halted`: how often an id had started and failed
      when its first accepted cancel arrived; `overruled`: ids whose state a cron
      scan decided from its listing after their last cancel or completion;
      `fired`: ids whose run-at trigger a scan used up, and `skipped`: those of
      them it did not put in its batch; `ended`: ids a completion left terminal
      on its normal exit; `reports`: the results an id's executions came back with,
      and whether a cancel had been requested by then; `clock`: the latest clock reading, as long as no reading
      went back and none was past the signed range. */
  datatype History = History(
    touched: set<Id>,
    requeued: set<Id>,
    parked: set<Id>,
    forged: set<Id>,
    consults: map<Id, nat>,
    answered: map<Id, nat>,
    halted: map<Id, Halt>,
    overruled: set<Id>,
    fired: set<Id>,
    skipped: set<Id>,
    ended: set<Id>,
    reports: map<Id, seq<Report>>,
    clock: Option<u64>)

  datatype Report = Report(result: TaskResult, cancelled: bool)

  function ReportsOf(h: History, id: Id): seq<Report> {
    if id in h.reports then h.reports[id] else []
  }

  datatype Halt = Halt(starts: nat, consults: nat)

  const NO_HISTORY: History := History({}, {}, {}, {}, map[], map[], map[], {}, {}, {}, {}, map[], Some(0))

  function Tally(m: map<Id, nat>, id: Id): nat {
    if id in m then m[id] else 0
  }

  function Bump(m: map<Id, nat>, id: Id, happened: bool): map<Id, nat> {
    if happened then m[id := Tally(m, id) + 1] else m
  }

  function Touches(e: EngineState, a: Action): set<Id> {
    match a
    case Dispatch(b, cfg, _) => if cfg.replaceExisting && b.id in e.q.store.tasks then {b.id} else {}
    case Remove(id) => if id in e.q.store.tasks then {id} else {}
    case Modify(id, _, _, _) => if id in e.q.store.tasks then {id} else {}
    case _ => {}
  }

  function Requeues(e: EngineState, a: Action): set<Id> {
    if a.Requeue? && RequeueTask(e.q.store, a.id, a.now).1 then {a.id} else {}
  }

  function Forges(a: Action): set<Id> {
    match a
    case Dispatch(_, cfg, _) => if cfg.chainId.Some? then {cfg.chainId.value} else {}
    case NewHeader(_, cfg, _, _) => if cfg.chainId.Some? then {cfg.chainId.value} else {}
    case Modify(_, cfg, _, _) => if cfg.chainId.Some? then {cfg.chainId.value} else {}
    case _ => {}
  }

  function AtMax(b: Option<Chord.Built>): set<Id> {
    if b.Some? && b.value.nextFire == Some(U64_MAX) then {b.value.id} else {}
  }

  /** Ids given `u64::MAX` as a fire time by being built, retried or requeued. */
  function GivenMax(e: EngineState, a: Action): set<Id> {
    match a
    case Dispatch(b, _, _) => AtMax(Some(b))
    case NewChain(_, _, built, _) => AtMax(built)
    case NewHeader(_, _, b, _) => AtMax(Some(b))
    case Requeue(id, now) => if now == U64_MAX then {id} else {}
    case Completion(id, k, out, builds, now) =>
      AtMax(builds.step) + AtMax(builds.callback)
      + (if id in e.q.flights && k < |e.q.flights[id]| && RetriesAtMax(Row(e.q.store, id), e.q.flights[id][k], out, now)
         then {id} else {})
    case _ => {}
  }

  /** The fire time of a row became `u64::MAX`, other than as the sentinel of a
      run-at scan. */
  predicate BecameMax(e: EngineState, a: Action, e': EngineState, id: Id) {
    && id in e.q.store.tasks && id in e'.q.store.tasks
    && e.q.store.tasks[id].nextFire != Some(U64_MAX)
    && e'.q.store.tasks[id].nextFire == Some(U64_MAX)
    && !(a.CronTask? && e'.q.store.tasks[id].cfg.runAt.Some?)
  }

  function Parks(e: EngineState, a: Action, e': EngineState): set<Id> {
    GivenMax(e, a) + (set id | id in e'.q.store.tasks && BecameMax(e, a, e', id))
  }

  function Halts(e: EngineState, a: Action, h: History): map<Id, Halt> {
    if a.Cancel? && CancelTask(e.q.store, a.id, a.now).1.CancelOk? && a.id !in h.halted then
      h.halted[a.id := Halt(CountEvents(e.q.store.events, a.id, Started), Tally(h.consults, a.id))]
    else h.halted
  }

  function Overrules(p: Params, e: EngineState, a: Action, h: History): set<Id> {
    match a
    case Cancel(id, now) => if CancelTask(e.q.store, id, now).1.CancelOk? then h.overruled - {id} else h.overruled
    case Completion(id, _, _, _, _) => h.overruled - {id}
    case CronTask(draw) =>
      if e.cron.todo != [] && e.cron.todo[0].id in e.q.store.tasks
         && Cron.ScanTask(p.oracle, e.cron.todo[0], e.cron.now, draw).setState.Some?
      then h.overruled + {e.cron.todo[0].id} else h.overruled
    case _ => h.overruled
  }

  /** The id whose run-at trigger the step uses up. */
  function Fires(p: Params, e: EngineState, a: Action): set<Id> {
    if a.CronTask? && e.cron.todo != [] && e.cron.todo[0].cfg.runAt.Some?
       && Cron.ScanTask(p.oracle, e.cron.todo[0], e.cron.now, a.draw).setNextFire.Some?
    then {e.cron.todo[0].id} else {}
  }

  function Skips(p: Params, e: EngineState, a: Action): set<Id> {
    if Fires(p, e, a) != {} && !Cron.ScanTask(p.oracle, e.cron.todo[0], e.cron.now, a.draw).due
    then Fires(p, e, a) else {}
  }

  /** The clock reading a step starts with, if it takes one. */
  function Reading(a: Action): Option<u64> {
    match a
    case Dispatch(_, _, now) => Some(now)
    case NewChain(_, _, _, now) => Some(now)
    case NewHeader(_, _, _, now) => Some(now)
    case ProcessOne(now) => Some(now)
    case Completion(_, _, _, _, now) => Some(now)
    case CronBegin(_, now) => Some(now)
    case RetryBegin(_, now) => Some(now)
    case DogBegin(_, now) => Some(now)
    case Cancel(_, now) => Some(now)
    case Requeue(_, now) => Some(now)
    case _ => None
  }

  function Ticked(clock: Option<u64>, reading: Option<u64>): Option<u64> {
    if reading.None? || clock.None? then clock
    else if clock.value <= reading.value <= I64_MAX then reading
    else None
  }

  function Remember(p: Params, e: EngineState, a: Action, e': EngineState, h: History): History {
    var h1 := h.(touched := h.touched + Touches(e, a),
                 requeued := h.requeued + Requeues(e, a),
                 parked := h.parked + Parks(e, a, e'),
                 forged := h.forged + Forges(a),
                 halted := Halts(e, a, h),
                 overruled := Overrules(p, e, a, h),
                 fired := h.fired + Fires(p, e, a),
                 skipped := h.skipped + Skips(p, e, a),
                 clock := Ticked(h.clock, Reading(a)));
    if a.Completion? && a.id in e.q.flights && a.k < |e.q.flights[a.id]| then
      var row, f := Row(e.q.store, a.id), e.q.flights[a.id][a.k];
      h1.(reports := if a.out.Completed?
                     then h.reports[a.id := ReportsOf(h, a.id)
                                            + [Report(a.out.result, row.Some? && row.value.cancelRequested)]]
                     else h.reports,
          consults := Bump(h.consults, a.id, Consults(row, f, a.out)),
          answered := Bump(h.answered, a.id, Answers(a.out)),
          ended := if Ends(row, f, a.out, a.now) then h.ended + {a.id} else h.ended)
    else h1
  }

  // ----- runs -----

  datatype Sys = Sys(e: EngineState, h: History)

  const START: Sys := Sys(EMPTY_ENGINE, NO_HISTORY)

  function Next(p: Params, s: Sys, a: Action): Sys
    requires Enabled(p, s.e, a)
  {
    var e' := Step(p, s.e, a);
    Sys(e', Remember(p, s.e, a, e', s.h))
  }

  ghost predicate IsRun(p: Params, s: Sys, actions: seq<Action>, s': Sys)
    decreases |actions|
  {
    if actions == [] then s' == s
    else Enabled(p, s.e, actions[0]) && IsRun(p, Next(p, s, actions[0]), actions[1..], s')
  }

  ghost predicate Moves(p: Params, s: Sys, a: Action, s': Sys) {
    Enabled(p, s.e, a) && s' == Next(p, s, a)
  }

  ghost predicate MovesAt(p: Params, states: seq<Sys>, actions: seq<Action>, i: nat)
    requires i < |actions| && |states| == |actions| + 1
  {
    Moves(p, states[i], actions[i], states[i + 1])
  }

  /** A run from the empty system, with every state it passes. */
  ghost predicate IsTrace(p: Params, states: seq<Sys>, actions: seq<Action>) {
    && |states| == |actions| + 1 && states[0] == START
    && forall i: nat :: i < |actions| ==> MovesAt(p, states, actions, i)
  }

  ghost predicate Reachable(p: Params, s: Sys) {
    exists states, actions :: IsTrace(p, states, actions) && states[|actions|] == s
  }

  lemma ReachStep(p: Params, s: Sys, a: Action)
    requires Reachable(p, s) && Enabled(p, s.e, a)
    ensures Reachable(p, Next(p, s, a))
  {
    var states, actions :| IsTrace(p, states, actions) && states[|actions|] == s;
    var s' := Next(p, s, a);
    assert Moves(p, s, a, s');
    TraceAppend(p, states, actions, a, s');
  }

  lemma TraceAppend(p: Params, states: seq<Sys>, actions: seq<Action>, a: Action, s': Sys)
    requires IsTrace(p, states, actions) && Moves(p, states[|actions|], a, s')
    ensures Reachable(p, s')
  {
    var states', actions' := states + [s'], actions + [a];
    forall i: nat | i < |actions'|
      ensures MovesAt(p, states', actions', i)
    {
      if i < |actions| {
        assert MovesAt(p, states, actions, i);
      }
    }
    assert IsTrace(p, states', actions') && states'[|actions'|] == s';
  }

  lemma StartIsReachable(p: Params)
    ensures Reachable(p, START)
  {
    assert IsTrace(p, [START], []);
  }

  // ----- undisturbed, the steps of a scan are the scan -----

  lemma NextPrefix<T>(list: seq<T>, k: nat)
    requires k < |list|
    ensures list[..k + 1][..k] == list[..k] && list[..k + 1][k] == list[k]
    ensures list[k..][0] == list[k] && list[k..][1..] == list[k + 1..]
  {
  }

  lemma RunCons(p: Params, s: Sys, a: Action, rest: seq<Action>, s': Sys)
    requires Enabled(p, s.e, a) && IsRun(p, Next(p, s, a), rest, s')
    ensures IsRun(p, s, [a] + rest, s')
  {
    assert ([a] + rest)[1..] == rest;
  }

  /** One more step after the first `k` of a cron scan's listing. */
  lemma CronStepContinuesScan(p: Params, e: EngineState, s: StoreState, list: seq<Task>, k: nat, draws: Id -> nat)
    requires k < |list| && e.cron.todo == list[k..] && |e.due| < p.batch
    requires (e.q.store, e.due) == Cron.ScanAll(p.oracle, s, list[..k], e.cron.now, p.batch, draws)
    ensures var e' := CronStep(p, e, draws(list[k].id));
            && e'.cron == Scan(list[k + 1..], e.cron.now)
            && (e'.q.store, e'.due) == Cron.ScanAll(p.oracle, s, list[..k + 1], e.cron.now, p.batch, draws)
  {
    NextPrefix(list, k);
  }

  /** The state a whole cron scan leads to: its store, its batch in callbacks. */
  function AfterCron(p: Params, e: EngineState, s: StoreState, list: seq<Task>, now: u64,
                     draws: Id -> nat): EngineState {
    var (s', due) := Cron.ScanAll(p.oracle, s, list, now, p.batch, draws);
    WithStore(e, s').(callbacks := e.callbacks + due, due := [], cron := IDLE)
  }

  ghost predicate IsCronTail(actions: seq<Action>) {
    && actions != [] && actions[|actions| - 1] == CronEnd
    && forall i :: 0 <= i < |actions| - 1 ==> actions[i].CronTask?
  }

  lemma CronTailCons(draw: nat, rest: seq<Action>)
    requires IsCronTail(rest)
    ensures IsCronTail([CronTask(draw)] + rest)
  {
  }

  /** From its `k`-th task on, an undisturbed cron scan runs to its end. */
  lemma {:induction false} CronRunsOn(p: Params, s: Sys, before: StoreState, list: seq<Task>, k: nat, draws: Id -> nat)
    returns (actions: seq<Action>, s': Sys)
    requires k <= |list| && s.e.cron.todo == list[k..]
    requires (s.e.q.store, s.e.due) == Cron.ScanAll(p.oracle, before, list[..k], s.e.cron.now, p.batch, draws)
    ensures IsRun(p, s, actions, s') && IsCronTail(actions)
    ensures s'.e == AfterCron(p, s.e, before, list, s.e.cron.now, draws)
    decreases |list| - k
  {
    if k == |list| || |s.e.due| >= p.batch {
      s' := Next(p, s, CronEnd);
      RunCons(p, s, CronEnd, [], s');
      actions := [CronEnd] + [];
      Cron.CutOffAt(p.oracle, before, list, k, s.e.cron.now, p.batch, draws);
    } else {
      var a := CronTask(draws(list[k].id));
      var next := Next(p, s, a);
      CronStepContinuesScan(p, s.e, before, list, k, draws);
      var rest;
      rest, s' := CronRunsOn(p, next, before, list, k + 1, draws);
      RunCons(p, s, a, rest, s');
      CronTailCons(draws(list[k].id), rest);
      actions := [a] + rest;
    }
  }

  /** Undisturbed, the actions of a cron scan are the scan: its listing, one
      action per task up to the cap, and its end lead to the store and the batch
      of `ScanAll`. */
  lemma CronRunIsTheScan(p: Params, s: Sys, list: seq<Task>, now: u64, draws: Id -> nat)
    returns (actions: seq<Action>, s': Sys)
    requires Enabled(p, s.e, CronBegin(list, now))
    ensures IsRun(p, s, [CronBegin(list, now)] + actions, s') && IsCronTail(actions)
    ensures s'.e == AfterCron(p, s.e, s.e.q.store, list, now, draws)
  {
    var next := Next(p, s, CronBegin(list, now));
    assert list[0..] == list && list[..0] == [];
    actions, s' := CronRunsOn(p, next, s.e.q.store, list, 0, draws);
    RunCons(p, s, CronBegin(list, now), actions, s');
  }

  lemma RetryStepContinuesScan(p: Params, s: Sys, q: QueueState, list: seq<Task>, k: nat)
    requires k < |list| && s.e.retry.todo == list[k..]
    requires s.e.q == RetryAll(q, p.cap, list[..k], s.e.retry.now)
    ensures Enabled(p, s.e, RetryTask)
    ensures Next(p, s, RetryTask).e == s.e.(q := RetryAll(q, p.cap, list[..k + 1], s.e.retry.now),
                                            retry := Scan(list[k + 1..], s.e.retry.now))
  {
    NextPrefix(list, k);
  }

  /** The action `a`, `n` times. */
  predicate Repeats(actions: seq<Action>, a: Action, n: nat) {
    |actions| == n && forall i :: 0 <= i < n ==> actions[i] == a
  }

  lemma RepeatsCons(a: Action, rest: seq<Action>, n: nat)
    requires Repeats(rest, a, n)
    ensures Repeats([a] + rest, a, n + 1)
  {
  }

  lemma {:induction false} RetryRunsOn(p: Params, s: Sys, before: QueueState, list: seq<Task>, k: nat)
    returns (actions: seq<Action>, s': Sys)
    requires k <= |list| && s.e.retry.todo == list[k..]
    requires s.e.q == RetryAll(before, p.cap, list[..k], s.e.retry.now)
    ensures IsRun(p, s, actions, s') && Repeats(actions, RetryTask, |list| - k)
    ensures s'.e == s.e.(q := RetryAll(before, p.cap, list, s.e.retry.now), retry := Scan([], s.e.retry.now))
    decreases |list| - k
  {
    if k == |list| {
      assert list[..k] == list;
      actions, s' := [], s;
    } else {
      var next := Next(p, s, RetryTask);
      RetryStepContinuesScan(p, s, before, list, k);
      var rest;
      rest, s' := RetryRunsOn(p, next, before, list, k + 1);
      RunCons(p, s, RetryTask, rest, s');
      RepeatsCons(RetryTask, rest, |list| - k - 1);
      actions := [RetryTask] + rest;
    }
  }

  /** The same for the retry scan, one action per listed task. */
  lemma RetryRunIsTheScan(p: Params, s: Sys, list: seq<Task>, now: u64) returns (actions: seq<Action>, s': Sys)
    requires Enabled(p, s.e, RetryBegin(list, now))
    ensures IsRun(p, s, [RetryBegin(list, now)] + actions, s') && Repeats(actions, RetryTask, |list|)
    ensures s'.e == s.e.(q := RetryAll(s.e.q, p.cap, list, now), retry := Scan([], now))
  {
    assert list[0..] == list && list[..0] == [];
    actions, s' := RetryRunsOn(p, Next(p, s, RetryBegin(list, now)), s.e.q, list, 0);
    RunCons(p, s, RetryBegin(list, now), actions, s');
  }

  /** The engine once the watchdog has left the store `w` and its listing. */
  function Watched(e: EngineState, w: StoreState, dog: Scan): EngineState {
    WithStore(e, w).(dog := dog)
  }

  lemma WatchedAgain(e: EngineState, w: StoreState, dog: Scan, w': StoreState, dog': Scan)
    ensures Watched(Watched(e, w, dog), w', dog') == Watched(e, w', dog')
  {
  }

  lemma DogStepContinuesScan(p: Params, s: Sys, before: StoreState, list: seq<Task>, k: nat)
    requires k < |list| && s.e.dog.todo == list[k..]
    requires s.e.q.store == Watchdogs.WatchAll(before, list[..k], s.e.dog.now, p.factor)
    ensures Enabled(p, s.e, DogTask)
    ensures Next(p, s, DogTask).e == Watched(s.e, Watchdogs.WatchAll(before, list[..k + 1], s.e.dog.now, p.factor),
                                             Scan(list[k + 1..], s.e.dog.now))
  {
    NextPrefix(list, k);
  }

  lemma {:induction false} DogRunsOn(p: Params, s: Sys, before: StoreState, list: seq<Task>, k: nat)
    returns (actions: seq<Action>, s': Sys)
    requires k <= |list| && s.e.dog.todo == list[k..]
    requires s.e.q.store == Watchdogs.WatchAll(before, list[..k], s.e.dog.now, p.factor)
    ensures IsRun(p, s, actions, s') && Repeats(actions, DogTask, |list| - k)
    ensures s'.e == Watched(s.e, Watchdogs.WatchAll(before, list, s.e.dog.now, p.factor), Scan([], s.e.dog.now))
    decreases |list| - k
  {
    if k == |list| {
      assert list[..k] == list;
      actions, s' := [], s;
    } else {
      var now, next := s.e.dog.now, Next(p, s, DogTask);
      DogStepContinuesScan(p, s, before, list, k);
      WatchedAgain(s.e, Watchdogs.WatchAll(before, list[..k + 1], now, p.factor), Scan(list[k + 1..], now),
                   Watchdogs.WatchAll(before, list, now, p.factor), Scan([], now));
      var rest;
      rest, s' := DogRunsOn(p, next, before, list, k + 1);
      RunCons(p, s, DogTask, rest, s');
      RepeatsCons(DogTask, rest, |list| - k - 1);
      actions := [DogTask] + rest;
    }
  }

  /** The same for the watchdog. */
  lemma DogRunIsTheScan(p: Params, s: Sys, list: seq<Task>, now: u64) returns (actions: seq<Action>, s': Sys)
    requires Enabled(p, s.e, DogBegin(list, now))
    ensures IsRun(p, s, [DogBegin(list, now)] + actions, s') && Repeats(actions, DogTask, |list|)
    ensures s'.e == Watched(s.e, Watchdogs.WatchAll(s.e.q.store, list, now, p.factor), Scan([], now))
  {
    assert list[0..] == list && list[..0] == [];
    actions, s' := DogRunsOn(p, Next(p, s, DogBegin(list, now)), s.e.q.store, list, 0);
    RunCons(p, s, DogBegin(list, now), actions, s');
  }
}
