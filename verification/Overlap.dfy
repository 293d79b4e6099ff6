/** The overlap controller: per-task counters of running instances, and the
    protocol between the single dispatch prologue and the task futures,
    interleaved at every store call. */
module Overlap {
  import opened Types
  import opened Store

  type Counters = map<Id, nat>

  /** The concurrency cap: `max_instances` above 1 wins, otherwise
      `allow_overlap` lifts the cap of one. */
  function Limit(cfg: TaskConfig): Option<nat> {
    if cfg.maxInstances > 1 then Some(cfg.maxInstances)
    else if cfg.allowOverlap then None
    else Some(1)
  }

  function CountOf(running: Counters, id: Id): nat {
    if id in running then running[id] else 0
  }

  function CountUp(running: Counters, id: Id): Counters {
    running[id := CountOf(running, id) + 1]
  }

  function CountDown(running: Counters, id: Id): Counters {
    if CountOf(running, id) <= 1 then running - {id}
    else running[id := running[id] - 1]
  }

  function StoreCount(s: StoreState, id: Id): nat {
    if id in s.tasks && s.tasks[id].state.Running? then 1 else 0
  }

  function Max(a: nat, b: nat): nat {
    if a >= b then a else b
  }

  predicate MayFire(running: Counters, s: StoreState, t: Task) {
    match Limit(t.cfg)
    case None => true
    case Some(limit) => Max(CountOf(running, t.id), StoreCount(s, t.id)) < limit
  }

  /** Which executions are admitted: with a cap above 1, as long as the larger of
      the counter and the row's count is below it; without one, always if overlap
      is allowed, and otherwise only when both read zero. */
  lemma AdmittedIff(running: Counters, s: StoreState, t: Task)
    ensures var k := if t.id in running then running[t.id] else 0;
            var r := if t.id in s.tasks && s.tasks[t.id].state == Running then 1 else 0;
            && (t.cfg.maxInstances > 1 ==>
                  (MayFire(running, s, t) <==> k < t.cfg.maxInstances && r < t.cfg.maxInstances))
            && (t.cfg.maxInstances <= 1 && t.cfg.allowOverlap ==> MayFire(running, s, t))
            && (t.cfg.maxInstances <= 1 && !t.cfg.allowOverlap ==> (MayFire(running, s, t) <==> k == 0 && r == 0))
  {
  }

  class OverlapController {
    var running: Counters

    constructor ()
      ensures running == map[]
    {
      running := map[];
    }

    method ShouldFire(store: InMemoryStore, t: Task, now: u64) returns (fire: bool)
      modifies store
      ensures fire == MayFire(running, old(store.View()), t)
      ensures store.View() == if fire then old(store.View())
                              else RecordEvent(old(store.View()), t.id, MaxInstancesReached, now)
    {
      var maxInstances;
      if t.cfg.maxInstances > 1 {
        maxInstances := Some(t.cfg.maxInstances);
      } else if t.cfg.allowOverlap {
        maxInstances := None;
      } else {
        maxInstances := Some(1);
      }
      match maxInstances {
        case None => return true;
        case Some(limit) =>
          var memCount := if t.id in running then running[t.id] else 0;
          var storeCount := store.CountRunning(t.id);
          var runningCount := if memCount >= storeCount then memCount else storeCount;
          if runningCount >= limit {
            store.AddEvent(t.id, MaxInstancesReached, now);
            return false;
          }
          return true;
      }
    }

    method OnStart(id: Id)
      modifies this
      ensures running == CountUp(old(running), id)
    {
      var c := if id in running then running[id] else 0;
      running := running[id := c + 1];
    }

    method OnFinish(id: Id)
      modifies this
      ensures running == CountDown(old(running), id)
    {
      if id in running {
        var c := running[id];
        if c > 0 {
          c := c - 1;
        }
        if c == 0 {
          running := running - {id};
        } else {
          running := running[id := c];
        }
      } else {
        assert running - {id} == running;
      }
    }
  }

  // ----- the protocol, one step per store or counter access -----

  type Flight = nat

  datatype ProloguePc =
    | Idle
    | Checking(id: Id)            // drained an id, before reading the counter
    | ReadCounter(id: Id, mem: nat)
    | Allowed(id: Id)             // should_fire said yes
    | Marked(id: Id)              // update_state(Running) succeeded
    | Counted(id: Id)             // on_start done, future not yet spawned

  /** The four ways out of a task future; each ends in one on_finish. */
  datatype ExitPath = CancelExit | AlreadyInterruptedExit | DispatchErrorExit | NormalExit

  datatype FlightPc = Executing(id: Id) | Exiting(id: Id, path: ExitPath) | Gone(id: Id)

  datatype OverlapSys = OverlapSys(
    running: Counters,
    rowRunning: set<Id>,
    prologue: ProloguePc,
    flights: map<Flight, FlightPc>)

  datatype OverlapAction =
    | Drain(id: Id)
    | LoadCounter
    | LoadRow
    | MarkRunning(ok: bool)
    | DoStart
    | Spawn(f: Flight)
    | ChooseExit(f: Flight, path: ExitPath)
    | DoFinish(f: Flight)
    | RowChanges(id: Id, isRunning: bool)

  const INITIAL: OverlapSys := OverlapSys(map[], {}, Idle, map[])

  predicate Enabled(s: OverlapSys, a: OverlapAction) {
    match a
    case Drain(_) => s.prologue.Idle?
    case LoadCounter => s.prologue.Checking?
    case LoadRow => s.prologue.ReadCounter?
    case MarkRunning(_) => s.prologue.Allowed?
    case DoStart => s.prologue.Marked?
    case Spawn(f) => s.prologue.Counted? && f !in s.flights
    case ChooseExit(f, _) => f in s.flights && s.flights[f].Executing?
    case DoFinish(f) => f in s.flights && s.flights[f].Exiting?
    case RowChanges(_, _) => true
  }

  /** `limit` gives each id its fixed cap. */
  function Step(limit: Id -> Option<nat>, s: OverlapSys, a: OverlapAction): OverlapSys
    requires Enabled(s, a)
  {
    match a
    case Drain(id) => s.(prologue := Checking(id))
    case LoadCounter =>
      var id := s.prologue.id;
      s.(prologue := if limit(id).None? then Allowed(id) else ReadCounter(id, CountOf(s.running, id)))
    case LoadRow =>
      var id := s.prologue.id;
      var row := if id in s.rowRunning then 1 else 0;
      var full := match limit(id) case None => false case Some(n) => Max(s.prologue.mem, row) >= n;
      s.(prologue := if full then Idle else Allowed(id))
    case MarkRunning(ok) =>
      var id := s.prologue.id;
      if ok then s.(prologue := Marked(id), rowRunning := s.rowRunning + {id})
      else s.(prologue := Idle)
    case DoStart =>
      s.(prologue := Counted(s.prologue.id), running := CountUp(s.running, s.prologue.id))
    case Spawn(f) => s.(prologue := Idle, flights := s.flights[f := Executing(s.prologue.id)])
    case ChooseExit(f, path) => s.(flights := s.flights[f := Exiting(s.flights[f].id, path)])
    case DoFinish(f) =>
      var id := s.flights[f].id;
      s.(flights := s.flights[f := Gone(id)], running := CountDown(s.running, id))
    case RowChanges(id, b) =>
      s.(rowRunning := if b then s.rowRunning + {id} else s.rowRunning - {id})
  }

  /** The rows may change at any time, to anything. */
  lemma RowsChangeFreely(limit: Id -> Option<nat>, s: OverlapSys, id: Id, isRunning: bool)
    ensures Enabled(s, RowChanges(id, isRunning))
    ensures var s' := Step(limit, s, RowChanges(id, isRunning));
            && (id in s'.rowRunning <==> isRunning)
            && s' == s.(rowRunning := s'.rowRunning)
            && s'.rowRunning - {id} == s.rowRunning - {id}
  {
  }

  /** Futures of an id that have not called on_finish. */
  ghost function LiveFlights(s: OverlapSys, id: Id): set<Flight> {
    set f | f in s.flights && !s.flights[f].Gone? && s.flights[f].id == id
  }

  /** Executions of an id between their on_start and their on_finish. */
  ghost function Executions(s: OverlapSys, id: Id): nat {
    |LiveFlights(s, id)| + (if s.prologue == Counted(id) then 1 else 0)
  }

  ghost predicate CounterExact(s: OverlapSys, id: Id) {
    CountOf(s.running, id) == Executions(s, id)
  }

  /** Counts an execution from the moment should_fire admitted it. */
  ghost predicate CapKept(s: OverlapSys, id: Id, n: nat) {
    && CountOf(s.running, id) <= n
    && (s.prologue == Allowed(id) || s.prologue == Marked(id) ==> CountOf(s.running, id) < n)
    && (s.prologue.ReadCounter? && s.prologue.id == id ==> CountOf(s.running, id) <= s.prologue.mem)
  }

  ghost predicate IsRun(limit: Id -> Option<nat>, s: OverlapSys, actions: seq<OverlapAction>, s': OverlapSys)
    decreases |actions|
  {
    if actions == [] then s' == s
    else Enabled(s, actions[0]) && IsRun(limit, Step(limit, s, actions[0]), actions[1..], s')
  }

  lemma SpawnKeepsCounter(limit: Id -> Option<nat>, s: OverlapSys, f: Flight, id: Id)
    requires CounterExact(s, id) && Enabled(s, Spawn(f))
    ensures CounterExact(Step(limit, s, Spawn(f)), id)
  {
    var s' := Step(limit, s, Spawn(f));
    if s.prologue.id == id {
      assert LiveFlights(s', id) == LiveFlights(s, id) + {f};
    } else {
      assert LiveFlights(s', id) == LiveFlights(s, id);
    }
  }

  lemma FinishKeepsCounter(limit: Id -> Option<nat>, s: OverlapSys, f: Flight, id: Id)
    requires CounterExact(s, id) && Enabled(s, DoFinish(f))
    ensures CounterExact(Step(limit, s, DoFinish(f)), id)
  {
    var s' := Step(limit, s, DoFinish(f));
    if s.flights[f].id == id {
      assert f in LiveFlights(s, id);
      assert LiveFlights(s', id) == LiveFlights(s, id) - {f};
    } else {
      assert LiveFlights(s', id) == LiveFlights(s, id);
    }
  }

  lemma StepKeepsCounter(limit: Id -> Option<nat>, s: OverlapSys, a: OverlapAction, id: Id)
    requires CounterExact(s, id) && Enabled(s, a)
    ensures CounterExact(Step(limit, s, a), id)
  {
    if a.Spawn? {
      SpawnKeepsCounter(limit, s, a.f, id);
    } else if a.DoFinish? {
      FinishKeepsCounter(limit, s, a.f, id);
    } else {
      assert LiveFlights(Step(limit, s, a), id) == LiveFlights(s, id);
    }
  }

  lemma StepKeepsCap(limit: Id -> Option<nat>, s: OverlapSys, a: OverlapAction, id: Id, n: nat)
    requires CapKept(s, id, n) && limit(id) == Some(n) && Enabled(s, a)
    ensures CapKept(Step(limit, s, a), id, n)
  {
  }

  lemma {:induction false} RunKeepsBalance(limit: Id -> Option<nat>, s: OverlapSys, actions: seq<OverlapAction>,
                                           s': OverlapSys, id: Id)
    requires CounterExact(s, id) && IsRun(limit, s, actions, s')
    requires limit(id).Some? ==> CapKept(s, id, limit(id).value)
    ensures CounterExact(s', id)
    ensures limit(id).Some? ==> CapKept(s', id, limit(id).value)
    decreases |actions|
  {
    if actions != [] {
      StepKeepsCounter(limit, s, actions[0], id);
      if limit(id).Some? {
        StepKeepsCap(limit, s, actions[0], id, limit(id).value);
      }
      RunKeepsBalance(limit, Step(limit, s, actions[0]), actions[1..], s', id);
    }
  }

  /** In every interleaving, whatever the rows do and also when marking a task
      Running fails, the counter of an id equals its executions between on_start
      and on_finish, and the executions never exceed the id's cap. */
  lemma CounterBalanceAndCap(limit: Id -> Option<nat>, actions: seq<OverlapAction>, s: OverlapSys, id: Id)
    requires IsRun(limit, INITIAL, actions, s)
    ensures CountOf(s.running, id) == Executions(s, id)
    ensures limit(id).Some? ==> Executions(s, id) <= limit(id).value
  {
    assert LiveFlights(INITIAL, id) == {};
    RunKeepsBalance(limit, INITIAL, actions, s, id);
  }

  /** A task is never blocked for good: with no execution left the counter reads
      zero, so only a row still marked Running can refuse a further dispatch. */
  lemma IdleTaskMayFire(limit: Id -> Option<nat>, actions: seq<OverlapAction>, s: OverlapSys, id: Id)
    requires IsRun(limit, INITIAL, actions, s)
    requires s.prologue.ReadCounter? && s.prologue.id == id && s.prologue.mem == CountOf(s.running, id)
    requires Executions(s, id) == 0 && id !in s.rowRunning
    requires limit(id).Some? ==> limit(id).value >= 1
    ensures Step(limit, s, LoadRow).prologue == Allowed(id)
  {
    CounterBalanceAndCap(limit, actions, s, id);
  }

  // ----- the interleaved steps refine the uninterrupted check and start -----

  lemma RunCons(limit: Id -> Option<nat>, s: OverlapSys, a: OverlapAction, rest: seq<OverlapAction>, s': OverlapSys)
    requires Enabled(s, a) && IsRun(limit, Step(limit, s, a), rest, s')
    ensures IsRun(limit, s, [a] + rest, s')
  {
    assert ([a] + rest)[1..] == rest;
  }

  /** A drained id that was admitted is marked, counted and spawned. */
  lemma SoloStart(limit: Id -> Option<nat>, s: OverlapSys, id: Id, f: Flight) returns (actions: seq<OverlapAction>)
    requires s.prologue == Allowed(id) && f !in s.flights
    ensures IsRun(limit, s, actions, s.(prologue := Idle, rowRunning := s.rowRunning + {id},
                                        running := CountUp(s.running, id), flights := s.flights[f := Executing(id)]))
  {
    var marked := Step(limit, s, MarkRunning(true));
    var counted := Step(limit, marked, DoStart);
    var spawned := Step(limit, counted, Spawn(f));
    RunCons(limit, counted, Spawn(f), [], spawned);
    RunCons(limit, marked, DoStart, [Spawn(f)] + [], spawned);
    RunCons(limit, s, MarkRunning(true), [DoStart] + ([Spawn(f)] + []), spawned);
    actions := [MarkRunning(true)] + ([DoStart] + ([Spawn(f)] + []));
  }

  /** Run without interference, the accesses of one prologue admit the task
      exactly if `MayFire` holds of the counters and the store; then they mark,
      count and spawn it, and otherwise they leave everything as it was. */
  lemma SoloRunIsMayFire(limit: Id -> Option<nat>, s: OverlapSys, st: StoreState, t: Task, f: Flight)
    returns (actions: seq<OverlapAction>, s': OverlapSys)
    requires s.prologue.Idle? && f !in s.flights && limit(t.id) == Limit(t.cfg)
    requires t.id in s.rowRunning <==> StoreCount(st, t.id) == 1
    ensures IsRun(limit, s, actions, s')
    ensures s' == if MayFire(s.running, st, t)
                  then s.(rowRunning := s.rowRunning + {t.id}, running := CountUp(s.running, t.id),
                          flights := s.flights[f := Executing(t.id)])
                  else s
  {
    var drained := Step(limit, s, Drain(t.id));
    var counted := Step(limit, drained, LoadCounter);
    if Limit(t.cfg).None? {
      var rest := SoloStart(limit, counted, t.id, f);
      s' := s.(rowRunning := s.rowRunning + {t.id}, running := CountUp(s.running, t.id),
               flights := s.flights[f := Executing(t.id)]);
      RunCons(limit, drained, LoadCounter, rest, s');
      RunCons(limit, s, Drain(t.id), [LoadCounter] + rest, s');
      actions := [Drain(t.id)] + ([LoadCounter] + rest);
    } else {
      var checked := Step(limit, counted, LoadRow);
      var rest;
      if MayFire(s.running, st, t) {
        rest := SoloStart(limit, checked, t.id, f);
        s' := s.(rowRunning := s.rowRunning + {t.id}, running := CountUp(s.running, t.id),
                 flights := s.flights[f := Executing(t.id)]);
      } else {
        rest, s' := [], s;
        assert checked == s;
      }
      RunCons(limit, counted, LoadRow, rest, s');
      RunCons(limit, drained, LoadCounter, [LoadRow] + rest, s');
      RunCons(limit, s, Drain(t.id), [LoadCounter] + ([LoadRow] + rest), s');
      actions := [Drain(t.id)] + ([LoadCounter] + ([LoadRow] + rest));
    }
  }
}
