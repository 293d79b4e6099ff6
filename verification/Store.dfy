/** The in-memory task store: its operations as functions on a store value, and
    the class that performs them in place on its maps and event log.

    No operation of this store fails except on a missing task. */
module Store {
  import opened Types

  /** `inserted` is a history of the tasks handed to `insert_task`. */
  datatype StoreState = StoreState(
    tasks: map<Id, Task>,
    results: map<Id, TaskResult>,
    events: seq<Event>,
    chains: map<Id, ChainRecord>,
    chords: map<Id, ChordRecord>,
    inserted: seq<Task>)

  const EMPTY_STORE: StoreState := StoreState(map[], map[], [], map[], map[], [])

  // ----- task rows -----

  function PutTask(s: StoreState, t: Task): StoreState {
    s.(tasks := s.tasks[t.id := t], inserted := s.inserted + [t])
  }

  function TaskWithState(t: Task, state: TaskState, started: Option<u64>, finished: Option<u64>): Task {
    t.(state := state,
       startedAt := if started.Some? then started else t.startedAt,
       finishedAt := if finished.Some? then finished else t.finishedAt)
  }

  function UpdateState(s: StoreState, id: Id, state: TaskState, started: Option<u64>,
                       finished: Option<u64>): StoreState {
    if id !in s.tasks then s
    else s.(tasks := s.tasks[id := TaskWithState(s.tasks[id], state, started, finished)])
  }

  function UpdateNextFire(s: StoreState, id: Id, nextFire: Option<u64>): StoreState {
    if id !in s.tasks then s
    else s.(tasks := s.tasks[id := s.tasks[id].(nextFire := nextFire)])
  }

  function SetAttemptsAndError(s: StoreState, id: Id, attempts: u32, error: Option<ErrorText>): StoreState {
    if id !in s.tasks then s
    else s.(tasks := s.tasks[id := s.tasks[id].(attempts := attempts, lastError := error)])
  }

  /** The new count, or nothing when the task is gone. */
  function IncrementExecutionCount(s: StoreState, id: Id): (StoreState, Option<u32>) {
    if id !in s.tasks then (s, None)
    else
      var n := WrappingIncrement(s.tasks[id].executionCount);
      (s.(tasks := s.tasks[id := s.tasks[id].(executionCount := n)]), Some(n))
  }

  function DeleteTask(s: StoreState, id: Id): StoreState {
    s.(tasks := s.tasks - {id}, results := s.results - {id})
  }

  function SaveResult(s: StoreState, id: Id, r: TaskResult): StoreState {
    s.(results := s.results[id := r])
  }

  function RecordEvent(s: StoreState, id: Id, kind: EventType, ts: u64): StoreState {
    s.(events := s.events + [Event(id, kind, ts)])
  }

  datatype CancelResult = CancelOk | CancelNotFound | CancelAlreadyTerminal

  function CancelTask(s: StoreState, id: Id, now: u64): (StoreState, CancelResult) {
    if id !in s.tasks then (s, CancelNotFound)
    else
      var t := s.tasks[id];
      match t.state
      case Pending =>
        (RecordEvent(s.(tasks := s.tasks[id := t.(state := Cancelled, finishedAt := Some(now))]),
                     id, CancelledEvent, now), CancelOk)
      case Running =>
        (s.(tasks := s.tasks[id := t.(cancelRequested := true)]), CancelOk)
      case _ => (s, CancelAlreadyTerminal)
  }

  function RequeueTask(s: StoreState, id: Id, now: u64): (StoreState, bool) {
    if id !in s.tasks || !s.tasks[id].state.IsTerminal() then (s, false)
    else
      (s.(tasks := s.tasks[id := s.tasks[id].(
        state := Pending, attempts := 0, lastError := None, startedAt := None,
        finishedAt := None, cancelRequested := false, nextFire := Some(now))]), true)
  }

  predicate IsActive(t: Task) {
    !t.state.IsTerminal()
  }

  /** A result of `load_active_tasks`: the active rows, each once, in any order. */
  ghost predicate IsActiveList(s: StoreState, list: seq<Task>) {
    && (forall i :: 0 <= i < |list| ==>
          list[i].id in s.tasks && s.tasks[list[i].id] == list[i] && IsActive(list[i]))
    && (forall id :: id in s.tasks && IsActive(s.tasks[id]) ==> s.tasks[id] in list)
    && (forall i, j :: 0 <= i < j < |list| ==> list[i].id != list[j].id)
  }

  /** Rows are stored under their own id. */
  ghost predicate Keyed(s: StoreState) {
    forall id :: id in s.tasks ==> s.tasks[id].id == id
  }

  // ----- chain and chord records -----

  function CreateChain(s: StoreState, chainId: Id, tasks: seq<TaskConfig>): StoreState {
    s.(chains := s.chains[chainId := ChainRecord(tasks, 0, RecPending)])
  }

  function UpdateChainStep(s: StoreState, chainId: Id, step: nat, state: RecordState): StoreState {
    if chainId !in s.chains then s
    else s.(chains := s.chains[chainId := s.chains[chainId].(currentStep := step, state := state)])
  }

  function CreateChord(s: StoreState, chordId: Id, headerIds: seq<Id>, callback: TaskConfig): StoreState {
    s.(chords := s.chords[chordId := ChordRecord(headerIds, callback, None, RecPending)])
  }

  function ChordWith(r: ChordRecord, state: RecordState, callbackTaskId: Option<Id>): ChordRecord {
    r.(state := state,
       callbackTaskId := if callbackTaskId.Some? then callbackTaskId else r.callbackTaskId)
  }

  function UpdateChordState(s: StoreState, chordId: Id, state: RecordState, callbackTaskId: Option<Id>): StoreState {
    if chordId !in s.chords then s
    else s.(chords := s.chords[chordId := ChordWith(s.chords[chordId], state, callbackTaskId)])
  }

  // ----- counting events -----

  function CountEvents(es: seq<Event>, id: Id, kind: EventType): nat {
    if es == [] then 0
    else
      CountEvents(es[..|es| - 1], id, kind)
      + (if es[|es| - 1].taskId == id && es[|es| - 1].kind == kind then 1 else 0)
  }

  lemma CountAppend(es: seq<Event>, e: Event, id: Id, kind: EventType)
    ensures CountEvents(es + [e], id, kind)
         == CountEvents(es, id, kind) + (if e.taskId == id && e.kind == kind then 1 else 0)
  {
    assert (es + [e])[..|es|] == es;
  }

  // ----- the store object -----

  class InMemoryStore {
    var tasks: map<Id, Task>
    var results: map<Id, TaskResult>
    var events: seq<Event>
    var chains: map<Id, ChainRecord>
    var chords: map<Id, ChordRecord>
    ghost var inserted: seq<Task>

    ghost function View(): StoreState
      reads this
    {
      StoreState(tasks, results, events, chains, chords, inserted)
    }

    constructor ()
      ensures View() == EMPTY_STORE
    {
      tasks, results, events, chains, chords := map[], map[], [], map[], map[];
      inserted := [];
    }

    method InsertTask(t: Task)
      modifies this
      ensures View() == PutTask(old(View()), t)
    {
      tasks := tasks[t.id := t];
      inserted := inserted + [t];
    }

    method LoadTask(id: Id) returns (t: Option<Task>)
      ensures t == if id in tasks then Some(tasks[id]) else None
    {
      t := if id in tasks then Some(tasks[id]) else None;
    }

    method SetState(id: Id, state: TaskState, started: Option<u64>, finished: Option<u64>)
      modifies this
      ensures View() == UpdateState(old(View()), id, state, started, finished)
    {
      if id in tasks {
        var t := tasks[id].(state := state);
        if started.Some? {
          t := t.(startedAt := started);
        }
        if finished.Some? {
          t := t.(finishedAt := finished);
        }
        tasks := tasks[id := t];
      }
    }

    method SetNextFire(id: Id, nextFire: Option<u64>)
      modifies this
      ensures View() == UpdateNextFire(old(View()), id, nextFire)
    {
      if id in tasks {
        tasks := tasks[id := tasks[id].(nextFire := nextFire)];
      }
    }

    method SetAttempts(id: Id, attempts: u32, error: Option<ErrorText>)
      modifies this
      ensures View() == SetAttemptsAndError(old(View()), id, attempts, error)
    {
      if id in tasks {
        tasks := tasks[id := tasks[id].(attempts := attempts, lastError := error)];
      }
    }

    method IncrementExecutions(id: Id) returns (count: Option<u32>)
      modifies this
      ensures (View(), count) == IncrementExecutionCount(old(View()), id)
    {
      if id !in tasks {
        return None;
      }
      var t := tasks[id];
      t := t.(executionCount := WrappingIncrement(t.executionCount));
      tasks := tasks[id := t];
      count := Some(t.executionCount);
    }

    method Delete(id: Id)
      modifies this
      ensures View() == DeleteTask(old(View()), id)
    {
      tasks := tasks - {id};
      results := results - {id};
    }

    method StoreResult(id: Id, r: TaskResult)
      modifies this
      ensures View() == SaveResult(old(View()), id, r)
    {
      results := results[id := r];
    }

    method AddEvent(id: Id, kind: EventType, ts: u64)
      modifies this
      ensures View() == RecordEvent(old(View()), id, kind, ts)
    {
      events := events + [Event(id, kind, ts)];
    }

    method Cancel(id: Id, now: u64) returns (r: CancelResult)
      modifies this
      ensures (View(), r) == CancelTask(old(View()), id, now)
    {
      if id !in tasks {
        return CancelNotFound;
      }
      var t := tasks[id];
      match t.state {
        case Pending =>
          tasks := tasks[id := t.(state := Cancelled, finishedAt := Some(now))];
          AddEvent(id, CancelledEvent, now);
        case Running =>
          tasks := tasks[id := t.(cancelRequested := true)];
        case _ =>
          return CancelAlreadyTerminal;
      }
      r := CancelOk;
    }

    method Requeue(id: Id, now: u64) returns (ok: bool)
      modifies this
      ensures (View(), ok) == RequeueTask(old(View()), id, now)
    {
      if id !in tasks {
        return false;
      }
      var t := tasks[id];
      if !(t.state.Cancelled? || t.state.Failed? || t.state.Expired? || t.state.Success?) {
        return false;
      }
      t := t.(state := Pending, attempts := 0, lastError := None, startedAt := None);
      t := t.(finishedAt := None, cancelRequested := false, nextFire := Some(now));
      tasks := tasks[id := t];
      ok := true;
    }

    /** Running rows count as one running instance. */
    method CountRunning(id: Id) returns (n: nat)
      ensures n == if id in tasks && tasks[id].state.Running? then 1 else 0
    {
      n := if id in tasks && tasks[id].state.Running? then 1 else 0;
    }

    method LoadActive() returns (list: seq<Task>)
      requires Keyed(View())
      ensures IsActiveList(View(), list)
    {
      list := [];
      var todo := tasks.Keys;
      while todo != {}
        invariant todo <= tasks.Keys
        invariant forall i :: 0 <= i < |list| ==>
                    list[i].id in tasks && list[i].id !in todo && tasks[list[i].id] == list[i] && IsActive(list[i])
        invariant forall id :: id in tasks && id !in todo && IsActive(tasks[id]) ==> tasks[id] in list
        invariant forall i, j :: 0 <= i < j < |list| ==> list[i].id != list[j].id
        decreases todo
      {
        var id :| id in todo;
        if IsActive(tasks[id]) {
          list := list + [tasks[id]];
        }
        todo := todo - {id};
      }
    }

    method NewChain(chainId: Id, configs: seq<TaskConfig>)
      modifies this
      ensures View() == CreateChain(old(View()), chainId, configs)
    {
      chains := chains[chainId := ChainRecord(configs, 0, RecPending)];
    }

    method SetChainStep(chainId: Id, step: nat, state: RecordState)
      modifies this
      ensures View() == UpdateChainStep(old(View()), chainId, step, state)
    {
      if chainId in chains {
        chains := chains[chainId := chains[chainId].(currentStep := step, state := state)];
      }
    }

    method NewChord(chordId: Id, headerIds: seq<Id>, callback: TaskConfig)
      modifies this
      ensures View() == CreateChord(old(View()), chordId, headerIds, callback)
    {
      chords := chords[chordId := ChordRecord(headerIds, callback, None, RecPending)];
    }

    method SetChordState(chordId: Id, state: RecordState, callbackTaskId: Option<Id>)
      modifies this
      ensures View() == UpdateChordState(old(View()), chordId, state, callbackTaskId)
    {
      if chordId in chords {
        var c := chords[chordId].(state := state);
        if callbackTaskId.Some? {
          c := c.(callbackTaskId := callbackTaskId);
        }
        chords := chords[chordId := c];
      }
    }
  }
}
