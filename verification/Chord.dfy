/** Task chords: `refresh_state` under the per-chord mutex, as a store operation
    and interleaved at every store call with other callers and with arbitrary
    changes of the header tasks. */
module Chord {
  import opened Types
  import opened Store

  datatype RefreshResult = RefreshResult(newState: RecordState, callbackTaskId: Option<Id>)

  predicate IsFailureOutcome(s: TaskState) {
    s.Failed? || s.Expired? || s.Cancelled? || s.Interrupted?
  }

  /** The accumulators of the loop over the header ids. */
  datatype Tally = Tally(succeeded: nat, failed: nat, results: seq<HeaderResult>)

  function TallyOne(t: Tally, id: Id, task: Option<Task>, result: Option<TaskResult>): Tally {
    if task.None? then t
    else if task.value.state.Success? then
      Tally(t.succeeded + 1, t.failed, t.results + [HeaderResult(id, result)])
    else if IsFailureOutcome(task.value.state) then t.(failed := t.failed + 1)
    else t
  }

  function Lookup<V>(m: map<Id, V>, id: Id): Option<V> {
    if id in m then Some(m[id]) else None
  }

  function TallyAll(s: StoreState, ids: seq<Id>): Tally {
    if ids == [] then Tally(0, 0, [])
    else
      var id := ids[|ids| - 1];
      TallyOne(TallyAll(s, ids[..|ids| - 1]), id, Lookup(s.tasks, id), Lookup(s.results, id))
  }

  /** The callback's configuration: its metadata is the array of results, so it
      carries no chain marker. */
  function CallbackConfig(r: ChordRecord, results: seq<HeaderResult>): TaskConfig {
    r.callback.(chainId := None, headerResults := results)
  }

  datatype Built = Built(id: Id, nextFire: Option<u64>)

  /** One uninterrupted `refresh_state`. `built` is what building the callback
      task yields, nothing when the configuration does not build; the call then
      fails and writes nothing. */
  function Refresh(s: StoreState, chordId: Id, built: Option<Built>, now: u64): (StoreState, Option<RefreshResult>) {
    if chordId !in s.chords then (s, Some(RefreshResult(RecPending, None)))
    else
      var r := s.chords[chordId];
      match r.state
      case RecSuccess => (s, Some(RefreshResult(RecSuccess, r.callbackTaskId)))
      case RecPartialFailed => (s, Some(RefreshResult(RecPartialFailed, None)))
      case _ =>
        var total := |r.headerIds|;
        if total == 0 then
          (UpdateChordState(s, chordId, RecSuccess, None), Some(RefreshResult(RecSuccess, None)))
        else
          var t := TallyAll(s, r.headerIds);
          if t.failed > 0 then
            (UpdateChordState(s, chordId, RecPartialFailed, None), Some(RefreshResult(RecPartialFailed, None)))
          else if t.succeeded == total then
            if built.None? then (s, None)
            else
              var b := built.value;
              var task := NewTask(b.id, CallbackConfig(r, t.results), b.nextFire, now);
              (UpdateChordState(PutTask(s, task), chordId, RecSuccess, Some(b.id)),
               Some(RefreshResult(RecSuccess, Some(b.id))))
          else
            (UpdateChordState(s, chordId, RecRunning, None), Some(RefreshResult(RecRunning, None)))
  }

  method RefreshState(store: InMemoryStore, chordId: Id, built: Option<Built>, now: u64)
    returns (result: Option<RefreshResult>)
    modifies store
    ensures (store.View(), result) == Refresh(old(store.View()), chordId, built, now)
  {
    if chordId !in store.chords {
      return Some(RefreshResult(RecPending, None));
    }
    var record := store.chords[chordId];
    match record.state {
      case RecSuccess => return Some(RefreshResult(RecSuccess, record.callbackTaskId));
      case RecPartialFailed => return Some(RefreshResult(RecPartialFailed, None));
      case _ =>
    }
    var total := |record.headerIds|;
    if total == 0 {
      store.SetChordState(chordId, RecSuccess, None);
      return Some(RefreshResult(RecSuccess, None));
    }
    var succeeded, failed, results := 0, 0, [];
    var i := 0;
    while i < total
      invariant 0 <= i <= total
      invariant Tally(succeeded, failed, results) == TallyAll(store.View(), record.headerIds[..i])
    {
      var tid := record.headerIds[i];
      assert record.headerIds[..i + 1][..i] == record.headerIds[..i];
      if tid in store.tasks {
        match store.tasks[tid].state {
          case Success =>
            succeeded := succeeded + 1;
            var r := if tid in store.results then Some(store.results[tid]) else None;
            results := results + [HeaderResult(tid, r)];
          case Failed | Expired | Cancelled | Interrupted => failed := failed + 1;
          case _ =>
        }
      }
      i := i + 1;
    }
    assert record.headerIds[..i] == record.headerIds;
    if failed > 0 {
      store.SetChordState(chordId, RecPartialFailed, None);
      return Some(RefreshResult(RecPartialFailed, None));
    }
    if succeeded == total && total > 0 {
      if built.None? {
        return None;
      }
      var task := NewTask(built.value.id, CallbackConfig(record, results), built.value.nextFire, now);
      store.InsertTask(task);
      store.SetChordState(chordId, RecSuccess, Some(built.value.id));
      return Some(RefreshResult(RecSuccess, Some(built.value.id)));
    }
    store.SetChordState(chordId, RecRunning, None);
    result := Some(RefreshResult(RecRunning, None));
  }

  // ----- one chord, many callers, one step per store call -----

  type Caller = nat

  /** `seen` records, for the proofs, the header states the loop observed. */
  datatype Loop = Loop(rec: ChordRecord, tally: Tally, seen: seq<Option<TaskState>>)

  datatype Pc =
    | Waiting
    | Locked
    | Loading(loop: Loop)                    // about to load header number |seen|
    | LoadingResult(loop: Loop)              // that header was Success; load its result
    | Inserting(loop: Loop)                  // all succeeded; build and insert the callback
    | Recording(callbackId: Id)              // inserted; write "success" with its id
    | WritingState(state: RecordState)
    | Done(result: Option<RefreshResult>)

  datatype Inserted = Inserted(id: Id, cfg: TaskConfig, headers: seq<Id>, seen: seq<Option<TaskState>>)

  datatype ChordSys = ChordSys(
    record: Option<ChordRecord>,
    states: map<Id, TaskState>,
    results: map<Id, TaskResult>,
    lock: Option<Caller>,
    pcs: map<Caller, Pc>,
    inserted: seq<Inserted>)

  datatype ChordAction =
    | CreateRecord(headers: seq<Id>, callback: TaskConfig)
    | SetHeader(id: Id, headerState: Option<TaskState>, headerResult: Option<TaskResult>)
    | Call(c: Caller)
    | Acquire(c: Caller)
    | ReadRecord(c: Caller)
    | LoadTask(c: Caller)
    | LoadResult(c: Caller)
    | InsertCallback(c: Caller, newId: Option<Id>)
    | WriteCallback(c: Caller)
    | WriteState(c: Caller)

  const INITIAL: ChordSys := ChordSys(None, map[], map[], None, map[], [])

  predicate Enabled(s: ChordSys, a: ChordAction) {
    match a
    case CreateRecord(_, _) => s.record.None?
    case SetHeader(_, _, _) => true
    case Call(c) => c !in s.pcs
    case Acquire(c) => c in s.pcs && s.pcs[c] == Waiting && s.lock.None?
    case ReadRecord(c) => c in s.pcs && s.pcs[c] == Locked
    case LoadTask(c) => c in s.pcs && s.pcs[c].Loading? && |s.pcs[c].loop.seen| < |s.pcs[c].loop.rec.headerIds|
    case LoadResult(c) => c in s.pcs && s.pcs[c].LoadingResult? && |s.pcs[c].loop.seen| < |s.pcs[c].loop.rec.headerIds|
    case InsertCallback(c, _) => c in s.pcs && s.pcs[c].Inserting?
    case WriteCallback(c) => c in s.pcs && s.pcs[c].Recording?
    case WriteState(c) => c in s.pcs && s.pcs[c].WritingState?
  }

  /** Where the loop goes after one header: the next one, or the decision. */
  function NextPc(l: Loop): Pc {
    if |l.seen| < |l.rec.headerIds| then Loading(l)
    else if l.tally.failed > 0 then WritingState(RecPartialFailed)
    else if l.tally.succeeded == |l.rec.headerIds| && |l.rec.headerIds| > 0 then Inserting(l)
    else WritingState(RecRunning)
  }

  function Finish(s: ChordSys, c: Caller, result: Option<RefreshResult>): ChordSys {
    s.(lock := None, pcs := s.pcs[c := Done(result)])
  }

  function WriteRecord(s: ChordSys, state: RecordState, callbackId: Option<Id>): Option<ChordRecord> {
    match s.record
    case None => None
    case Some(r) => Some(ChordWith(r, state, callbackId))
  }

  function Step(s: ChordSys, a: ChordAction): ChordSys
    requires Enabled(s, a)
  {
    match a
    case CreateRecord(headers, callback) => s.(record := Some(ChordRecord(headers, callback, None, RecPending)))
    case SetHeader(id, state, result) =>
      s.(states := if state.Some? then s.states[id := state.value] else s.states - {id},
         results := if result.Some? then s.results[id := result.value] else s.results - {id})
    case Call(c) => s.(pcs := s.pcs[c := Waiting])
    case Acquire(c) => s.(lock := Some(c), pcs := s.pcs[c := Locked])
    case ReadRecord(c) =>
      (match s.record
       case None => Finish(s, c, Some(RefreshResult(RecPending, None)))
       case Some(r) =>
         if r.state == RecSuccess then Finish(s, c, Some(RefreshResult(RecSuccess, r.callbackTaskId)))
         else if r.state == RecPartialFailed then Finish(s, c, Some(RefreshResult(RecPartialFailed, None)))
         else if r.headerIds == [] then s.(pcs := s.pcs[c := WritingState(RecSuccess)])
         else s.(pcs := s.pcs[c := Loading(Loop(r, Tally(0, 0, []), []))]))
    case LoadTask(c) =>
      var l := s.pcs[c].loop;
      var state := Lookup(s.states, l.rec.headerIds[|l.seen|]);
      if state == Some(Success) then s.(pcs := s.pcs[c := LoadingResult(l)])
      else
        var failed := if state.Some? && IsFailureOutcome(state.value) then l.tally.failed + 1 else l.tally.failed;
        s.(pcs := s.pcs[c := NextPc(l.(tally := l.tally.(failed := failed), seen := l.seen + [state]))])
    case LoadResult(c) =>
      var l := s.pcs[c].loop;
      var id := l.rec.headerIds[|l.seen|];
      var tally := Tally(l.tally.succeeded + 1, l.tally.failed,
                         l.tally.results + [HeaderResult(id, Lookup(s.results, id))]);
      s.(pcs := s.pcs[c := NextPc(l.(tally := tally, seen := l.seen + [Some(Success)]))])
    case InsertCallback(c, id) =>
      if id.None? then Finish(s, c, None)
      else
        var l := s.pcs[c].loop;
        var cfg := CallbackConfig(l.rec, l.tally.results);
        s.(inserted := s.inserted + [Inserted(id.value, cfg, l.rec.headerIds, l.seen)],
           pcs := s.pcs[c := Recording(id.value)])
    case WriteCallback(c) =>
      var id := s.pcs[c].callbackId;
      Finish(s.(record := WriteRecord(s, RecSuccess, Some(id))), c, Some(RefreshResult(RecSuccess, Some(id))))
    case WriteState(c) =>
      var state := s.pcs[c].state;
      Finish(s.(record := WriteRecord(s, state, None)), c, Some(RefreshResult(state, None)))
  }

  ghost predicate IsRun(s: ChordSys, actions: seq<ChordAction>, s': ChordSys)
    decreases |actions|
  {
    if actions == [] then s' == s
    else Enabled(s, actions[0]) && IsRun(Step(s, actions[0]), actions[1..], s')
  }

  // ----- at most one callback -----

  predicate HoldsLock(pc: Pc) {
    !pc.Waiting? && !pc.Done?
  }

  predicate IsTerminalRecord(r: ChordRecord) {
    r.state == RecSuccess || r.state == RecPartialFailed
  }

  function ResultIds(rs: seq<HeaderResult>): seq<Id> {
    seq(|rs|, i requires 0 <= i < |rs| => rs[i].id)
  }

  ghost predicate AllSucceeded(seen: seq<Option<TaskState>>) {
    forall i :: 0 <= i < |seen| ==> seen[i] == Some(Success)
  }

  /** The accumulators agree with what the loop saw: no more successes than
      headers visited, and if none was missed, all were Success and the results
      carry their ids in order. */
  ghost predicate LoopAgrees(l: Loop) {
    && |l.seen| <= |l.rec.headerIds|
    && l.tally.succeeded <= |l.seen|
    && (l.tally.succeeded == |l.seen| ==>
          AllSucceeded(l.seen) && ResultIds(l.tally.results) == l.rec.headerIds[..|l.seen|])
  }

  predicate SameRequest(read: ChordRecord, r: ChordRecord) {
    read.headerIds == r.headerIds && read.callback == r.callback
  }

  ghost predicate PcAgrees(pc: Pc, r: ChordRecord, inserted: seq<Inserted>) {
    match pc
    case Loading(l) =>
      LoopAgrees(l) && SameRequest(l.rec, r) && |l.seen| < |l.rec.headerIds| && !IsTerminalRecord(r) && inserted == []
    case LoadingResult(l) =>
      LoopAgrees(l) && SameRequest(l.rec, r) && |l.seen| < |l.rec.headerIds| && !IsTerminalRecord(r) && inserted == []
    case Inserting(l) =>
      && LoopAgrees(l) && SameRequest(l.rec, r) && |l.seen| == |l.rec.headerIds| == l.tally.succeeded > 0
      && !IsTerminalRecord(r) && inserted == []
    case Recording(id) => !IsTerminalRecord(r) && |inserted| == 1 && inserted[0].id == id
    case WritingState(state) =>
      && !IsTerminalRecord(r) && inserted == []
      && (state == RecSuccess ==> r.headerIds == [])
      && (state == RecRunning || state == RecPartialFailed || state == RecSuccess)
    case _ => true
  }

  ghost predicate SomebodyRecording(s: ChordSys) {
    s.lock.Some? && s.lock.value in s.pcs && s.pcs[s.lock.value].Recording?
  }

  /** What a callback insertion must have been preceded by. */
  ghost predicate Justified(i: Inserted, r: ChordRecord) {
    && i.headers == r.headerIds && r.headerIds != []
    && |i.seen| == |i.headers| && AllSucceeded(i.seen)
    && i.cfg == CallbackConfig(r, i.cfg.headerResults)
    && ResultIds(i.cfg.headerResults) == r.headerIds
  }

  ghost predicate Inv(s: ChordSys) {
    && (forall c :: c in s.pcs ==> (HoldsLock(s.pcs[c]) <==> s.lock == Some(c)))
    && (s.lock.Some? ==> s.lock.value in s.pcs)
    && |s.inserted| <= 1
    && (s.record.None? ==>
          s.inserted == [] && forall c :: c in s.pcs && HoldsLock(s.pcs[c]) ==> s.pcs[c] == Locked)
    && (s.record.Some? ==>
          var r := s.record.value;
          && r.state != RecFailed
          && (forall c :: c in s.pcs ==> PcAgrees(s.pcs[c], r, s.inserted))
          && (forall i :: 0 <= i < |s.inserted| ==> Justified(s.inserted[i], r))
          && (r.callbackTaskId.Some? <==> s.inserted != [] && !SomebodyRecording(s))
          && (r.callbackTaskId.Some? ==> r.state == RecSuccess && r.callbackTaskId.value == s.inserted[0].id)
          && (r.state == RecSuccess && r.headerIds != [] ==> r.callbackTaskId.Some?))
  }

  lemma LoopStep(l: Loop, id: Id, state: Option<TaskState>, result: Option<TaskResult>)
    requires LoopAgrees(l) && |l.seen| < |l.rec.headerIds| && id == l.rec.headerIds[|l.seen|]
    ensures state != Some(Success) ==>
              forall f: nat :: LoopAgrees(l.(tally := l.tally.(failed := f), seen := l.seen + [state]))
    ensures LoopAgrees(l.(tally := Tally(l.tally.succeeded + 1, l.tally.failed,
                                         l.tally.results + [HeaderResult(id, result)]),
                          seen := l.seen + [Some(Success)]))
  {
    if l.tally.succeeded == |l.seen| {
      assert ResultIds(l.tally.results + [HeaderResult(id, result)]) == ResultIds(l.tally.results) + [id];
      assert l.rec.headerIds[..|l.seen| + 1] == l.rec.headerIds[..|l.seen|] + [id];
    }
  }

  /** Only the caller's point changes, while it holds the lock. */
  predicate PcMoves(s: ChordSys, s': ChordSys, c: Caller, pc: Pc) {
    && c in s.pcs && HoldsLock(s.pcs[c]) && HoldsLock(pc) && !s.pcs[c].Recording? && !pc.Recording?
    && s' == s.(pcs := s.pcs[c := pc])
  }

  lemma PcMoveKeepsInv(s: ChordSys, s': ChordSys, c: Caller, pc: Pc)
    requires Inv(s) && s.record.Some? && PcMoves(s, s', c, pc) && PcAgrees(pc, s.record.value, s.inserted)
    ensures Inv(s')
  {
  }

  lemma FinishKeepsInv(s: ChordSys, c: Caller, result: Option<RefreshResult>)
    requires Inv(s) && c in s.pcs && HoldsLock(s.pcs[c]) && !s.pcs[c].Recording?
    ensures Inv(Finish(s, c, result))
  {
  }

  lemma NextPcAgrees(l: Loop, r: ChordRecord)
    requires LoopAgrees(l) && SameRequest(l.rec, r) && !IsTerminalRecord(r) && l.rec.headerIds != []
    ensures PcAgrees(NextPc(l), r, []) && HoldsLock(NextPc(l)) && !NextPc(l).Recording?
  {
    FullLoopIsAll(l);
  }

  lemma LoadKeepsInv(s: ChordSys, c: Caller, a: ChordAction)
    requires Inv(s) && Enabled(s, a) && (a == LoadTask(c) || a == LoadResult(c))
    ensures Inv(Step(s, a))
  {
    assert s.record.Some? && PcAgrees(s.pcs[c], s.record.value, s.inserted);
    var l, s' := s.pcs[c].loop, Step(s, a);
    var id := l.rec.headerIds[|l.seen|];
    LoopStep(l, id, Lookup(s.states, id), Lookup(s.results, id));
    if s'.pcs[c] != LoadingResult(l) {
      NextPcAgrees(AfterHeader(s, l, a.LoadTask?), s.record.value);
    }
    PcMoveKeepsInv(s, s', c, s'.pcs[c]);
  }

  /** The loop after a header that is not in Success, or the result of one. */
  function AfterHeader(s: ChordSys, l: Loop, load: bool): Loop
    requires |l.seen| < |l.rec.headerIds|
  {
    var id := l.rec.headerIds[|l.seen|];
    var state := Lookup(s.states, id);
    if load then
      l.(tally := l.tally.(failed := if state.Some? && IsFailureOutcome(state.value) then l.tally.failed + 1
                                     else l.tally.failed),
         seen := l.seen + [state])
    else
      l.(tally := Tally(l.tally.succeeded + 1, l.tally.failed,
                        l.tally.results + [HeaderResult(id, Lookup(s.results, id))]),
         seen := l.seen + [Some(Success)])
  }

  lemma FullLoopIsAll(l: Loop)
    ensures l.rec.headerIds[..|l.rec.headerIds|] == l.rec.headerIds
  {
  }

  lemma StepKeepsInv(s: ChordSys, a: ChordAction)
    requires Inv(s) && Enabled(s, a)
    ensures Inv(Step(s, a))
  {
    match a
    case LoadTask(c) => LoadKeepsInv(s, c, a);
    case LoadResult(c) => LoadKeepsInv(s, c, a);
    case InsertCallback(c, id) => InsertKeepsInv(s, c, id);
    case CreateRecord(_, _) =>
    case SetHeader(_, _, _) =>
    case Call(c) => WaitKeepsInv(s, a);
    case Acquire(c) => WaitKeepsInv(s, a);
    case ReadRecord(c) => ReadKeepsInv(s, c);
    case WriteCallback(c) => WriteKeepsInv(s, c, a);
    case WriteState(c) => WriteKeepsInv(s, c, a);
  }

  lemma WaitKeepsInv(s: ChordSys, a: ChordAction)
    requires Inv(s) && Enabled(s, a) && (a.Call? || a.Acquire?)
    ensures Inv(Step(s, a))
  {
  }

  lemma ReadKeepsInv(s: ChordSys, c: Caller)
    requires Inv(s) && Enabled(s, ReadRecord(c))
    ensures Inv(Step(s, ReadRecord(c)))
  {
    var s' := Step(s, ReadRecord(c));
    if s.record.None? || IsTerminalRecord(s.record.value) {
      FinishKeepsInv(s, c, s'.pcs[c].result);
    } else {
      FreshLoopAgrees(s.record.value);
      NobodyInserted(s, c);
      PcMoveKeepsInv(s, s', c, s'.pcs[c]);
    }
  }

  lemma FreshLoopAgrees(r: ChordRecord)
    requires !IsTerminalRecord(r)
    ensures r.headerIds != [] ==> PcAgrees(Loading(Loop(r, Tally(0, 0, []), [])), r, [])
    ensures r.headerIds == [] ==> PcAgrees(WritingState(RecSuccess), r, [])
  {
    assert ResultIds([]) == r.headerIds[..0];
  }

  /** A live record read under the lock has no callback yet. */
  lemma NobodyInserted(s: ChordSys, c: Caller)
    requires Inv(s) && c in s.pcs && s.pcs[c] == Locked && s.record.Some? && !IsTerminalRecord(s.record.value)
    ensures s.inserted == []
  {
  }

  lemma JustifiedStays(inserted: seq<Inserted>, r: ChordRecord, r': ChordRecord)
    requires r'.headerIds == r.headerIds && r'.callback == r.callback
    requires forall i :: 0 <= i < |inserted| ==> Justified(inserted[i], r)
    ensures forall i :: 0 <= i < |inserted| ==> Justified(inserted[i], r')
  {
    forall i | 0 <= i < |inserted|
      ensures Justified(inserted[i], r')
    {
      assert Justified(inserted[i], r);
    }
  }

  lemma WriteKeepsInv(s: ChordSys, c: Caller, a: ChordAction)
    requires Inv(s) && Enabled(s, a) && (a == WriteCallback(c) || a == WriteState(c))
    ensures Inv(Step(s, a))
  {
    if s.record.Some? {
      JustifiedStays(s.inserted, s.record.value, Step(s, a).record.value);
    }
  }

  lemma InsertKeepsInv(s: ChordSys, c: Caller, id: Option<Id>)
    requires Inv(s) && Enabled(s, InsertCallback(c, id))
    ensures Inv(Step(s, InsertCallback(c, id)))
  {
    if id.Some? {
      var l := s.pcs[c].loop;
      FullLoopIsAll(l);
      var r := s.record.value;
      var i := Inserted(id.value, CallbackConfig(l.rec, l.tally.results), l.rec.headerIds, l.seen);
      assert Justified(i, r);
    }
  }

  /** A terminal record never changes again. */
  lemma TerminalIsAbsorbing(s: ChordSys, a: ChordAction)
    requires Inv(s) && Enabled(s, a) && s.record.Some? && IsTerminalRecord(s.record.value)
    ensures Step(s, a).record == s.record && Step(s, a).inserted == s.inserted
  {
  }

  lemma {:induction false} RunKeepsInv(s: ChordSys, actions: seq<ChordAction>, s': ChordSys)
    requires Inv(s) && IsRun(s, actions, s')
    ensures Inv(s')
    ensures s.record.Some? && IsTerminalRecord(s.record.value) ==>
              s'.record == s.record && s'.inserted == s.inserted
    decreases |actions|
  {
    if actions != [] {
      StepKeepsInv(s, actions[0]);
      if s.record.Some? && IsTerminalRecord(s.record.value) {
        TerminalIsAbsorbing(s, actions[0]);
      }
      RunKeepsInv(Step(s, actions[0]), actions[1..], s');
    }
  }

  /** Over every interleaving of refreshes with header changes: at most one
      callback is ever inserted; if one is, the caller saw every header in
      Success and the callback's metadata lists the header ids in order; a
      partially failed chord has none; an ended chord with headers has exactly
      one or is partially failed. */
  lemma CallbackAtMostOnce(actions: seq<ChordAction>, s: ChordSys)
    requires IsRun(INITIAL, actions, s) && s.record.Some?
    ensures |s.inserted| <= 1
    ensures forall i :: 0 <= i < |s.inserted| ==> Justified(s.inserted[i], s.record.value)
    ensures s.record.value.state == RecPartialFailed ==>
              s.inserted == [] && s.record.value.callbackTaskId.None?
    ensures s.record.value.state == RecSuccess && s.record.value.headerIds != [] ==>
              |s.inserted| == 1 && s.record.value.callbackTaskId == Some(s.inserted[0].id)
  {
    RunKeepsInv(INITIAL, actions, s);
  }

  /** "success" and "partial_failed" are final over every continuation. */
  lemma EndedChordsStayEnded(actions: seq<ChordAction>, s: ChordSys, more: seq<ChordAction>, s': ChordSys)
    requires IsRun(INITIAL, actions, s) && s.record.Some? && IsTerminalRecord(s.record.value)
    requires IsRun(s, more, s')
    ensures s'.record == s.record && s'.inserted == s.inserted
  {
    RunKeepsInv(INITIAL, actions, s);
    RunKeepsInv(s, more, s');
  }

  // ----- the uninterrupted refresh -----

  /** The header ended without success: failed, expired, cancelled or interrupted. */
  predicate HasFailed(s: StoreState, id: Id) {
    id in s.tasks && s.tasks[id].state in {Failed, Expired, Cancelled, Interrupted}
  }

  predicate HasSucceeded(s: StoreState, id: Id) {
    id in s.tasks && s.tasks[id].state == Success
  }

  /** Each header with the result stored for it, in order. */
  ghost predicate ListsResults(s: StoreState, ids: seq<Id>, rs: seq<HeaderResult>) {
    && |rs| == |ids|
    && forall i :: 0 <= i < |ids| ==>
         rs[i] == HeaderResult(ids[i], if ids[i] in s.results then Some(s.results[ids[i]]) else None)
  }

  lemma {:induction false} TallyIsExact(s: StoreState, ids: seq<Id>)
    ensures var t := TallyAll(s, ids);
            && t.succeeded + t.failed <= |ids|
            && (t.succeeded == |ids| <==> forall i :: 0 <= i < |ids| ==> HasSucceeded(s, ids[i]))
            && (t.failed == 0 <==> forall i :: 0 <= i < |ids| ==> !HasFailed(s, ids[i]))
            && (t.succeeded == |ids| ==> ListsResults(s, ids, t.results))
  {
    if ids != [] {
      var front, last := ids[..|ids| - 1], ids[|ids| - 1];
      TallyIsExact(s, front);
      assert forall i :: 0 <= i < |front| ==> ids[i] == front[i];
      assert ids[|front|] == last;
    }
  }

  /** What a live chord with headers decides. It fails if and only if some header
      has failed, expired, or was cancelled or interrupted. It succeeds, and
      inserts its callback with each header's stored result in order, if and only
      if every header is in Success. Otherwise it is running. */
  lemma RefreshDecides(s: StoreState, chordId: Id, b: Built, now: u64)
    requires chordId in s.chords && s.chords[chordId].state != RecSuccess
    requires s.chords[chordId].state != RecPartialFailed && s.chords[chordId].headerIds != []
    ensures var ids := s.chords[chordId].headerIds;
            var (s', r) := Refresh(s, chordId, Some(b), now);
            && chordId in s'.chords && s'.chords[chordId].headerIds == ids
            && (s'.chords[chordId].state == RecPartialFailed <==> exists i :: 0 <= i < |ids| && HasFailed(s, ids[i]))
            && (s'.chords[chordId].state == RecSuccess <==> forall i :: 0 <= i < |ids| ==> HasSucceeded(s, ids[i]))
            && (s'.chords[chordId].state == RecSuccess ==>
                  && r == Some(RefreshResult(RecSuccess, Some(b.id)))
                  && s'.chords[chordId].callbackTaskId == Some(b.id) && b.id in s'.tasks
                  && s'.tasks == s.tasks[b.id := s'.tasks[b.id]] && s'.inserted == s.inserted + [s'.tasks[b.id]]
                  && var t := s'.tasks[b.id];
                     && t == NewTask(b.id, t.cfg, b.nextFire, now)
                     && t.cfg == s.chords[chordId].callback.(chainId := None, headerResults := t.cfg.headerResults)
                     && ListsResults(s, ids, t.cfg.headerResults))
            && (s'.chords[chordId].state != RecSuccess ==>
                  && s'.tasks == s.tasks && s'.inserted == s.inserted
                  && (s'.chords[chordId].state == RecPartialFailed || s'.chords[chordId].state == RecRunning))
  {
    var ids := s.chords[chordId].headerIds;
    TallyIsExact(s, ids);
    var t := TallyAll(s, ids);
    if t.failed > 0 && t.succeeded == |ids| {
      assert false;
    }
  }

  // ----- the interleaved steps refine the uninterrupted call -----

  /** The system shows the store's chord record, header states and results. */
  ghost predicate Shows(s: ChordSys, st: StoreState, chordId: Id) {
    && s.record == Lookup(st.chords, chordId)
    && s.states == (map id | id in st.tasks :: st.tasks[id].state)
    && s.results == st.results
  }

  /** The headers may change at any time, to anything. */
  lemma HeadersChangeFreely(s: ChordSys, id: Id, state: Option<TaskState>, result: Option<TaskResult>)
    ensures Enabled(s, SetHeader(id, state, result))
    ensures var s' := Step(s, SetHeader(id, state, result));
            && Lookup(s'.states, id) == state && Lookup(s'.results, id) == result
            && s' == s.(states := s'.states, results := s'.results)
            && s'.states - {id} == s.states - {id} && s'.results - {id} == s.results - {id}
  {
  }

  /** The record is created as the store creates it. */
  lemma CreationIsTheStores(s: ChordSys, st: StoreState, chordId: Id, headers: seq<Id>, callback: TaskConfig)
    requires s.record.None?
    ensures Step(s, CreateRecord(headers, callback)).record
         == Some(CreateChord(st, chordId, headers, callback).chords[chordId])
  {
  }

  /** `s'` is `s` after caller `c` performed an uninterrupted refresh: the same
      record, answer and insertion. */
  ghost predicate IsRefreshed(s: ChordSys, s': ChordSys, c: Caller, st: StoreState, chordId: Id,
                              built: Option<Built>, now: u64) {
    var (st', r) := Refresh(st, chordId, built, now);
    && s'.record == Lookup(st'.chords, chordId)
    && s'.lock.None? && s'.pcs == s.pcs[c := Done(r)]
    && s'.states == s.states && s'.results == s.results
    && (st'.inserted == st.inserted ==> s'.inserted == s.inserted)
    && (st'.inserted != st.inserted ==>
          && |s'.inserted| == |s.inserted| + 1 && s'.inserted[..|s.inserted|] == s.inserted
          && |st'.inserted| == |st.inserted| + 1
          && s'.inserted[|s.inserted|].id == st'.inserted[|st.inserted|].id
          && s'.inserted[|s.inserted|].cfg == st'.inserted[|st.inserted|].cfg)
  }

  lemma RunCons(s: ChordSys, a: ChordAction, rest: seq<ChordAction>, s': ChordSys)
    requires Enabled(s, a) && IsRun(Step(s, a), rest, s')
    ensures IsRun(s, [a] + rest, s')
  {
    assert ([a] + rest)[1..] == rest;
  }

  /** The caller is alone at the point `pc`, having written nothing yet. */
  ghost predicate AloneAt(s: ChordSys, s0: ChordSys, c: Caller, pc: Pc) {
    s == s0.(lock := Some(c), pcs := s0.pcs[c := pc])
  }

  lemma SoloWrite(s: ChordSys, s0: ChordSys, c: Caller, state: RecordState)
    returns (actions: seq<ChordAction>, s': ChordSys)
    requires AloneAt(s, s0, c, WritingState(state)) && s0.lock.None?
    ensures IsRun(s, actions, s')
    ensures s' == s0.(record := WriteRecord(s0, state, None),
                      pcs := s0.pcs[c := Done(Some(RefreshResult(state, None)))])
  {
    s' := Step(s, WriteState(c));
    RunCons(s, WriteState(c), [], s');
    actions := [WriteState(c)] + [];
    assert s'.pcs == s0.pcs[c := Done(Some(RefreshResult(state, None)))];
  }

  lemma SoloInsert(s: ChordSys, s0: ChordSys, c: Caller, l: Loop, built: Option<Built>)
    returns (actions: seq<ChordAction>, s': ChordSys)
    requires AloneAt(s, s0, c, Inserting(l)) && s0.lock.None?
    ensures IsRun(s, actions, s')
    ensures built.None? ==> s' == s0.(pcs := s0.pcs[c := Done(None)])
    ensures built.Some? ==>
              s' == s0.(record := WriteRecord(s0, RecSuccess, Some(built.value.id)),
                        pcs := s0.pcs[c := Done(Some(RefreshResult(RecSuccess, Some(built.value.id))))],
                        inserted := s0.inserted + [Inserted(built.value.id, CallbackConfig(l.rec, l.tally.results),
                                                            l.rec.headerIds, l.seen)])
  {
    var a := InsertCallback(c, if built.Some? then Some(built.value.id) else None);
    var mid := Step(s, a);
    if built.None? {
      s' := mid;
      RunCons(s, a, [], s');
      actions := [a] + [];
      assert s'.pcs == s0.pcs[c := Done(None)];
    } else {
      s' := Step(mid, WriteCallback(c));
      RunCons(mid, WriteCallback(c), [], s');
      RunCons(s, a, [WriteCallback(c)] + [], s');
      actions := [a] + ([WriteCallback(c)] + []);
      assert s'.pcs == s0.pcs[c := Done(Some(RefreshResult(RecSuccess, Some(built.value.id))))];
    }
  }

  /** The loop has seen the first headers and its accumulators are theirs. */
  ghost predicate LoopShows(l: Loop, st: StoreState, r: ChordRecord) {
    l.rec == r && |l.seen| <= |r.headerIds| && l.tally == TallyAll(st, r.headerIds[..|l.seen|])
  }

  lemma TallyNext(st: StoreState, ids: seq<Id>, k: nat)
    requires k < |ids|
    ensures TallyAll(st, ids[..k + 1])
         == TallyOne(TallyAll(st, ids[..k]), ids[k], Lookup(st.tasks, ids[k]), Lookup(st.results, ids[k]))
  {
    assert ids[..k + 1][..k] == ids[..k];
  }

  lemma PointAgain(pcs: map<Caller, Pc>, c: Caller, a: Pc, b: Pc)
    ensures pcs[c := a][c := b] == pcs[c := b]
  {
  }

  /** The tally after one header is the store's. */
  lemma AfterHeaderShows(s: ChordSys, l: Loop, st: StoreState, r: ChordRecord)
    requires LoopShows(l, st, r) && |l.seen| < |r.headerIds|
    requires s.states == (map id | id in st.tasks :: st.tasks[id].state) && s.results == st.results
    ensures LoopShows(AfterHeader(s, l, Lookup(s.states, r.headerIds[|l.seen|]) != Some(Success)), st, r)
  {
    TallyNext(st, l.rec.headerIds, |l.seen|);
  }

  /** Where the loads of one header lead. */
  lemma HeaderLeads(s: ChordSys, s0: ChordSys, c: Caller, l: Loop)
    requires |l.seen| < |l.rec.headerIds| && AloneAt(s, s0, c, Loading(l))
    ensures var loaded := Step(s, LoadTask(c));
            if Lookup(s.states, l.rec.headerIds[|l.seen|]) == Some(Success) then
              && Enabled(loaded, LoadResult(c))
              && AloneAt(Step(loaded, LoadResult(c)), s0, c, NextPc(AfterHeader(s, l, false)))
            else AloneAt(loaded, s0, c, NextPc(AfterHeader(s, l, true)))
  {
    PointAgain(s0.pcs, c, Loading(l), LoadingResult(l));
    PointAgain(s0.pcs, c, Loading(l), NextPc(AfterHeader(s, l, true)));
    PointAgain(s0.pcs, c, LoadingResult(l), NextPc(AfterHeader(s, l, false)));
  }

  lemma RunTwo(s: ChordSys, a: ChordAction, b: ChordAction, rest: seq<ChordAction>, s': ChordSys)
    requires Enabled(s, a) && Enabled(Step(s, a), b) && IsRun(Step(Step(s, a), b), rest, s')
    ensures IsRun(s, [a, b] + rest, s')
  {
    RunCons(Step(s, a), b, rest, s');
    RunCons(s, a, [b] + rest, s');
    assert [a, b] + rest == [a] + ([b] + rest);
  }

  /** The load of one header, and of its result if it succeeded. */
  lemma SoloHeader(s: ChordSys, s0: ChordSys, c: Caller, l: Loop, st: StoreState, chordId: Id)
    returns (actions: seq<ChordAction>, mid: ChordSys, l': Loop)
    requires Shows(s0, st, chordId) && chordId in st.chords && LoopShows(l, st, st.chords[chordId])
    requires |l.seen| < |l.rec.headerIds| && AloneAt(s, s0, c, Loading(l))
    ensures LoopShows(l', st, st.chords[chordId]) && |l'.seen| == |l.seen| + 1
    ensures AloneAt(mid, s0, c, NextPc(l'))
    ensures forall rest, s' :: IsRun(mid, rest, s') ==> IsRun(s, actions + rest, s')
  {
    var loaded := Step(s, LoadTask(c));
    AfterHeaderShows(s, l, st, st.chords[chordId]);
    HeaderLeads(s, s0, c, l);
    if Lookup(s.states, l.rec.headerIds[|l.seen|]) == Some(Success) {
      l', mid := AfterHeader(s, l, false), Step(loaded, LoadResult(c));
      actions := [LoadTask(c), LoadResult(c)];
      forall rest, s' | IsRun(mid, rest, s')
        ensures IsRun(s, actions + rest, s')
      {
        RunTwo(s, LoadTask(c), LoadResult(c), rest, s');
      }
    } else {
      l', mid, actions := AfterHeader(s, l, true), loaded, [LoadTask(c)];
      forall rest, s' | IsRun(mid, rest, s')
        ensures IsRun(s, actions + rest, s')
      {
        RunCons(s, LoadTask(c), rest, s');
      }
    }
  }

  lemma SoloDecision(s: ChordSys, s0: ChordSys, c: Caller, l: Loop, st: StoreState, chordId: Id,
                     built: Option<Built>, now: u64)
    returns (actions: seq<ChordAction>, s': ChordSys)
    requires Shows(s0, st, chordId) && chordId in st.chords && !IsTerminalRecord(st.chords[chordId]) && s0.lock.None?
    requires LoopShows(l, st, st.chords[chordId]) && |l.seen| == |l.rec.headerIds| > 0
    requires AloneAt(s, s0, c, NextPc(l))
    ensures IsRun(s, actions, s') && IsRefreshed(s0, s', c, st, chordId, built, now)
  {
    assert l.rec.headerIds[..|l.seen|] == l.rec.headerIds;
    if NextPc(l).Inserting? {
      actions, s' := SoloInsert(s, s0, c, l, built);
    } else {
      actions, s' := SoloWrite(s, s0, c, NextPc(l).state);
    }
  }

  lemma {:induction false} SoloLoop(s: ChordSys, s0: ChordSys, c: Caller, l: Loop, st: StoreState, chordId: Id,
                                    built: Option<Built>, now: u64)
    returns (actions: seq<ChordAction>, s': ChordSys)
    requires Shows(s0, st, chordId) && chordId in st.chords && !IsTerminalRecord(st.chords[chordId]) && s0.lock.None?
    requires LoopShows(l, st, st.chords[chordId]) && |l.rec.headerIds| > 0
    requires AloneAt(s, s0, c, NextPc(l))
    ensures IsRun(s, actions, s') && IsRefreshed(s0, s', c, st, chordId, built, now)
    decreases |l.rec.headerIds| - |l.seen|
  {
    if |l.seen| == |l.rec.headerIds| {
      actions, s' := SoloDecision(s, s0, c, l, st, chordId, built, now);
    } else {
      var first, mid, l' := SoloHeader(s, s0, c, l, st, chordId);
      var rest;
      rest, s' := SoloLoop(mid, s0, c, l', st, chordId, built, now);
      actions := first + rest;
    }
  }

  /** What a lone reader of the record finds. */
  lemma ReadLeads(s: ChordSys, s0: ChordSys, c: Caller, st: StoreState, chordId: Id, built: Option<Built>, now: u64)
    requires Shows(s0, st, chordId) && s0.lock.None? && c in s0.pcs && AloneAt(s, s0, c, Locked)
    ensures Enabled(s, ReadRecord(c))
    ensures var mid := Step(s, ReadRecord(c));
            if s0.record.None? || IsTerminalRecord(s0.record.value) then
              mid == s0.(pcs := s0.pcs[c := Done(Refresh(st, chordId, built, now).1)])
            else if s0.record.value.headerIds == [] then AloneAt(mid, s0, c, WritingState(RecSuccess))
            else AloneAt(mid, s0, c, Loading(Loop(s0.record.value, Tally(0, 0, []), [])))
  {
    PointAgain(s0.pcs, c, Locked, Step(s, ReadRecord(c)).pcs[c]);
  }

  lemma SoloRead(s: ChordSys, s0: ChordSys, c: Caller, st: StoreState, chordId: Id, built: Option<Built>, now: u64)
    returns (actions: seq<ChordAction>, s': ChordSys)
    requires Shows(s0, st, chordId) && s0.lock.None? && c in s0.pcs && AloneAt(s, s0, c, Locked)
    ensures IsRun(s, actions, s') && IsRefreshed(s0, s', c, st, chordId, built, now)
  {
    ReadLeads(s, s0, c, st, chordId, built, now);
    var mid := Step(s, ReadRecord(c));
    var rest;
    if s0.record.None? || IsTerminalRecord(s0.record.value) {
      rest, s' := [], mid;
    } else if s0.record.value.headerIds == [] {
      rest, s' := SoloWrite(mid, s0, c, RecSuccess);
    } else {
      rest, s' := SoloLoop(mid, s0, c, Loop(s0.record.value, Tally(0, 0, []), []), st, chordId, built, now);
    }
    RunCons(s, ReadRecord(c), rest, s');
    actions := [ReadRecord(c)] + rest;
  }

  /** Run without interference, the store calls of a refresh compose to the
      uninterrupted `Refresh` of the store the system shows. */
  lemma SoloRunIsRefresh(s: ChordSys, c: Caller, st: StoreState, chordId: Id, built: Option<Built>, now: u64)
    returns (actions: seq<ChordAction>, s': ChordSys)
    requires Shows(s, st, chordId) && s.lock.None? && c in s.pcs && s.pcs[c] == Waiting
    ensures IsRun(s, actions, s') && IsRefreshed(s, s', c, st, chordId, built, now)
  {
    var locked := Step(s, Acquire(c));
    var rest;
    rest, s' := SoloRead(locked, s, c, st, chordId, built, now);
    RunCons(s, Acquire(c), rest, s');
    actions := [Acquire(c)] + rest;
  }
}
