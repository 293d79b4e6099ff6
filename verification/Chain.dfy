/** Task chains: `advance` under the per-chain mutex and the unsynchronised
    `mark_failed`, first as store operations, then interleaved at every store
    call by any number of concurrent callers. */
module Chain {
  import opened Types
  import opened Store

  datatype AdvanceResult = ChainNotFound | NoNext | NextStep(cfg: TaskConfig)

  predicate IsEnded(r: ChainRecord) {
    r.state == RecSuccess || r.state == RecFailed
  }

  /** One uninterrupted `advance`. */
  function AdvanceRecord(r: ChainRecord): (ChainRecord, AdvanceResult) {
    if IsEnded(r) then (r, NoNext)
    else if r.currentStep >= |r.tasks| then (r.(state := RecSuccess), NoNext)
    else
      (r.(currentStep := r.currentStep + 1, state := if r.state == RecPending then RecRunning else r.state),
       NextStep(r.tasks[r.currentStep]))
  }

  function Advance(s: StoreState, chainId: Id): (StoreState, AdvanceResult) {
    if chainId !in s.chains then (s, ChainNotFound)
    else
      var (r, result) := AdvanceRecord(s.chains[chainId]);
      (s.(chains := s.chains[chainId := r]), result)
  }

  function MarkFailed(s: StoreState, chainId: Id): StoreState {
    UpdateChainStep(s, chainId, 0, RecFailed)
  }

  method AdvanceChain(store: InMemoryStore, chainId: Id) returns (result: AdvanceResult)
    modifies store
    ensures (store.View(), result) == Advance(old(store.View()), chainId)
  {
    if chainId !in store.chains {
      return ChainNotFound;
    }
    var record := store.chains[chainId];
    if record.state == RecSuccess || record.state == RecFailed {
      assert store.chains == store.chains[chainId := record];
      return NoNext;
    }
    var nextStep := record.currentStep;
    if nextStep >= |record.tasks| {
      store.SetChainStep(chainId, nextStep, RecSuccess);
      return NoNext;
    }
    if record.state == RecPending {
      store.SetChainStep(chainId, nextStep, RecRunning);
      record := record.(state := RecRunning);
    }
    var nextTask := record.tasks[nextStep];
    store.SetChainStep(chainId, nextStep + 1, record.state);
    result := NextStep(nextTask);
    assert store.chains == old(store.chains)[chainId := AdvanceRecord(old(store.chains)[chainId]).0];
  }

  // ----- one chain, many callers, one step per store call -----

  type Caller = nat

  datatype Pc =
    | Waiting                       // before the per-chain lock
    | Locked                        // holds the lock, has not read the record
    | MarkingSuccess(step: nat)     // read: every step was handed out
    | MarkingRunning(step: nat, next: TaskConfig)
    | Bumping(step: nat, next: TaskConfig) // about to write current_step + 1
    | Done(result: AdvanceResult)

  /** `returned` is the history of the step configurations handed out. */
  datatype ChainSys = ChainSys(
    record: Option<ChainRecord>,
    lock: Option<Caller>,
    pcs: map<Caller, Pc>,
    returned: seq<TaskConfig>)

  datatype ChainAction =
    | CreateRecord(tasks: seq<TaskConfig>)
    | Call(c: Caller)
    | Acquire(c: Caller)
    | ReadRecord(c: Caller)
    | WriteSuccess(c: Caller)
    | WriteRunning(c: Caller)
    | WriteStep(c: Caller)
    | FailChain

  const INITIAL: ChainSys := ChainSys(None, None, map[], [])

  predicate Enabled(s: ChainSys, a: ChainAction) {
    match a
    case CreateRecord(_) => s.record.None?
    case Call(c) => c !in s.pcs
    case Acquire(c) => c in s.pcs && s.pcs[c] == Waiting && s.lock.None?
    case ReadRecord(c) => c in s.pcs && s.pcs[c] == Locked
    case WriteSuccess(c) => c in s.pcs && s.pcs[c].MarkingSuccess?
    case WriteRunning(c) => c in s.pcs && s.pcs[c].MarkingRunning?
    case WriteStep(c) => c in s.pcs && s.pcs[c].Bumping?
    case FailChain => true
  }

  function WriteRecord(s: ChainSys, step: nat, state: RecordState): Option<ChainRecord> {
    match s.record
    case None => None
    case Some(r) => Some(r.(currentStep := step, state := state))
  }

  function Finish(s: ChainSys, c: Caller, result: AdvanceResult): ChainSys {
    s.(lock := None, pcs := s.pcs[c := Done(result)])
  }

  function Step(s: ChainSys, a: ChainAction): ChainSys
    requires Enabled(s, a)
  {
    match a
    case CreateRecord(tasks) => s.(record := Some(ChainRecord(tasks, 0, RecPending)))
    case Call(c) => s.(pcs := s.pcs[c := Waiting])
    case Acquire(c) => s.(lock := Some(c), pcs := s.pcs[c := Locked])
    case ReadRecord(c) =>
      (match s.record
       case None => Finish(s, c, ChainNotFound)
       case Some(r) =>
         if IsEnded(r) then Finish(s, c, NoNext)
         else if r.currentStep >= |r.tasks| then s.(pcs := s.pcs[c := MarkingSuccess(r.currentStep)])
         else
           var next := r.tasks[r.currentStep];
           if r.state == RecPending then s.(pcs := s.pcs[c := MarkingRunning(r.currentStep, next)])
           else s.(pcs := s.pcs[c := Bumping(r.currentStep, next)]))
    case WriteSuccess(c) =>
      Finish(s.(record := WriteRecord(s, s.pcs[c].step, RecSuccess)), c, NoNext)
    case WriteRunning(c) =>
      var step, next := s.pcs[c].step, s.pcs[c].next;
      s.(record := WriteRecord(s, step, RecRunning), pcs := s.pcs[c := Bumping(step, next)])
    case WriteStep(c) =>
      var step, next := s.pcs[c].step, s.pcs[c].next;
      var s' := s.(record := WriteRecord(s, step + 1, RecRunning), returned := s.returned + [next]);
      Finish(s', c, NextStep(next))
    case FailChain => s.(record := WriteRecord(s, 0, RecFailed))
  }

  ghost predicate IsRun(s: ChainSys, actions: seq<ChainAction>, s': ChainSys)
    decreases |actions|
  {
    if actions == [] then s' == s
    else Enabled(s, actions[0]) && IsRun(Step(s, actions[0]), actions[1..], s')
  }

  // ----- exactly once, in order -----

  predicate HoldsLock(pc: Pc) {
    !pc.Waiting? && !pc.Done?
  }

  /** The holder has read the record and will still write it. */
  predicate PastRead(pc: Pc) {
    pc.MarkingSuccess? || pc.MarkingRunning? || pc.Bumping?
  }

  ghost predicate SomebodyPastRead(s: ChainSys) {
    s.lock.Some? && s.lock.value in s.pcs && PastRead(s.pcs[s.lock.value])
  }

  ghost predicate PcAgrees(pc: Pc, tasks: seq<TaskConfig>, given: nat) {
    match pc
    case MarkingSuccess(step) => step == given == |tasks|
    case MarkingRunning(step, next) => step == given < |tasks| && next == tasks[step]
    case Bumping(step, next) => step == given < |tasks| && next == tasks[step]
    case _ => true
  }

  /** Records only ever reach the states `create_chain` and `advance` write. */
  predicate ChainStates(r: ChainRecord) {
    r.state != RecPartialFailed
  }

  ghost predicate Inv(s: ChainSys) {
    && (forall c :: c in s.pcs ==> (HoldsLock(s.pcs[c]) <==> s.lock == Some(c)))
    && (s.lock.Some? ==> s.lock.value in s.pcs)
    && (s.record.None? ==> s.returned == [] && !SomebodyPastRead(s))
    && (s.record.Some? ==>
          var r := s.record.value;
          && ChainStates(r)
          && |s.returned| <= |r.tasks| && s.returned == r.tasks[..|s.returned|]
          && (forall c :: c in s.pcs ==> PcAgrees(s.pcs[c], r.tasks, |s.returned|))
          && (!SomebodyPastRead(s) && !IsEnded(r) ==> r.currentStep == |s.returned|))
  }

  lemma StepKeepsInv(s: ChainSys, a: ChainAction)
    requires Inv(s) && Enabled(s, a)
    ensures Inv(Step(s, a))
    ensures s.record.Some? ==> Step(s, a).record.Some? && Step(s, a).record.value.tasks == s.record.value.tasks
  {
    if a.WriteStep? && s.record.Some? {
      var r := s.record.value;
      assert r.tasks[..|s.returned| + 1] == r.tasks[..|s.returned|] + [r.tasks[|s.returned|]];
    }
  }

  lemma {:induction false} RunKeepsInv(s: ChainSys, actions: seq<ChainAction>, s': ChainSys)
    requires Inv(s) && IsRun(s, actions, s')
    ensures Inv(s')
    decreases |actions|
  {
    if actions != [] {
      StepKeepsInv(s, actions[0]);
      RunKeepsInv(Step(s, actions[0]), actions[1..], s');
    }
  }

  /** For any number of concurrent `advance` calls and any interleaving of
      `mark_failed`, the configurations handed out are a prefix of the chain:
      in order, none skipped and none repeated. */
  lemma StepsAreHandedOutInOrder(actions: seq<ChainAction>, s: ChainSys)
    requires IsRun(INITIAL, actions, s) && s.record.Some?
    ensures s.returned <= s.record.value.tasks
  {
    RunKeepsInv(INITIAL, actions, s);
  }

  // ----- is "failed" final? -----

  /** Some continuation hands out another step. */
  ghost predicate CanStillAdvance(s: ChainSys) {
    exists actions, s' :: IsRun(s, actions, s') && |s'.returned| > |s.returned|
  }

  predicate HolderWillBump(s: ChainSys) {
    s.lock.Some? && s.lock.value in s.pcs
    && (s.pcs[s.lock.value].MarkingRunning? || s.pcs[s.lock.value].Bumping?)
  }

  lemma BumpIsStillPossible(s: ChainSys)
    requires Inv(s) && s.record.Some? && HolderWillBump(s)
    ensures CanStillAdvance(s)
  {
    var c := s.lock.value;
    if s.pcs[c].Bumping? {
      var t := Step(s, WriteStep(c));
      assert IsRun(t, [], t);
      assert IsRun(s, [WriteStep(c)], t) by {
        assert [WriteStep(c)][1..] == [];
      }
    } else {
      var t := Step(s, WriteRunning(c));
      StepKeepsInv(s, WriteRunning(c));
      var u := Step(t, WriteStep(c));
      var actions := [WriteRunning(c), WriteStep(c)];
      assert actions[1..] == [WriteStep(c)] && [WriteStep(c)][1..] == [];
      assert IsRun(u, [], u);
      assert IsRun(t, [WriteStep(c)], u);
      assert IsRun(s, actions, u);
    }
  }

  /** A chain that `mark_failed` just ended hands out no further step, in any
      continuation, exactly when no `advance` had read the record as live
      before and not yet written its step: the late write revives the chain. */
  lemma FailureIsFinalIffNobodyIsBumping(before: ChainSys)
    requires Inv(before) && before.record.Some?
    ensures !CanStillAdvance(Step(before, FailChain)) <==> !HolderWillBump(before)
  {
    var s := Step(before, FailChain);
    StepKeepsInv(before, FailChain);
    if HolderWillBump(before) {
      BumpIsStillPossible(s);
    } else {
      forall actions, s' | IsRun(s, actions, s')
        ensures s'.returned == s.returned
      {
        EndedWithoutBumper(s, actions, s');
      }
    }
  }

  /** Ended, and the lock holder is at most about to write "success". */
  lemma {:induction false} EndedWithoutBumper(s: ChainSys, actions: seq<ChainAction>, s': ChainSys)
    requires Inv(s) && s.record.Some? && IsEnded(s.record.value) && !HolderWillBump(s)
    requires IsRun(s, actions, s')
    ensures s'.returned == s.returned
    decreases |actions|
  {
    if actions != [] {
      StepKeepsInv(s, actions[0]);
      EndedWithoutBumper(Step(s, actions[0]), actions[1..], s');
    }
  }

  // ----- the interleaved steps refine the uninterrupted call -----

  /** The steps of one caller running alone, from acquiring the lock. */
  function SoloActions(c: Caller, r: ChainRecord): seq<ChainAction> {
    [Acquire(c)] + ([ReadRecord(c)] + SoloWrites(c, r))
  }

  function SoloWrites(c: Caller, r: ChainRecord): seq<ChainAction> {
    if IsEnded(r) then []
    else if r.currentStep >= |r.tasks| then [WriteSuccess(c)] + []
    else if r.state == RecPending then [WriteRunning(c)] + ([WriteStep(c)] + [])
    else [WriteStep(c)] + []
  }

  function AfterSolo(s: ChainSys, c: Caller, r: ChainRecord): ChainSys {
    var (r', result) := AdvanceRecord(r);
    ChainSys(Some(r'), None, s.pcs[c := Done(result)],
             if result.NextStep? then s.returned + [result.cfg] else s.returned)
  }

  lemma RunCons(s: ChainSys, a: ChainAction, rest: seq<ChainAction>, s': ChainSys)
    requires Enabled(s, a) && IsRun(Step(s, a), rest, s')
    ensures IsRun(s, [a] + rest, s')
  {
    assert ([a] + rest)[1..] == rest;
  }

  lemma SoloWritesRun(s: ChainSys, c: Caller, r: ChainRecord, before: ChainSys)
    requires r.state != RecPartialFailed && !IsEnded(r)
    requires before.record == Some(r) && before.lock.None?
    requires c in before.pcs && before.pcs[c] == Locked
    requires s == Step(before.(lock := Some(c)), ReadRecord(c))
    ensures IsRun(s, SoloWrites(c, r), AfterSolo(before, c, r))
  {
    var end := AfterSolo(before, c, r);
    assert IsRun(end, [], end);
    if r.currentStep >= |r.tasks| {
      assert Step(s, WriteSuccess(c)).pcs == end.pcs;
      RunCons(s, WriteSuccess(c), [], end);
    } else if r.state == RecPending {
      var t := Step(s, WriteRunning(c));
      assert Step(t, WriteStep(c)).pcs == end.pcs;
      RunCons(t, WriteStep(c), [], end);
      RunCons(s, WriteRunning(c), [WriteStep(c)] + [], end);
    } else {
      assert Step(s, WriteStep(c)).pcs == end.pcs;
      RunCons(s, WriteStep(c), [], end);
    }
  }

  /** Run without interference, the store calls of `advance` compose to the
      uninterrupted `AdvanceRecord`. */
  lemma SoloRunIsAdvance(s: ChainSys, c: Caller)
    requires s.record.Some? && s.record.value.state != RecPartialFailed && s.lock.None?
    requires c in s.pcs && s.pcs[c] == Waiting
    ensures IsRun(s, SoloActions(c, s.record.value), AfterSolo(s, c, s.record.value))
  {
    var r := s.record.value;
    var locked := Step(s, Acquire(c));
    var read := Step(locked, ReadRecord(c));
    var end := AfterSolo(s, c, r);
    if IsEnded(r) {
      assert read.pcs == end.pcs;
      assert IsRun(read, [], end);
    } else {
      var before := locked.(lock := None);
      SoloWritesRun(read, c, r, before);
      assert AfterSolo(before, c, r).pcs == end.pcs;
    }
    RunCons(locked, ReadRecord(c), SoloWrites(c, r), end);
    RunCons(s, Acquire(c), [ReadRecord(c)] + SoloWrites(c, r), end);
  }

  // ----- a chain that hands out steps is no longer pending -----

  /** The record is created as the store creates it. */
  lemma CreationIsTheStores(s: ChainSys, st: StoreState, chainId: Id, tasks: seq<TaskConfig>)
    requires s.record.None?
    ensures Step(s, CreateRecord(tasks)).record == Some(CreateChain(st, chainId, tasks).chains[chainId])
  {
  }

  /** And failed as the store writes it. */
  lemma FailureIsTheStores(s: ChainSys, st: StoreState, chainId: Id)
    requires chainId in st.chains && s.record == Some(st.chains[chainId])
    ensures Step(s, FailChain).record == Some(MarkFailed(st, chainId).chains[chainId])
    ensures MarkFailed(st, chainId).chains[chainId] == ChainRecord(st.chains[chainId].tasks, 0, RecFailed)
  {
  }

  ghost predicate HasStarted(s: ChainSys) {
    && (s.record.None? ==> s.returned == [] && forall c :: c in s.pcs ==> !PastRead(s.pcs[c]))
    && (s.record.Some? && s.record.value.state == RecPending ==>
          s.returned == [] && forall c :: c in s.pcs ==> !s.pcs[c].Bumping?)
  }

  lemma {:induction false} RunHasStarted(s: ChainSys, actions: seq<ChainAction>, s': ChainSys)
    requires HasStarted(s) && IsRun(s, actions, s')
    ensures HasStarted(s')
    decreases |actions|
  {
    if actions != [] {
      RunHasStarted(Step(s, actions[0]), actions[1..], s');
    }
  }

  /** Over all interleavings the record has left "pending" before any caller is
      about to hand out a step. */
  lemma StartedBeforeHandingOut(actions: seq<ChainAction>, s: ChainSys, c: Caller)
    requires IsRun(INITIAL, actions, s) && s.record.Some?
    ensures s.returned != [] || (c in s.pcs && s.pcs[c].Bumping?) ==> s.record.value.state != RecPending
  {
    RunHasStarted(INITIAL, actions, s);
  }
}
