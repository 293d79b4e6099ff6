/** Chains in runs of the whole engine: the tasks a chain inserts, in order, one
    at a time, each only after the one before it succeeded. */
module ChainRuns {
  import opened Types
  import opened Store
  import opened Queue
  import opened Handlers
  import opened Engine
  import opened Lives
  import opened Steps
  import opened Guarantees
  import Chain
  import Chord

  /** The tasks inserted with a chain's marker, in order. */
  function StepsOf(log: seq<Task>, c: Id): seq<Task> {
    if log == [] then []
    else
      StepsOf(log[..|log| - 1], c)
      + (if log[|log| - 1].cfg.chainId == Some(c) then [log[|log| - 1]] else [])
  }

  lemma StepsAppend(log: seq<Task>, t: Task, c: Id)
    ensures StepsOf(log + [t], c) == StepsOf(log, c) + (if t.cfg.chainId == Some(c) then [t] else [])
  {
    assert (log + [t])[..|log|] == log;
  }

  lemma {:induction false} StepsPrefix(log: seq<Task>, log': seq<Task>, c: Id)
    requires log <= log'
    ensures StepsOf(log, c) <= StepsOf(log', c)
  {
    if |log| < |log'| {
      var front := log'[..|log'| - 1];
      assert log <= front;
      StepsPrefix(log, front, c);
    } else {
      assert log == log';
    }
  }

  /** A step was made with the marker, and a task made with it is a step. */
  lemma {:induction false} StepIsMade(log: seq<Task>, c: Id, k: nat)
    requires k < |StepsOf(log, c)|
    ensures Made(log, StepsOf(log, c)[k].id) != []
  {
    var front, last := log[..|log| - 1], log[|log| - 1];
    if k < |StepsOf(front, c)| {
      StepIsMade(front, c, k);
    }
  }

  lemma {:induction false} MadeIsStep(log: seq<Task>, id: Id, i: nat, c: Id) returns (k: nat)
    requires i < |Made(log, id)| && Made(log, id)[i].cfg.chainId == Some(c)
    ensures k < |StepsOf(log, c)| && StepsOf(log, c)[k].id == id
  {
    var front, last := log[..|log| - 1], log[|log| - 1];
    if i < |Made(front, id)| {
      k := MadeIsStep(front, id, i, c);
    } else {
      k := |StepsOf(front, c)|;
    }
  }

  lemma {:induction false} CountPrefix(es: seq<Event>, es': seq<Event>, id: Id, kind: EventType)
    requires es <= es'
    ensures CountEvents(es, id, kind) <= CountEvents(es', id, kind)
  {
    if |es| < |es'| {
      var front := es'[..|es'| - 1];
      assert es <= front;
      CountPrefix(es, front, id, kind);
    } else {
      assert es == es';
    }
  }

  // ----- the invariant of one chain -----

  predicate Done(s: StoreState, id: Id) {
    CountEvents(s.events, id, Succeeded) >= 1
  }

  ghost predicate AllDone(s: StoreState, steps: seq<Task>) {
    forall i :: 0 <= i < |steps| ==> Done(s, steps[i].id)
  }

  /** The steps follow the configurations, all but the last are done, and a live
      record counts them exactly, except that once a step did not build all
      inserted ones are done. */
  ghost predicate InOrder(s: StoreState, c: Id) {
    var steps := StepsOf(s.inserted, c);
    && (c !in s.chains ==> steps == [])
    && (c in s.chains ==>
          var r := s.chains[c];
          && |steps| <= |r.tasks|
          && (forall i :: 0 <= i < |steps| ==> steps[i].cfg == r.tasks[i].(chainId := Some(c)))
          && (steps != [] ==> AllDone(s, steps[..|steps| - 1]))
          && (!Chain.IsEnded(r) && r.currentStep != |steps| ==> AllDone(s, steps)))
  }

  /** Every step so far is a quiet limit-1 one-shot. */
  ghost predicate QuietSteps(s: Sys, c: Id) {
    forall k :: 0 <= k < |StepsOf(s.e.q.store.inserted, c)| ==>
      var id := StepsOf(s.e.q.store.inserted, c)[k].id;
      QuietLimitOne(s, id) && !IsPeriodic(LifeOf(s, id).made[0].cfg)
  }

  ghost predicate ChainInv(s: Sys, c: Id) {
    c !in s.h.forged && QuietSteps(s, c) ==> InOrder(s.e.q.store, c)
  }

  lemma QuietStepsBefore(s: Sys, s': Sys, c: Id)
    requires Follows(s, s') && QuietSteps(s', c)
    ensures QuietSteps(s, c)
  {
    var log, log' := s.e.q.store.inserted, s'.e.q.store.inserted;
    StepsPrefix(log, log', c);
    forall k | 0 <= k < |StepsOf(log, c)|
      ensures var id := StepsOf(log, c)[k].id;
              QuietLimitOne(s, id) && !IsPeriodic(LifeOf(s, id).made[0].cfg)
    {
      assert StepsOf(log', c)[k] == StepsOf(log, c)[k];
      StepIsMade(log, c, k);
      QuietBefore(s, s', StepsOf(log, c)[k].id);
    }
  }

  /** The record, the steps and the successes so far stay. */
  ghost predicate Leaves(s: StoreState, s': StoreState, c: Id) {
    && (c in s'.chains <==> c in s.chains)
    && (c in s.chains ==> s'.chains[c] == s.chains[c])
    && StepsOf(s'.inserted, c) == StepsOf(s.inserted, c)
    && s.events <= s'.events
  }

  lemma DoneStays(s: StoreState, s': StoreState, steps: seq<Task>)
    requires AllDone(s, steps) && s.events <= s'.events
    ensures AllDone(s', steps)
  {
    forall i | 0 <= i < |steps|
      ensures Done(s', steps[i].id)
    {
      CountPrefix(s.events, s'.events, steps[i].id, Succeeded);
    }
  }

  lemma LeavesKeeps(s: StoreState, s': StoreState, c: Id)
    requires InOrder(s, c) && Leaves(s, s', c)
    ensures InOrder(s', c)
  {
    var steps := StepsOf(s.inserted, c);
    if c in s.chains {
      if steps != [] {
        DoneStays(s, s', steps[..|steps| - 1]);
      }
      if AllDone(s, steps) {
        DoneStays(s, s', steps);
      }
    }
  }

  // ----- advancing and failing -----

  lemma DoneFront(s: StoreState, steps: seq<Task>)
    requires AllDone(s, steps) && steps != []
    ensures AllDone(s, steps[..|steps| - 1])
  {
  }

  /** A record that keeps its configurations stays in order if all are done. */
  lemma SettledInOrder(s: StoreState, s': StoreState, c: Id)
    requires InOrder(s, c) && AllDone(s, StepsOf(s.inserted, c)) && c in s.chains && c in s'.chains
    requires s'.chains[c].tasks == s.chains[c].tasks && s'.inserted == s.inserted && s'.events == s.events
    ensures InOrder(s', c)
  {
    var steps := StepsOf(s.inserted, c);
    DoneStays(s, s', steps);
    if steps != [] {
      DoneFront(s', steps);
    }
  }

  /** The record after an advance that inserts nothing. */
  lemma IdleAdvanceInOrder(s: StoreState, c: Id)
    requires InOrder(s, c) && AllDone(s, StepsOf(s.inserted, c)) && c in s.chains
    ensures InOrder(Chain.Advance(s, c).0, c)
  {
    SettledInOrder(s, Chain.Advance(s, c).0, c);
  }

  lemma ConfigsExtend(steps: seq<Task>, t: Task, tasks: seq<TaskConfig>, c: Id)
    requires |steps| < |tasks| && t.cfg == tasks[|steps|].(chainId := Some(c))
    requires forall i :: 0 <= i < |steps| ==> steps[i].cfg == tasks[i].(chainId := Some(c))
    ensures forall i :: 0 <= i < |steps + [t]| ==> (steps + [t])[i].cfg == tasks[i].(chainId := Some(c))
  {
  }

  lemma InsertedStepInOrder(s: StoreState, s': StoreState, c: Id, t: Task)
    requires InOrder(s, c) && AllDone(s, StepsOf(s.inserted, c)) && c in s.chains && !Chain.IsEnded(s.chains[c])
    requires s.chains[c].currentStep == |StepsOf(s.inserted, c)| < |s.chains[c].tasks|
    requires t.cfg == s.chains[c].tasks[s.chains[c].currentStep].(chainId := Some(c))
    requires s'.inserted == s.inserted + [t] && s'.events == s.events && c in s'.chains
    requires s'.chains[c].tasks == s.chains[c].tasks && s'.chains[c].currentStep == s.chains[c].currentStep + 1
    ensures InOrder(s', c)
  {
    var steps := StepsOf(s.inserted, c);
    StepsAppend(s.inserted, t, c);
    ConfigsExtend(steps, t, s.chains[c].tasks, c);
    assert (steps + [t])[..|steps|] == steps;
    DoneStays(s, s', steps);
  }

  lemma AdvanceInOrder(q: QueueState, cap: nat, c: Id, built: Option<Chord.Built>, now: u64)
    requires InOrder(q.store, c) && AllDone(q.store, StepsOf(q.store.inserted, c))
    requires c in q.store.chains &&
               (Chain.IsEnded(q.store.chains[c]) || q.store.chains[c].currentStep == |StepsOf(q.store.inserted, c)|)
    ensures InOrder(AdvanceAndDispatch(q, cap, c, built, now).store, c)
  {
    var r := Chain.AdvanceRecord(q.store.chains[c]).1;
    if r.NextStep? && built.Some? {
      var t := NewTask(built.value.id, r.cfg.(chainId := Some(c)), built.value.nextFire, now);
      InsertedStepInOrder(q.store, AdvanceAndDispatch(q, cap, c, built, now).store, c, t);
    } else {
      IdleAdvanceInOrder(q.store, c);
    }
  }

  lemma AdvanceLeaves(q: QueueState, cap: nat, c': Id, built: Option<Chord.Built>, now: u64, c: Id)
    requires c != c'
    ensures Leaves(q.store, AdvanceAndDispatch(q, cap, c', built, now).store, c)
  {
    var (s, r) := Chain.Advance(q.store, c');
    if r.NextStep? && built.Some? {
      StepsAppend(q.store.inserted, NewTask(built.value.id, r.cfg.(chainId := Some(c')), built.value.nextFire, now), c);
    }
  }

  lemma FailInOrder(s: StoreState, c: Id)
    requires InOrder(s, c)
    ensures InOrder(Chain.MarkFailed(s, c), c)
  {
  }

  lemma ChordLeaves(q: QueueState, cap: nat, f: Task, built: Option<Chord.Built>, now: u64, c: Id)
    ensures Leaves(q.store, NotifyChord(q, cap, f, built, now).store, c)
  {
    var q' := NotifyChord(q, cap, f, built, now);
    ChordAdds(q, cap, f, built, now);
    if f.cfg.chordId.Some? {
      RefreshInserts(q.store, f.cfg.chordId.value, built, now);
    }
    if built.Some? && AddsCallback(q, q', cap, built.value, now) {
      var b := built.value;
      var cfg: TaskConfig :| cfg.chainId.None? && Adds(q, q', cap, NewTask(b.id, cfg, b.nextFire, now));
      StepsAppend(q.store.inserted, NewTask(b.id, cfg, b.nextFire, now), c);
    }
  }

  // ----- completions -----

  /** What carries a genuine marker in flight is a step of that chain. */
  lemma CarrierIsStep(s: Sys, c: Id, id: Id, k: nat) returns (j: nat)
    requires AllWell(s) && c !in s.h.forged
    requires id in s.e.q.flights && k < |s.e.q.flights[id]| && s.e.q.flights[id][k].cfg.chainId == Some(c)
    ensures j < |StepsOf(s.e.q.store.inserted, c)| && StepsOf(s.e.q.store.inserted, c)[j].id == id
  {
    var l := LifeOf(s, id);
    assert Well(s, id) && l.flights[k] == s.e.q.flights[id][k];
    assert Known(l, Some(c));
    var i :| 0 <= i < |l.made| && l.made[i].cfg.chainId == Some(c);
    j := MadeIsStep(s.e.q.store.inserted, id, i, c);
  }

  /** An execution in flight goes with its row, a one-shot's. */
  predicate FliesForRow(q: QueueState, id: Id, k: nat) {
    && id in q.flights && k < |q.flights[id]| && q.flights[id][k].id == id
    && id in q.store.tasks && !IsPeriodic(q.store.tasks[id].cfg)
    && q.flights[id][k].cfg == q.store.tasks[id].cfg
  }

  lemma FlightIsOfRow(id: Id, l: Life, k: nat)
    requires Inv(id, l) && Quiet(l) && !IsPeriodic(l.made[0].cfg) && k < |l.flights|
    ensures l.row.Some? && !IsPeriodic(l.row.value.cfg)
    ensures l.flights[k].id == id && l.flights[k].cfg == l.row.value.cfg
  {
  }

  lemma FlyingIsNotDone(id: Id, l: Life)
    requires Inv(id, l) && Quiet(l) && LimitOne(l.made[0].cfg) && !IsPeriodic(l.made[0].cfg) && l.flights != []
    ensures l.successes == 0
  {
    assert Live(l);
  }

  lemma InFlightIsNotDone(s: Sys, id: Id, k: nat)
    requires AllWell(s) && QuietLimitOne(s, id) && !IsPeriodic(LifeOf(s, id).made[0].cfg)
    requires id in s.e.q.flights && k < |s.e.q.flights[id]|
    ensures !Done(s.e.q.store, id) && FliesForRow(s.e.q, id, k)
  {
    var l := LifeOf(s, id);
    assert Well(s, id) && l.flights == s.e.q.flights[id];
    FlyingIsNotDone(id, l);
    FlightIsOfRow(id, l, k);
  }

  /** The id is that of the chain's last step, and a live record counts the steps
      exactly. */
  predicate IsLastStep(s: StoreState, c: Id, id: Id) {
    var steps := StepsOf(s.inserted, c);
    && steps != [] && steps[|steps| - 1].id == id
    && c in s.chains
    && (Chain.IsEnded(s.chains[c]) || s.chains[c].currentStep == |steps|)
  }

  /** In a chain in order only the last step can be not done, and then a live
      record counts the steps exactly. */
  lemma OnlyLastIsUndone(s: StoreState, c: Id, j: nat)
    requires InOrder(s, c) && j < |StepsOf(s.inserted, c)| && !Done(s, StepsOf(s.inserted, c)[j].id)
    ensures IsLastStep(s, c, StepsOf(s.inserted, c)[j].id)
  {
    DoneButLast(s, StepsOf(s.inserted, c), j);
  }

  /** What carries a genuine marker of a chain of quiet one-shots in flight is a
      step that is not done. */
  lemma CarrierIsUndone(s: Sys, c: Id, id: Id, k: nat) returns (j: nat)
    requires AllWell(s) && c !in s.h.forged && QuietSteps(s, c)
    requires id in s.e.q.flights && k < |s.e.q.flights[id]| && s.e.q.flights[id][k].cfg.chainId == Some(c)
    ensures j < |StepsOf(s.e.q.store.inserted, c)| && StepsOf(s.e.q.store.inserted, c)[j].id == id
    ensures !Done(s.e.q.store, id) && FliesForRow(s.e.q, id, k)
  {
    j := CarrierIsStep(s, c, id, k);
    StepIsQuiet(s, c, j);
    InFlightIsNotDone(s, id, k);
  }

  /** A finished step of the chain was its last one, and the only one not done. */
  lemma FinishedStepIsLast(s: Sys, c: Id, id: Id, k: nat)
    requires AllWell(s) && c !in s.h.forged && QuietSteps(s, c) && InOrder(s.e.q.store, c)
    requires id in s.e.q.flights && k < |s.e.q.flights[id]| && s.e.q.flights[id][k].cfg.chainId == Some(c)
    ensures IsLastStep(s.e.q.store, c, id) && FliesForRow(s.e.q, id, k)
  {
    var j := CarrierIsUndone(s, c, id, k);
    OnlyLastIsUndone(s.e.q.store, c, j);
  }

  lemma StepIsQuiet(s: Sys, c: Id, k: nat)
    requires QuietSteps(s, c) && k < |StepsOf(s.e.q.store.inserted, c)|
    ensures var id := StepsOf(s.e.q.store.inserted, c)[k].id;
            QuietLimitOne(s, id) && !IsPeriodic(LifeOf(s, id).made[0].cfg)
  {
  }

  lemma DoneButLast(s: StoreState, steps: seq<Task>, j: nat)
    requires j < |steps| && AllDone(s, steps[..|steps| - 1])
    ensures j < |steps| - 1 ==> Done(s, steps[j].id)
    ensures Done(s, steps[|steps| - 1].id) ==> AllDone(s, steps)
  {
    assert forall i :: 0 <= i < |steps| - 1 ==> steps[..|steps| - 1][i] == steps[i];
  }

  lemma SuccessIsRecorded(t: Task, f: Task, out: Outcome, now: u64)
    requires ExitOf(Some(t), out).NormalExit? && SettleRow(t, f, out, now).state.Success?
    ensures SettleEvent(Some(t), f, out) == Some(Succeeded)
  {
  }

  lemma LandedInOrder(s: Sys, c: Id, id: Id, k: nat, out: Outcome, now: u64)
    requires InOrder(s.e.q.store, c)
    requires id in s.e.q.flights && k < |s.e.q.flights[id]|
    ensures InOrder(Landed(s.e.q, id, k, out, now).store, c)
    ensures s.e.q.store.events <= Landed(s.e.q, id, k, out, now).store.events
    ensures Landed(s.e.q, id, k, out, now).store.inserted == s.e.q.store.inserted
    ensures Landed(s.e.q, id, k, out, now).store.chains == s.e.q.store.chains
  {
    LeavesKeeps(s.e.q.store, Landed(s.e.q, id, k, out, now).store, c);
  }

  /** When a step of the chain succeeds, every step so far is done. */
  lemma AllDoneNow(s: Sys, c: Id, id: Id, k: nat, out: Outcome, now: u64)
    requires AllWell(s) && c !in s.h.forged && QuietSteps(s, c) && InOrder(s.e.q.store, c)
    requires id in s.e.q.flights && k < |s.e.q.flights[id]| && s.e.q.flights[id][k].cfg.chainId == Some(c)
    requires ExitOf(Row(s.e.q.store, id), out).NormalExit?
    requires id in s.e.q.store.tasks && SettleRow(s.e.q.store.tasks[id], s.e.q.flights[id][k], out, now).state.Success?
    ensures AllDone(Landed(s.e.q, id, k, out, now).store, StepsOf(s.e.q.store.inserted, c))
  {
    var steps, st := StepsOf(s.e.q.store.inserted, c), Landed(s.e.q, id, k, out, now).store;
    FinishedStepIsLast(s, c, id, k);
    SuccessIsRecorded(s.e.q.store.tasks[id], s.e.q.flights[id][k], out, now);
    SettleTale(s.e.q.store, s.e.q.flights[id][k], out, now, id);
    LandedInOrder(s, c, id, k, out, now);
    assert Done(st, id);
    DoneButLast(st, steps, 0);
  }

  lemma LandedState(s: Sys, id: Id, k: nat, out: Outcome, now: u64)
    requires id in s.e.q.flights && k < |s.e.q.flights[id]| && s.e.q.flights[id][k].id == id
    requires id in s.e.q.store.tasks
    ensures FinalState(Landed(s.e.q, id, k, out, now).store, s.e.q.flights[id][k])
         == SettleRow(s.e.q.store.tasks[id], s.e.q.flights[id][k], out, now).state
  {
  }

  lemma OwnNotifiedInOrder(s: Sys, cap: nat, c: Id, id: Id, k: nat, out: Outcome, built: Option<Chord.Built>, now: u64)
    requires AllWell(s) && c !in s.h.forged && QuietSteps(s, c) && InOrder(s.e.q.store, c)
    requires id in s.e.q.flights && k < |s.e.q.flights[id]| && s.e.q.flights[id][k].cfg.chainId == Some(c)
    requires ExitOf(Row(s.e.q.store, id), out).NormalExit?
    ensures var f, q1 := s.e.q.flights[id][k], Landed(s.e.q, id, k, out, now);
            InOrder(NotifyChain(q1, cap, f, FinalState(q1.store, f), built, now).store, c)
  {
    var f, q1 := s.e.q.flights[id][k], Landed(s.e.q, id, k, out, now);
    FinishedStepIsLast(s, c, id, k);
    LandedInOrder(s, c, id, k, out, now);
    LandedState(s, id, k, out, now);
    if FinalState(q1.store, f).Success? {
      AllDoneNow(s, c, id, k, out, now);
      AdvanceInOrder(q1, cap, c, built, now);
      assert NotifyChain(q1, cap, f, Success, built, now) == AdvanceAndDispatch(q1, cap, c, built, now);
    } else {
      UnsuccessfulInOrder(q1, cap, f, FinalState(q1.store, f), built, now, c);
    }
  }

  lemma UnsuccessfulInOrder(q: QueueState, cap: nat, f: Task, final: TaskState, built: Option<Chord.Built>,
                            now: u64, c: Id)
    requires InOrder(q.store, c) && !final.Success? && f.cfg.chainId == Some(c)
    ensures InOrder(NotifyChain(q, cap, f, final, built, now).store, c)
  {
    FailInOrder(q.store, c);
  }

  lemma OtherNotifiedInOrder(q: QueueState, cap: nat, f: Task, final: TaskState, built: Option<Chord.Built>,
                             now: u64, c: Id)
    requires InOrder(q.store, c) && f.cfg.chainId != Some(c)
    ensures InOrder(NotifyChain(q, cap, f, final, built, now).store, c)
  {
    if f.cfg.chainId.Some? && final.Success? {
      AdvanceLeaves(q, cap, f.cfg.chainId.value, built, now, c);
    }
    LeavesKeeps(q.store, NotifyChain(q, cap, f, final, built, now).store, c);
  }

  lemma NotifiedInOrder(s: Sys, cap: nat, c: Id, id: Id, k: nat, out: Outcome, built: Option<Chord.Built>, now: u64)
    requires AllWell(s) && c !in s.h.forged && QuietSteps(s, c) && InOrder(s.e.q.store, c)
    requires id in s.e.q.flights && k < |s.e.q.flights[id]|
    requires ExitOf(Row(s.e.q.store, s.e.q.flights[id][k].id), out).NormalExit?
    ensures var f, q1 := s.e.q.flights[id][k], Landed(s.e.q, id, k, out, now);
            InOrder(NotifyChain(q1, cap, f, FinalState(q1.store, f), built, now).store, c)
  {
    var f, q1 := s.e.q.flights[id][k], Landed(s.e.q, id, k, out, now);
    if f.cfg.chainId == Some(c) {
      FinishedStepIsLast(s, c, id, k);
      OwnNotifiedInOrder(s, cap, c, id, k, out, built, now);
    } else {
      LandedInOrder(s, c, id, k, out, now);
      OtherNotifiedInOrder(q1, cap, f, FinalState(q1.store, f), built, now, c);
    }
  }

  lemma CompletionInOrder(s: Sys, cap: nat, c: Id, id: Id, k: nat, out: Outcome, builds: Builds, now: u64)
    requires AllWell(s) && c !in s.h.forged && QuietSteps(s, c) && InOrder(s.e.q.store, c)
    requires id in s.e.q.flights && k < |s.e.q.flights[id]|
    ensures InOrder(Complete(s.e.q, cap, id, k, out, builds, now).store, c)
  {
    var f, q1 := s.e.q.flights[id][k], Landed(s.e.q, id, k, out, now);
    CompleteIsNotified(s.e.q, id, k, cap, out, builds, now);
    LandedInOrder(s, c, id, k, out, now);
    if ExitOf(Row(s.e.q.store, f.id), out).NormalExit? {
      var q2 := NotifyChain(q1, cap, f, FinalState(q1.store, f), builds.step, now);
      NotifiedInOrder(s, cap, c, id, k, out, builds.step, now);
      ChordLeaves(q2, cap, f, builds.callback, now, c);
      LeavesKeeps(q2.store, NotifyChord(q2, cap, f, builds.callback, now).store, c);
    }
  }

  // ----- every other step -----

  lemma CreatedInOrder(q: QueueState, cap: nat, c: Id, tasks: seq<TaskConfig>, built: Option<Chord.Built>, now: u64)
    requires InOrder(q.store, c) && c !in q.store.chains
    ensures InOrder(ChainOp(q, cap, c, tasks, built, now).store, c)
  {
    if tasks != [] {
      var q1 := q.(store := CreateChain(q.store, c, tasks));
      assert InOrder(q1.store, c);
      AdvanceInOrder(q1, cap, c, built, now);
    }
  }

  /** Chains and insertions stay; events are only appended. */
  ghost predicate SameBooks(s: StoreState, s': StoreState) {
    s'.chains == s.chains && s'.inserted == s.inserted && s.events <= s'.events
  }

  lemma AdmitBooks(q: QueueState, t: Task, now: u64)
    ensures SameBooks(q.store, Admit(q, t, now).store)
  {
    AdmitOwn(q, t, now);
  }

  lemma PrologueBooks(q: QueueState, now: u64)
    ensures SameBooks(q.store, Prologue(q, now).store)
  {
    if q.pending != [] && q.pending[0].id in q.store.tasks {
      AdmitBooks(q.(pending := q.pending[1..]), q.store.tasks[q.pending[0].id], now);
    }
  }

  lemma CronLeaves(p: Params, e: EngineState, draw: nat, c: Id)
    requires e.cron.todo != []
    ensures Leaves(e.q.store, CronStep(p, e, draw).q.store, c)
  {
  }

  lemma DispatchLeaves(q: QueueState, cap: nat, b: Chord.Built, cfg: TaskConfig, now: u64, c: Id)
    requires cfg.chainId != Some(c)
    ensures Leaves(q.store, DispatchOp(q, cap, b, cfg, now).0.store, c)
  {
    if cfg.replaceExisting || b.id !in q.store.tasks {
      DispatchAdds(q, cap, b, cfg, now);
      StepsAppend(q.store.inserted, NewTask(b.id, cfg, b.nextFire, now), c);
    }
  }

  lemma CreateLeaves(q: QueueState, cap: nat, d: Id, tasks: seq<TaskConfig>, built: Option<Chord.Built>, now: u64,
                     c: Id)
    requires c != d
    ensures Leaves(q.store, ChainOp(q, cap, d, tasks, built, now).store, c)
  {
    if tasks != [] {
      AdvanceLeaves(q.(store := CreateChain(q.store, d, tasks)), cap, d, built, now, c);
    }
  }

  lemma InsertionLeaves(p: Params, e: EngineState, a: Action, c: Id)
    requires Enabled(p, e, a) && IsInsertion(a) && c !in Forges(a)
    requires a.NewChain? ==> a.chainId != c
    ensures Leaves(e.q.store, Step(p, e, a).q.store, c)
  {
    match a
    case Dispatch(b, cfg, now) => DispatchLeaves(e.q, p.cap, b, cfg, now, c);
    case NewHeader(d, cfg, b, now) => StepsAppend(e.q.store.inserted, HeaderTask(d, cfg, b, now), c);
    case NewChain(d, tasks, built, now) => CreateLeaves(e.q, p.cap, d, tasks, built, now, c);
    case NewChord(_, _, _) =>
  }

  lemma CancelBooks(s: StoreState, id: Id, now: u64)
    ensures SameBooks(s, CancelTask(s, id, now).0)
  {
  }

  lemma RowRequestBooks(p: Params, e: EngineState, a: Action)
    requires Enabled(p, e, a) && IsRowRequest(a)
    ensures SameBooks(e.q.store, Step(p, e, a).q.store)
  {
  }

  lemma TickLeaves(p: Params, e: EngineState, a: Action, c: Id)
    requires Enabled(p, e, a) && IsTick(a)
    ensures Leaves(e.q.store, Step(p, e, a).q.store, c)
  {
  }

  lemma StepKeepsOrder(p: Params, s: Sys, a: Action, c: Id)
    requires AllWell(s) && Enabled(p, s.e, a) && ChainInv(s, c)
    ensures ChainInv(Next(p, s, a), c)
  {
    var s' := Next(p, s, a);
    if c !in s'.h.forged && QuietSteps(s', c) {
      LogGrows(p, s.e, a);
      RememberMax(p, s.e, a, s'.e, s.h);
      QuietStepsBefore(s, s', c);
      StepInOrder(p, s, a, c);
    }
  }

  lemma StepInOrder(p: Params, s: Sys, a: Action, c: Id)
    requires AllWell(s) && Enabled(p, s.e, a) && c !in Forges(a)
    requires c !in s.h.forged && QuietSteps(s, c) && InOrder(s.e.q.store, c)
    ensures InOrder(Step(p, s.e, a).q.store, c)
  {
    var e := s.e;
    if a.Completion? {
      CompletionInOrder(s, p.cap, c, a.id, a.k, a.out, a.builds, a.now);
    } else if a.NewChain? && a.chainId == c {
      CreatedInOrder(e.q, p.cap, c, a.tasks, a.built, a.now);
    } else {
      OtherLeaves(p, e, a, c);
      LeavesKeeps(e.q.store, Step(p, e, a).q.store, c);
    }
  }

  lemma OtherLeaves(p: Params, e: EngineState, a: Action, c: Id)
    requires Enabled(p, e, a) && c !in Forges(a)
    requires !a.Completion? && (a.NewChain? ==> a.chainId != c)
    ensures Leaves(e.q.store, Step(p, e, a).q.store, c)
  {
    if IsInsertion(a) {
      InsertionLeaves(p, e, a, c);
    } else if IsRowRequest(a) {
      RowRequestBooks(p, e, a);
    } else if a.Cancel? {
      CancelBooks(e.q.store, a.id, a.now);
    } else if IsTick(a) {
      TickLeaves(p, e, a, c);
    } else if a.ProcessOne? {
      PrologueBooks(e.q, a.now);
    } else if a.CronTask? {
      CronLeaves(p, e, a.draw, c);
    }
  }

  lemma MoveKeepsOrder(p: Params, s: Sys, a: Action, s': Sys, c: Id)
    requires AllWell(s) && ChainInv(s, c) && Moves(p, s, a, s')
    ensures ChainInv(s', c)
  {
    StepKeepsOrder(p, s, a, c);
  }

  lemma {:induction false} TraceKeepsOrder(p: Params, states: seq<Sys>, actions: seq<Action>, k: nat, c: Id)
    requires IsTrace(p, states, actions) && k <= |actions|
    ensures ChainInv(states[k], c)
  {
    if k > 0 {
      TraceKeepsOrder(p, states, actions, k - 1, c);
      TraceIsWell(p, states, actions, k - 1);
      assert MovesAt(p, states, actions, k - 1);
      MoveKeepsOrder(p, states[k - 1], actions[k - 1], states[k], c);
    }
  }

  lemma ReachableInOrder(p: Params, s: Sys, c: Id)
    requires Reachable(p, s) && c !in s.h.forged && QuietSteps(s, c)
    ensures InOrder(s.e.q.store, c)
  {
    var states, actions :| IsTrace(p, states, actions) && states[|actions|] == s;
    TraceKeepsOrder(p, states, actions, |actions|, c);
  }

  /** Succeeded exactly once, terminal, and nothing in flight. */
  ghost predicate Over(s: Sys, id: Id) {
    && CountEvents(s.e.q.store.events, id, Succeeded) == 1
    && id in s.e.q.store.tasks && TaskOf(s, id).state.IsTerminal()
    && FlightsOf(s.e.q, id) == []
  }

  lemma DoneIsOver(p: Params, s: Sys, id: Id)
    requires Reachable(p, s) && QuietLimitOne(s, id) && !IsPeriodic(LifeOf(s, id).made[0].cfg)
    requires Done(s.e.q.store, id)
    ensures Over(s, id)
  {
    AtMostOneSuccess(p, s, id);
  }

  /** In every reachable state, for a chain whose marker no request supplied and
      whose steps so far are quiet limit-1 one-shots: the inserted steps are the
      first configurations of the chain, in order, none skipped or repeated, and
      every step but the last is over. So at most one step is live, and a step
      is inserted only after its predecessor succeeded. */
  lemma ChainRunsInOrder(p: Params, s: Sys, c: Id)
    requires Reachable(p, s) && c in s.e.q.store.chains
    requires c !in s.h.forged && QuietSteps(s, c)
    ensures var steps, tasks := StepsOf(s.e.q.store.inserted, c), s.e.q.store.chains[c].tasks;
            && |steps| <= |tasks|
            && (forall i :: 0 <= i < |steps| ==> steps[i].cfg == tasks[i].(chainId := Some(c)))
            && (forall i :: 0 <= i < |steps| - 1 ==> Over(s, steps[i].id))
  {
    ReachableInOrder(p, s, c);
    var steps := StepsOf(s.e.q.store.inserted, c);
    forall i | 0 <= i < |steps| - 1
      ensures Over(s, steps[i].id)
    {
      DoneButLast(s.e.q.store, steps, i);
      DoneIsOver(p, s, steps[i].id);
    }
  }
}
