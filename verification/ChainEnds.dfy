/** How chains end: a step that fails with a result ends its chain for good, and a
    chain has succeeded exactly when its last step has. */
module ChainEnds {
  import opened Types
  import opened Store
  import opened Queue
  import opened Engine
  import opened Lives
  import opened Steps
  import opened Guarantees
  import opened Clocks
  import opened ChainRuns
  import Admissions
  import Chord
  import OutcomeRuns

  // ----- a failed step fails its chain -----

  lemma CompletionStore(q: QueueState, id: Id, k: nat, cap: nat, out: Outcome, builds: Builds, now: u64)
    requires id in q.flights && k < |q.flights[id]|
    ensures Complete(q, cap, id, k, out, builds, now).store == Notified(q, id, k, cap, out, builds, now).store
  {
    CompleteIsNotified(q, id, k, cap, out, builds, now);
  }

  lemma ChordKeepsChains(q: QueueState, cap: nat, f: Task, built: Option<Chord.Built>, now: u64)
    ensures NotifyChord(q, cap, f, built, now).store.chains == q.store.chains
    ensures forall x :: x in q.store.tasks ==> x in NotifyChord(q, cap, f, built, now).store.tasks
    ensures forall x :: x in q.store.tasks && NotifyChord(q, cap, f, built, now).store.tasks[x] != q.store.tasks[x] ==>
              NotifyChord(q, cap, f, built, now).store.tasks[x].state.Pending?
  {
    ChordAdds(q, cap, f, built, now);
    if f.cfg.chordId.Some? {
      RefreshInserts(q.store, f.cfg.chordId.value, built, now);
    }
  }

  /** The settled row, if the completion leaves it Failed. */
  lemma LeftFailed(q: QueueState, id: Id, k: nat, cap: nat, out: Outcome, builds: Builds, now: u64)
    requires id in q.flights && k < |q.flights[id]| && q.flights[id][k].id == id && out.Completed?
    requires id in Notified(q, id, k, cap, out, builds, now).store.tasks && id in q.store.tasks
    requires Notified(q, id, k, cap, out, builds, now).store.tasks[id].state == Failed
    ensures ExitOf(Row(q.store, id), out).NormalExit?
    ensures FinalState(Landed(q, id, k, out, now).store, q.flights[id][k]) == Failed
  {
    var f, q1 := q.flights[id][k], Landed(q, id, k, out, now);
    var final := FinalState(q1.store, f);
    if ExitOf(Row(q.store, id), out).NormalExit? && final != Failed && final.IsTerminal() {
      if f.cfg.chainId.Some? {
        Admissions.ChainIsTold(q1, cap, f, final, builds.step, now);
      }
      ChordKeepsChains(NotifyChain(q1, cap, f, final, builds.step, now), cap, f, builds.callback, now);
    }
  }

  /** A completion with a result that leaves the row of a chain's task Failed sets
      the record of the chain back to step 0, and to failed. */
  lemma FailedStepFailsChain(p: Params, s: Sys, a: Action, c: Id)
    requires Reachable(p, s) && Enabled(p, s.e, a) && a.Completion? && a.out.Completed?
    requires s.e.q.flights[a.id][a.k].cfg.chainId == Some(c) && c in s.e.q.store.chains
    requires var s' := Next(p, s, a);
             && a.id in s.e.q.store.tasks && a.id in s'.e.q.store.tasks
             && TaskOf(s', a.id).state == Failed
    ensures var s' := Next(p, s, a);
            && c in s'.e.q.store.chains
            && s'.e.q.store.chains[c] == ChainRecord(s.e.q.store.chains[c].tasks, 0, RecFailed)
  {
    var q, f := s.e.q, s.e.q.flights[a.id][a.k];
    ReachableIsWell(p, s, a.id);
    assert FlightsOf(q, a.id)[a.k].id == a.id;
    CompletionStore(q, a.id, a.k, p.cap, a.out, a.builds, a.now);
    LeftFailed(q, a.id, a.k, p.cap, a.out, a.builds, a.now);
    var q1 := Landed(q, a.id, a.k, a.out, a.now);
    Admissions.ChainIsTold(q1, p.cap, f, Failed, a.builds.step, a.now);
    ChordKeepsChains(NotifyChain(q1, p.cap, f, Failed, a.builds.step, a.now), p.cap, f, a.builds.callback, a.now);
  }

  // ----- and nothing of a failed chain is inserted any more -----

  predicate HasFailed(st: StoreState, c: Id) {
    c in st.chains && st.chains[c].state == RecFailed && st.chains[c].currentStep == 0
  }

  lemma ToldFailedChainStays(q: QueueState, cap: nat, f: Task, final: TaskState, built: Option<Chord.Built>, now: u64,
                             c: Id)
    requires HasFailed(q.store, c)
    ensures Leaves(q.store, NotifyChain(q, cap, f, final, built, now).store, c)
  {
    if f.cfg.chainId == Some(c) {
      Admissions.ChainIsTold(q, cap, f, final, built, now);
    } else if f.cfg.chainId.Some? && final.Success? {
      AdvanceLeaves(q, cap, f.cfg.chainId.value, built, now, c);
    }
  }

  lemma LandedLeaves(q: QueueState, id: Id, k: nat, out: Outcome, now: u64, c: Id)
    requires id in q.flights && k < |q.flights[id]|
    ensures Leaves(q.store, Landed(q, id, k, out, now).store, c)
  {
  }

  lemma LeavesTwice(s: StoreState, s1: StoreState, s2: StoreState, c: Id)
    requires Leaves(s, s1, c) && Leaves(s1, s2, c)
    ensures Leaves(s, s2, c)
  {
  }

  lemma CompletionLeavesFailed(q: QueueState, id: Id, k: nat, cap: nat, out: Outcome, builds: Builds, now: u64, c: Id)
    requires id in q.flights && k < |q.flights[id]| && HasFailed(q.store, c)
    ensures Leaves(q.store, Complete(q, cap, id, k, out, builds, now).store, c)
  {
    var f, q1 := q.flights[id][k], Landed(q, id, k, out, now);
    var final := FinalState(q1.store, f);
    CompletionStore(q, id, k, cap, out, builds, now);
    LandedLeaves(q, id, k, out, now, c);
    if ExitOf(Row(q.store, f.id), out).NormalExit? && final.IsTerminal() {
      var q2 := NotifyChain(q1, cap, f, final, builds.step, now);
      ToldFailedChainStays(q1, cap, f, final, builds.step, now, c);
      ChordLeaves(q2, cap, f, builds.callback, now, c);
      LeavesTwice(q.store, q1.store, q2.store, c);
      LeavesTwice(q.store, q2.store, NotifyChord(q2, cap, f, builds.callback, now).store, c);
    }
  }

  lemma StepLeavesFailed(p: Params, s: Sys, a: Action, c: Id)
    requires Enabled(p, s.e, a) && HasFailed(s.e.q.store, c) && c !in Next(p, s, a).h.forged
    ensures Leaves(s.e.q.store, Next(p, s, a).e.q.store, c)
  {
    RememberMax(p, s.e, a, Step(p, s.e, a), s.h);
    if a.Completion? {
      CompletionLeavesFailed(s.e.q, a.id, a.k, p.cap, a.out, a.builds, a.now, c);
    } else {
      OtherLeaves(p, s.e, a, c);
    }
  }

  lemma ForgedGrows(p: Params, s: Sys, a: Action)
    requires Enabled(p, s.e, a)
    ensures s.h.forged <= Next(p, s, a).h.forged
  {
  }

  /** Over every continuation in which no request supplies the chain's marker, the
      record of a failed chain stays as it is, and no further step of it is
      inserted. */
  lemma {:induction false} FailedChainStops(p: Params, s: Sys, actions: seq<Action>, s': Sys, c: Id)
    requires IsRun(p, s, actions, s') && HasFailed(s.e.q.store, c) && c !in s'.h.forged
    ensures c in s'.e.q.store.chains && s'.e.q.store.chains[c] == s.e.q.store.chains[c]
    ensures StepsOf(s'.e.q.store.inserted, c) == StepsOf(s.e.q.store.inserted, c)
    decreases |actions|
  {
    if actions != [] {
      var next := Next(p, s, actions[0]);
      RunForgesMore(p, next, actions[1..], s');
      StepLeavesFailed(p, s, actions[0], c);
      FailedChainStops(p, next, actions[1..], s', c);
    }
  }

  lemma {:induction false} RunForgesMore(p: Params, s: Sys, actions: seq<Action>, s': Sys)
    requires IsRun(p, s, actions, s')
    ensures s.h.forged <= s'.h.forged
    decreases |actions|
  {
    if actions != [] {
      ForgedGrows(p, s, actions[0]);
      RunForgesMore(p, Next(p, s, actions[0]), actions[1..], s');
    }
  }

  /** Both together: once a step of a chain ends Failed with a result, the chain's
      record is failed and no continuation inserts another step. */
  lemma FailedStepEndsChain(p: Params, s: Sys, a: Action, actions: seq<Action>, s': Sys, c: Id)
    requires Reachable(p, s) && Enabled(p, s.e, a) && a.Completion? && a.out.Completed?
    requires s.e.q.flights[a.id][a.k].cfg.chainId == Some(c) && c in s.e.q.store.chains
    requires var s1 := Next(p, s, a);
             && a.id in s.e.q.store.tasks && a.id in s1.e.q.store.tasks
             && TaskOf(s1, a.id).state == Failed
    requires IsRun(p, Next(p, s, a), actions, s') && c !in s'.h.forged
    ensures c in s'.e.q.store.chains
    ensures s'.e.q.store.chains[c] == ChainRecord(s.e.q.store.chains[c].tasks, 0, RecFailed)
    ensures StepsOf(s'.e.q.store.inserted, c) == StepsOf(Next(p, s, a).e.q.store.inserted, c)
  {
    FailedStepFailsChain(p, s, a, c);
    FailedChainStops(p, Next(p, s, a), actions, s', c);
  }

  /** The program says nothing to the chain when an execution comes back without a
      result, or a cancel was requested, even if that ends its task. */
  lemma OnlyResultsAreTold(p: Params, s: Sys, a: Action)
    requires Reachable(p, s) && Enabled(p, s.e, a) && a.Completion?
    requires a.out.DispatchError? || (a.id in s.e.q.store.tasks && TaskOf(s, a.id).cancelRequested)
    ensures Next(p, s, a).e.q.store.chains == s.e.q.store.chains
    ensures Next(p, s, a).e.q.store.inserted == s.e.q.store.inserted
  {
    ReachableIsWell(p, s, a.id);
    assert FlightsOf(s.e.q, a.id)[a.k].id == a.id;
    CompletionStore(s.e.q, a.id, a.k, p.cap, a.out, a.builds, a.now);
  }

  // ----- how every chain stands -----

  /** A chain has succeeded if and only if all its configurations were inserted
      and all steps have, and failed if and only if its last step ended with a
      result, but not with success. */
  ghost predicate EndsRight(st: StoreState, ended: set<Id>, c: Id)
    requires c in st.chains
  {
    var r, steps := st.chains[c], StepsOf(st.inserted, c);
    && r.tasks != []
    && (r.state == RecSuccess <==> |steps| == |r.tasks| && AllDone(st, steps))
    && (r.state == RecFailed <==> steps != [] && LastEndedBadly(st, ended, steps))
  }

  predicate LastEndedBadly(st: StoreState, ended: set<Id>, steps: seq<Task>)
    requires steps != []
  {
    steps[|steps| - 1].id in ended && !Done(st, steps[|steps| - 1].id)
  }

  /** For the ids of the steps: the same successes and endings. */
  ghost predicate SameFates(st: StoreState, st': StoreState, ended: set<Id>, ended': set<Id>, steps: seq<Task>) {
    forall i :: 0 <= i < |steps| ==> SameFate(st, st', ended, ended', steps[i].id)
  }

  predicate SameFate(st: StoreState, st': StoreState, ended: set<Id>, ended': set<Id>, id: Id) {
    (Done(st', id) <==> Done(st, id)) && (id in ended' <==> id in ended)
  }

  lemma LeftAloneEndsRight(st: StoreState, st': StoreState, ended: set<Id>, ended': set<Id>, c: Id)
    requires c in st.chains && EndsRight(st, ended, c) && Leaves(st, st', c)
    requires SameFates(st, st', ended, ended', StepsOf(st.inserted, c))
    ensures EndsRight(st', ended', c)
  {
    var steps := StepsOf(st.inserted, c);
    assert AllDone(st', steps) <==> AllDone(st, steps);
  }

  ghost predicate ChainEndsInv(s: Sys, c: Id) {
    c !in s.h.forged && QuietSteps(s, c) && c in s.e.q.store.chains ==> EndsRight(s.e.q.store, s.h.ended, c)
  }

  // Steps that end no execution.

  lemma OthersCountNothing(p: Params, e: EngineState, a: Action, id: Id)
    requires Enabled(p, e, a) && !a.Completion?
    ensures CountEvents(Step(p, e, a).q.store.events, id, Succeeded) == CountEvents(e.q.store.events, id, Succeeded)
  {
    OutcomeRuns.OthersTellNothing(p, e, a);
    OutcomeRuns.TellingNothingCounts(e.q.store.events, Step(p, e, a).q.store.events, id);
  }

  lemma EndedOnlyByCompletions(p: Params, s: Sys, a: Action)
    requires Enabled(p, s.e, a) && !a.Completion?
    ensures Next(p, s, a).h.ended == s.h.ended
  {
  }

  lemma OthersEndNothing(p: Params, e: EngineState, a: Action, ended: set<Id>, steps: seq<Task>)
    requires Enabled(p, e, a) && !a.Completion?
    ensures SameFates(e.q.store, Step(p, e, a).q.store, ended, ended, steps)
  {
    forall i | 0 <= i < |steps|
      ensures SameFate(e.q.store, Step(p, e, a).q.store, ended, ended, steps[i].id)
    {
      OthersCountNothing(p, e, a, steps[i].id);
    }
  }

  lemma OtherStepEndsRight(p: Params, e: EngineState, a: Action, ended: set<Id>, c: Id)
    requires Enabled(p, e, a) && !a.Completion? && c !in Forges(a)
    requires !(a.NewChain? && a.chainId == c)
    requires c in e.q.store.chains && EndsRight(e.q.store, ended, c)
    ensures c in Step(p, e, a).q.store.chains && EndsRight(Step(p, e, a).q.store, ended, c)
  {
    OtherLeaves(p, e, a, c);
    OthersEndNothing(p, e, a, ended, StepsOf(e.q.store.inserted, c));
    LeftAloneEndsRight(e.q.store, Step(p, e, a).q.store, ended, ended, c);
  }

  // A new step.

  /** A task inserted once, by this step, has neither succeeded nor ended before. */
  lemma NewStepIsUnknown(s: Sys, s': Sys, id: Id)
    requires Well(s, id) && Unaltered(LifeOf(s', id)) && s.e.q.store.inserted <= s'.e.q.store.inserted
    requires exists k :: |s.e.q.store.inserted| <= k < |s'.e.q.store.inserted| && s'.e.q.store.inserted[k].id == id
    ensures LifeOf(s, id).made == [] && id !in s.h.ended && !Done(s.e.q.store, id)
    ensures FlightsOf(s.e.q, id) == []
  {
    var log, log' := s.e.q.store.inserted, s'.e.q.store.inserted;
    var k :| |log| <= k < |log'| && log'[k].id == id;
    MadeMore(log, log', id, k);
  }

  lemma {:induction false} MadeMore(log: seq<Task>, log': seq<Task>, id: Id, k: nat)
    requires log <= log' && |log| <= k < |log'| && log'[k].id == id
    ensures |Made(log, id)| < |Made(log', id)|
  {
    var front := log'[..|log'| - 1];
    if k < |log'| - 1 {
      assert log <= front && front[k].id == id;
      MadeMore(log, front, id, k);
    } else {
      MadePrefix(log, front, id);
    }
  }

  /** The steps after one more was inserted: it is not done. */
  lemma GrownEndsRight(st: StoreState, st': StoreState, ended: set<Id>, c: Id, t: Task)
    requires c in st'.chains && st'.chains[c].tasks != []
    requires StepsOf(st'.inserted, c) == StepsOf(st.inserted, c) + [t]
    requires !Done(st', t.id) && t.id !in ended
    requires st'.chains[c].state != RecSuccess && st'.chains[c].state != RecFailed
    ensures EndsRight(st', ended, c)
  {
    var steps := StepsOf(st'.inserted, c);
    assert steps[|steps| - 1] == t;
    assert !Done(st', steps[|steps| - 1].id);
  }

  // A step of the chain ends.

  lemma FlyingHasNotEnded(id: Id, l: Life)
    requires Inv(id, l) && Quiet(l) && LimitOne(l.made[0].cfg) && l.flights != []
    ensures !l.ended
  {
    assert Live(l);
  }

  /** While a step is in flight its chain has not ended, and the step is its last
      so far. */
  lemma CarrierIsOfLiveChain(s: Sys, c: Id, id: Id, k: nat)
    requires AllWell(s) && c !in s.h.forged && QuietSteps(s, c) && InOrder(s.e.q.store, c)
    requires id in s.e.q.flights && k < |s.e.q.flights[id]| && s.e.q.flights[id][k].cfg.chainId == Some(c)
    requires c in s.e.q.store.chains && EndsRight(s.e.q.store, s.h.ended, c)
    ensures var r := s.e.q.store.chains[c];
            && IsLastStep(s.e.q.store, c, id) && FliesForRow(s.e.q, id, k)
            && r.state != RecSuccess && r.state != RecFailed
            && r.currentStep == |StepsOf(s.e.q.store.inserted, c)|
    ensures !Done(s.e.q.store, id) && id !in s.h.ended
  {
    var j := CarrierIsUndone(s, c, id, k);
    OnlyLastIsUndone(s.e.q.store, c, j);
    StepIsQuiet(s, c, j);
    assert Well(s, id) && LifeOf(s, id).flights == s.e.q.flights[id];
    FlyingHasNotEnded(id, LifeOf(s, id));
    assert StepsOf(s.e.q.store.inserted, c)[|StepsOf(s.e.q.store.inserted, c)| - 1].id == id;
  }

  /** The store with the execution's end settled, before anybody is told. */
  lemma SettledFates(s: StoreState, f: Task, out: Outcome, now: u64, id: Id)
    requires f.id in s.tasks && !IsPeriodic(f.cfg)
    ensures id != f.id || !SettleRow(s.tasks[f.id], f, out, now).state.Success?
            || !ExitOf(Row(s, f.id), out).NormalExit? ==>
              (Done(Settle(s, f, out, now), id) <==> Done(s, id))
  {
    SettleTale(s, f, out, now, id);
  }

  /** The execution ends without ending the task: retried, cancelled or in error. */
  lemma UntoldEndsRight(s: Sys, c: Id, id: Id, k: nat, out: Outcome, now: u64)
    requires AllWell(s) && c !in s.h.forged && QuietSteps(s, c) && InOrder(s.e.q.store, c)
    requires id in s.e.q.flights && k < |s.e.q.flights[id]| && s.e.q.flights[id][k].cfg.chainId == Some(c)
    requires c in s.e.q.store.chains && EndsRight(s.e.q.store, s.h.ended, c)
    requires !Ends(Row(s.e.q.store, id), s.e.q.flights[id][k], out, now)
    ensures EndsRight(Landed(s.e.q, id, k, out, now).store, s.h.ended, c)
  {
    var st, st1, f := s.e.q.store, Landed(s.e.q, id, k, out, now).store, s.e.q.flights[id][k];
    var steps := StepsOf(st.inserted, c);
    CarrierIsOfLiveChain(s, c, id, k);
    LandedLeaves(s.e.q, id, k, out, now, c);
    forall i | 0 <= i < |steps|
      ensures Done(st1, steps[i].id) <==> Done(st, steps[i].id)
    {
      SettledFates(st, f, out, now, steps[i].id);
    }
    LeftAloneEndsRight(st, st1, s.h.ended, s.h.ended, c);
  }

  /** A live chain in order, all of whose steps so far are done. */
  ghost predicate MovesOn(st: StoreState, c: Id) {
    && c in st.chains && InOrder(st, c)
    && var r, steps := st.chains[c], StepsOf(st.inserted, c);
       && r.tasks != [] && r.state != RecSuccess && r.state != RecFailed && r.currentStep == |steps| != 0
       && AllDone(st, steps)
  }

  /** The last step so far is done, and the chain told: it goes on, or it has
      succeeded. */
  lemma ToldSuccessEndsRight(q: QueueState, cap: nat, f: Task, built: Option<Chord.Built>, now: u64, ended: set<Id>,
                             c: Id)
    requires f.cfg.chainId == Some(c) && MovesOn(q.store, c)
    requires var r, steps := q.store.chains[c], StepsOf(q.store.inserted, c);
             built.Some? && |steps| < |r.tasks| ==> !Done(q.store, built.value.id) && built.value.id !in ended
    ensures c in NotifyChain(q, cap, f, Success, built, now).store.chains
    ensures EndsRight(NotifyChain(q, cap, f, Success, built, now).store, ended, c)
    ensures NotifyChain(q, cap, f, Success, built, now).store.events == q.store.events
  {
    var st', r := NotifyChain(q, cap, f, Success, built, now).store, q.store.chains[c];
    Admissions.ChainIsTold(q, cap, f, Success, built, now);
    if r.currentStep < |r.tasks| && built.Some? {
      var t := st'.tasks[built.value.id];
      StepsAppend(q.store.inserted, t, c);
      GrownEndsRight(q.store, st', ended, c, t);
    } else {
      assert AllDone(st', StepsOf(st'.inserted, c));
    }
  }

  /** The last step so far ended without success, and the chain is told. */
  lemma ToldFailureEndsRight(q: QueueState, cap: nat, f: Task, built: Option<Chord.Built>, now: u64, ended: set<Id>,
                             c: Id)
    requires f.cfg.chainId == Some(c) && c in q.store.chains && q.store.chains[c].tasks != []
    requires var steps := StepsOf(q.store.inserted, c);
             steps != [] && LastEndedBadly(q.store, ended, steps)
    ensures c in NotifyChain(q, cap, f, Failed, built, now).store.chains
    ensures EndsRight(NotifyChain(q, cap, f, Failed, built, now).store, ended, c)
    ensures NotifyChain(q, cap, f, Failed, built, now).store.events == q.store.events
  {
    Admissions.ChainIsTold(q, cap, f, Failed, built, now);
  }

  lemma ChordEndsRight(q: QueueState, cap: nat, f: Task, built: Option<Chord.Built>, now: u64, ended: set<Id>, c: Id)
    requires c in q.store.chains && EndsRight(q.store, ended, c)
    ensures c in NotifyChord(q, cap, f, built, now).store.chains
    ensures EndsRight(NotifyChord(q, cap, f, built, now).store, ended, c)
  {
    ChordLeaves(q, cap, f, built, now, c);
    OutcomeRuns.ChordIsSilent(q, cap, f, built, now);
    LeftAloneEndsRight(q.store, NotifyChord(q, cap, f, built, now).store, ended, ended, c);
  }

  lemma TerminalFinal(s: Sys, id: Id, k: nat, out: Outcome, now: u64)
    requires FliesForRow(s.e.q, id, k)
    ensures var f, row := s.e.q.flights[id][k], s.e.q.store.tasks[id];
            var final := FinalState(Landed(s.e.q, id, k, out, now).store, f);
            && final == SettleRow(row, f, out, now).state
            && (Ends(Some(row), f, out, now) <==> ExitOf(Some(row), out).NormalExit? && final.IsTerminal())
            && (Ends(Some(row), f, out, now) ==> final.Success? || final.Failed?)
  {
    LandedState(s, id, k, out, now);
  }

  /** A chain told of a success inserts its next configuration as its next step. */
  lemma ToldInserts(q: QueueState, cap: nat, f: Task, builds: Builds, now: u64, c: Id)
    requires f.cfg.chainId == Some(c) && c in q.store.chains && builds.step.Some?
    requires var r := q.store.chains[c];
             r.state != RecSuccess && r.state != RecFailed && r.currentStep < |r.tasks|
    ensures var log, log' := q.store.inserted, Notify(q, cap, f, Success, builds, now).store.inserted;
            && log <= log' && |log| < |log'| && log'[|log|].id == builds.step.value.id
            && |StepsOf(log, c)| < |StepsOf(log', c)|
            && StepsOf(log', c)[|StepsOf(log, c)|].id == builds.step.value.id
  {
    var q2 := NotifyChain(q, cap, f, Success, builds.step, now);
    Admissions.ChainIsTold(q, cap, f, Success, builds.step, now);
    ChordInserts(q2, cap, f, builds.callback, now);
    StepsAppend(q.store.inserted, q2.store.tasks[builds.step.value.id], c);
    StepsPrefix(q2.store.inserted, NotifyChord(q2, cap, f, builds.callback, now).store.inserted, c);
  }

  /** If the chain is told of a success and its next configuration builds, the new
      step's id was not in use before. */
  lemma NextStepIsUnknown(s: Sys, s': Sys, id: Id, k: nat, cap: nat, out: Outcome, builds: Builds, now: u64, c: Id)
    requires AllWell(s) && QuietSteps(s', c) && FliesForRow(s.e.q, id, k)
    requires s.e.q.flights[id][k].cfg.chainId == Some(c) && c in s.e.q.store.chains && builds.step.Some?
    requires var r := s.e.q.store.chains[c];
             r.state != RecSuccess && r.state != RecFailed && r.currentStep < |r.tasks|
    requires s'.e.q.store
             == Notify(Landed(s.e.q, id, k, out, now), cap, s.e.q.flights[id][k], Success, builds, now).store
    ensures var b := builds.step.value.id;
            b != id && b !in s.h.ended && !Done(Landed(s.e.q, id, k, out, now).store, b)
  {
    var q1, b := Landed(s.e.q, id, k, out, now), builds.step.value.id;
    ToldInserts(q1, cap, s.e.q.flights[id][k], builds, now, c);
    StepIsQuiet(s', c, |StepsOf(q1.store.inserted, c)|);
    assert Well(s, b);
    NewStepIsUnknown(s, s', b);
    SettledFates(s.e.q.store, s.e.q.flights[id][k], out, now, b);
  }

  lemma OwnCompletionEndsRight(p: Params, s: Sys, a: Action, s': Sys, c: Id)
    requires AllWell(s) && Moves(p, s, a, s') && a.Completion? && QuietSteps(s', c)
    requires c !in s.h.forged && QuietSteps(s, c) && InOrder(s.e.q.store, c)
    requires s.e.q.flights[a.id][a.k].cfg.chainId == Some(c)
    requires c in s.e.q.store.chains && EndsRight(s.e.q.store, s.h.ended, c)
    ensures c in s'.e.q.store.chains && EndsRight(s'.e.q.store, s'.h.ended, c)
  {
    var f, q1 := s.e.q.flights[a.id][a.k], Landed(s.e.q, a.id, a.k, a.out, a.now);
    CarrierIsOfLiveChain(s, c, a.id, a.k);
    TerminalFinal(s, a.id, a.k, a.out, a.now);
    CompletionStore(s.e.q, a.id, a.k, p.cap, a.out, a.builds, a.now);
    EndedAfter(p, s, a);
    if Ends(Row(s.e.q.store, a.id), f, a.out, a.now) {
      EndedCompletionEndsRight(p, s, a, s', c);
    } else {
      UntoldEndsRight(s, c, a.id, a.k, a.out, a.now);
    }
  }

  lemma EndedAfter(p: Params, s: Sys, a: Action)
    requires Enabled(p, s.e, a) && a.Completion?
    ensures Next(p, s, a).h.ended
         == if Ends(Row(s.e.q.store, a.id), s.e.q.flights[a.id][a.k], a.out, a.now) then s.h.ended + {a.id}
            else s.h.ended
  {
  }

  lemma SucceededMovesOn(s: Sys, id: Id, k: nat, out: Outcome, now: u64, c: Id)
    requires AllWell(s) && QuietSteps(s, c) && c !in s.h.forged && InOrder(s.e.q.store, c)
    requires id in s.e.q.flights && k < |s.e.q.flights[id]| && s.e.q.flights[id][k].cfg.chainId == Some(c)
    requires c in s.e.q.store.chains && EndsRight(s.e.q.store, s.h.ended, c) && FliesForRow(s.e.q, id, k)
    requires ExitOf(Row(s.e.q.store, id), out).NormalExit?
    requires FinalState(Landed(s.e.q, id, k, out, now).store, s.e.q.flights[id][k]) == Success
    ensures MovesOn(Landed(s.e.q, id, k, out, now).store, c)
  {
    CarrierIsOfLiveChain(s, c, id, k);
    TerminalFinal(s, id, k, out, now);
    LandedInOrder(s, c, id, k, out, now);
    AllDoneNow(s, c, id, k, out, now);
  }

  lemma SucceededEndsRight(s: Sys, s': Sys, id: Id, k: nat, cap: nat, out: Outcome, builds: Builds, now: u64, c: Id)
    requires AllWell(s) && QuietSteps(s', c) && FliesForRow(s.e.q, id, k)
    requires s.e.q.flights[id][k].cfg.chainId == Some(c) && c in s.e.q.store.chains
    requires MovesOn(Landed(s.e.q, id, k, out, now).store, c)
    requires Landed(s.e.q, id, k, out, now).store.chains == s.e.q.store.chains
    requires s'.h.ended == s.h.ended + {id}
    requires s'.e.q.store
             == Notify(Landed(s.e.q, id, k, out, now), cap, s.e.q.flights[id][k], Success, builds, now).store
    ensures var q2 := NotifyChain(Landed(s.e.q, id, k, out, now), cap, s.e.q.flights[id][k], Success, builds.step, now);
            c in q2.store.chains && EndsRight(q2.store, s'.h.ended, c)
  {
    var r := s.e.q.store.chains[c];
    if builds.step.Some? && r.currentStep < |r.tasks| {
      NextStepIsUnknown(s, s', id, k, cap, out, builds, now, c);
    }
    ToldSuccessEndsRight(Landed(s.e.q, id, k, out, now), cap, s.e.q.flights[id][k], builds.step, now, s'.h.ended, c);
  }

  lemma FailedEndsRight(s: Sys, ended: set<Id>, id: Id, k: nat, cap: nat, out: Outcome, builds: Builds, now: u64, c: Id)
    requires AllWell(s) && QuietSteps(s, c) && c !in s.h.forged && InOrder(s.e.q.store, c)
    requires id in s.e.q.flights && k < |s.e.q.flights[id]| && s.e.q.flights[id][k].cfg.chainId == Some(c)
    requires c in s.e.q.store.chains && EndsRight(s.e.q.store, s.h.ended, c)
    requires FinalState(Landed(s.e.q, id, k, out, now).store, s.e.q.flights[id][k]) == Failed
    requires ended == s.h.ended + {id}
    ensures var q2 := NotifyChain(Landed(s.e.q, id, k, out, now), cap, s.e.q.flights[id][k], Failed, builds.step, now);
            c in q2.store.chains && EndsRight(q2.store, ended, c)
  {
    CarrierIsOfLiveChain(s, c, id, k);
    TerminalFinal(s, id, k, out, now);
    SettledFates(s.e.q.store, s.e.q.flights[id][k], out, now, id);
    ToldFailureEndsRight(Landed(s.e.q, id, k, out, now), cap, s.e.q.flights[id][k], builds.step, now, ended, c);
  }

  lemma EndedCompletionEndsRight(p: Params, s: Sys, a: Action, s': Sys, c: Id)
    requires AllWell(s) && Moves(p, s, a, s') && a.Completion? && QuietSteps(s', c)
    requires c !in s.h.forged && QuietSteps(s, c) && InOrder(s.e.q.store, c)
    requires s.e.q.flights[a.id][a.k].cfg.chainId == Some(c)
    requires c in s.e.q.store.chains && EndsRight(s.e.q.store, s.h.ended, c)
    requires FliesForRow(s.e.q, a.id, a.k)
    requires Ends(Row(s.e.q.store, a.id), s.e.q.flights[a.id][a.k], a.out, a.now)
    requires s'.h.ended == s.h.ended + {a.id}
    requires s'.e.q.store == Notified(s.e.q, a.id, a.k, p.cap, a.out, a.builds, a.now).store
    ensures c in s'.e.q.store.chains && EndsRight(s'.e.q.store, s'.h.ended, c)
  {
    var f, q1 := s.e.q.flights[a.id][a.k], Landed(s.e.q, a.id, a.k, a.out, a.now);
    var final := FinalState(q1.store, f);
    TerminalFinal(s, a.id, a.k, a.out, a.now);
    if final.Success? {
      SucceededMovesOn(s, a.id, a.k, a.out, a.now, c);
      LandedInOrder(s, c, a.id, a.k, a.out, a.now);
      SucceededEndsRight(s, s', a.id, a.k, p.cap, a.out, a.builds, a.now, c);
    } else {
      FailedEndsRight(s, s'.h.ended, a.id, a.k, p.cap, a.out, a.builds, a.now, c);
    }
    ChordEndsRight(NotifyChain(q1, p.cap, f, final, a.builds.step, a.now), p.cap, f, a.builds.callback, a.now,
                   s'.h.ended, c);
  }

  // An execution of another task ends.

  lemma {:induction false} StepInMade(log: seq<Task>, c: Id, k: nat)
    requires k < |StepsOf(log, c)|
    ensures StepsOf(log, c)[k] in Made(log, StepsOf(log, c)[k].id)
    ensures StepsOf(log, c)[k].cfg.chainId == Some(c)
  {
    var front, last := log[..|log| - 1], log[|log| - 1];
    if k < |StepsOf(front, c)| {
      StepInMade(front, c, k);
    }
  }

  lemma FlightsOfStepCarry(s: Sys, c: Id, i: nat, k: nat)
    requires AllWell(s) && QuietSteps(s, c) && i < |StepsOf(s.e.q.store.inserted, c)|
    requires var id := StepsOf(s.e.q.store.inserted, c)[i].id;
             id in s.e.q.flights && k < |s.e.q.flights[id]|
    ensures s.e.q.flights[StepsOf(s.e.q.store.inserted, c)[i].id][k].cfg.chainId == Some(c)
  {
    var id := StepsOf(s.e.q.store.inserted, c)[i].id;
    StepInMade(s.e.q.store.inserted, c, i);
    StepIsQuiet(s, c, i);
    assert Well(s, id) && LifeOf(s, id).flights == s.e.q.flights[id];
    OutcomeRuns.FlightOfUnaltered(id, LifeOf(s, id), k);
  }

  lemma ForeignLeaves(q: QueueState, id: Id, k: nat, cap: nat, out: Outcome, builds: Builds, now: u64, c: Id)
    requires id in q.flights && k < |q.flights[id]| && q.flights[id][k].cfg.chainId != Some(c)
    ensures Leaves(q.store, Complete(q, cap, id, k, out, builds, now).store, c)
  {
    var f, q1 := q.flights[id][k], Landed(q, id, k, out, now);
    var final := FinalState(q1.store, f);
    CompletionStore(q, id, k, cap, out, builds, now);
    LandedLeaves(q, id, k, out, now, c);
    if ExitOf(Row(q.store, f.id), out).NormalExit? && final.IsTerminal() {
      var q2 := NotifyChain(q1, cap, f, final, builds.step, now);
      if f.cfg.chainId.Some? && final.Success? {
        AdvanceLeaves(q1, cap, f.cfg.chainId.value, builds.step, now, c);
      }
      ChordLeaves(q2, cap, f, builds.callback, now, c);
      LeavesTwice(q.store, q1.store, q2.store, c);
      LeavesTwice(q.store, q2.store, NotifyChord(q2, cap, f, builds.callback, now).store, c);
    }
  }

  lemma ForeignFate(p: Params, s: Sys, a: Action, c: Id, i: nat)
    requires AllWell(s) && Enabled(p, s.e, a) && a.Completion? && QuietSteps(s, c)
    requires s.e.q.flights[a.id][a.k].cfg.chainId != Some(c) && i < |StepsOf(s.e.q.store.inserted, c)|
    ensures SameFate(s.e.q.store, Next(p, s, a).e.q.store, s.h.ended, Next(p, s, a).h.ended,
                     StepsOf(s.e.q.store.inserted, c)[i].id)
  {
    var id := StepsOf(s.e.q.store.inserted, c)[i].id;
    if id == a.id {
      FlightsOfStepCarry(s, c, i, a.k);
    }
    OutcomeRuns.CompletionElsewhereKeepsAccount(p, s, a, id);
    EndedAfter(p, s, a);
  }

  lemma ForeignCompletionEndsRight(p: Params, s: Sys, a: Action, s': Sys, c: Id)
    requires AllWell(s) && Moves(p, s, a, s') && a.Completion? && QuietSteps(s, c)
    requires s.e.q.flights[a.id][a.k].cfg.chainId != Some(c)
    requires c in s.e.q.store.chains && EndsRight(s.e.q.store, s.h.ended, c)
    ensures c in s'.e.q.store.chains && EndsRight(s'.e.q.store, s'.h.ended, c)
  {
    ForeignLeaves(s.e.q, a.id, a.k, p.cap, a.out, a.builds, a.now, c);
    ForeignFates(p, s, a, c);
    LeftAloneEndsRight(s.e.q.store, s'.e.q.store, s.h.ended, s'.h.ended, c);
  }

  lemma ForeignFates(p: Params, s: Sys, a: Action, c: Id)
    requires AllWell(s) && Enabled(p, s.e, a) && a.Completion? && QuietSteps(s, c)
    requires s.e.q.flights[a.id][a.k].cfg.chainId != Some(c)
    ensures SameFates(s.e.q.store, Next(p, s, a).e.q.store, s.h.ended, Next(p, s, a).h.ended,
                      StepsOf(s.e.q.store.inserted, c))
  {
    var steps := StepsOf(s.e.q.store.inserted, c);
    forall i | 0 <= i < |steps|
      ensures SameFate(s.e.q.store, Next(p, s, a).e.q.store, s.h.ended, Next(p, s, a).h.ended, steps[i].id)
    {
      ForeignFate(p, s, a, c, i);
    }
  }

  // A chain is created.

  lemma CreatedEndsRight(p: Params, s: Sys, a: Action, s': Sys, c: Id)
    requires AllWell(s) && Moves(p, s, a, s') && a.NewChain? && a.chainId == c && QuietSteps(s', c)
    requires InOrder(s.e.q.store, c) && c in s'.e.q.store.chains
    ensures EndsRight(s'.e.q.store, s'.h.ended, c)
  {
    var q1 := s.e.q.(store := CreateChain(s.e.q.store, c, a.tasks));
    FirstStepIs(q1, p.cap, c, a.built, a.now);
    AdvanceIsTold(q1, p.cap, c, a.built, a.now);
    EndedOnlyByCompletions(p, s, a);
    if a.built.Some? {
      var t := s'.e.q.store.tasks[a.built.value.id];
      StepsAppend(s.e.q.store.inserted, t, c);
      StepIsQuiet(s', c, 0);
      assert s'.e.q.store.inserted[|s.e.q.store.inserted|] == t;
      assert Well(s, t.id);
      NewStepIsUnknown(s, s', t.id);
      GrownEndsRight(s.e.q.store, s'.e.q.store, s'.h.ended, c, t);
    }
  }

  /** Handing out the first configuration of a new chain. */
  lemma FirstStepIs(q: QueueState, cap: nat, c: Id, built: Option<Chord.Built>, now: u64)
    requires c in q.store.chains && q.store.chains[c].state == RecPending
    requires q.store.chains[c].currentStep == 0 && q.store.chains[c].tasks != []
    ensures var st' := AdvanceAndDispatch(q, cap, c, built, now).store;
            && c in st'.chains && st'.chains[c] == ChainRecord(q.store.chains[c].tasks, 1, RecRunning)
            && st'.events == q.store.events
            && (built.None? ==> st'.inserted == q.store.inserted)
            && (built.Some? ==>
                  && built.value.id in st'.tasks && st'.tasks[built.value.id].id == built.value.id
                  && st'.tasks[built.value.id].cfg.chainId == Some(c)
                  && st'.inserted == q.store.inserted + [st'.tasks[built.value.id]])
  {
  }

  lemma AdvanceIsTold(q: QueueState, cap: nat, c: Id, built: Option<Chord.Built>, now: u64)
    ensures AdvanceAndDispatch(q, cap, c, built, now).store.events == q.store.events
  {
  }

  // ----- every run -----

  lemma StepEndsRight(p: Params, s: Sys, a: Action, s': Sys, c: Id)
    requires AllWell(s) && Moves(p, s, a, s') && ChainInv(s, c) && ChainEndsInv(s, c)
    ensures ChainEndsInv(s', c)
  {
    if c !in s'.h.forged && QuietSteps(s', c) && c in s'.e.q.store.chains {
      StepFollows(p, s, a);
      RememberMax(p, s.e, a, s'.e, s.h);
      ForgedGrows(p, s, a);
      QuietStepsBefore(s, s', c);
      if a.Completion? {
        ChainsStay(p, s, a, c);
        if s.e.q.flights[a.id][a.k].cfg.chainId == Some(c) {
          OwnCompletionEndsRight(p, s, a, s', c);
        } else {
          ForeignCompletionEndsRight(p, s, a, s', c);
        }
      } else if a.NewChain? && a.chainId == c {
        CreatedEndsRight(p, s, a, s', c);
      } else {
        OtherLeaves(p, s.e, a, c);
        EndedOnlyByCompletions(p, s, a);
        OtherStepEndsRight(p, s.e, a, s.h.ended, c);
      }
    }
  }

  /** Completions create no chain. */
  lemma ChainsStay(p: Params, s: Sys, a: Action, c: Id)
    requires Enabled(p, s.e, a) && a.Completion? && c in Next(p, s, a).e.q.store.chains
    ensures c in s.e.q.store.chains
  {
    var f, q1 := s.e.q.flights[a.id][a.k], Landed(s.e.q, a.id, a.k, a.out, a.now);
    CompletionStore(s.e.q, a.id, a.k, p.cap, a.out, a.builds, a.now);
    var final := FinalState(q1.store, f);
    if f.cfg.chainId.Some? {
      Admissions.ChainIsTold(q1, p.cap, f, final, a.builds.step, a.now);
    }
    ChordKeepsChains(NotifyChain(q1, p.cap, f, final, a.builds.step, a.now), p.cap, f, a.builds.callback, a.now);
  }

  lemma MoveEndsRight(p: Params, states: seq<Sys>, actions: seq<Action>, k: nat, c: Id)
    requires IsTrace(p, states, actions) && k < |actions| && ChainEndsInv(states[k], c)
    ensures ChainEndsInv(states[k + 1], c)
  {
    var s, s' := states[k], states[k + 1];
    TraceKeepsOrder(p, states, actions, k, c);
    TraceIsWell(p, states, actions, k);
    assert MovesAt(p, states, actions, k);
    StepEndsRight(p, s, actions[k], s', c);
  }

  lemma {:induction false} TraceEndsRight(p: Params, states: seq<Sys>, actions: seq<Action>, k: nat, c: Id)
    requires IsTrace(p, states, actions) && k <= |actions|
    ensures ChainEndsInv(states[k], c)
  {
    if k > 0 {
      TraceEndsRight(p, states, actions, k - 1, c);
      MoveEndsRight(p, states, actions, k - 1, c);
    }
  }

  lemma ReachableEndsRight(p: Params, s: Sys, c: Id)
    requires Reachable(p, s) && c in s.e.q.store.chains && c !in s.h.forged && QuietSteps(s, c)
    ensures EndsRight(s.e.q.store, s.h.ended, c)
  {
    var states, actions :| IsTrace(p, states, actions) && states[|actions|] == s;
    TraceEndsRight(p, states, actions, |actions|, c);
  }

  ghost predicate NoneTwice(st: StoreState, steps: seq<Task>) {
    forall i :: 0 <= i < |steps| ==> CountEvents(st.events, steps[i].id, Succeeded) <= 1
  }

  /** Each step has exactly one Succeeded event. */
  ghost predicate AllOnce(st: StoreState, steps: seq<Task>) {
    forall i :: 0 <= i < |steps| ==> CountEvents(st.events, steps[i].id, Succeeded) == 1
  }

  lemma StepsSucceedOnce(p: Params, s: Sys, c: Id)
    requires Reachable(p, s) && QuietSteps(s, c)
    ensures NoneTwice(s.e.q.store, StepsOf(s.e.q.store.inserted, c))
  {
    var steps := StepsOf(s.e.q.store.inserted, c);
    forall i | 0 <= i < |steps|
      ensures CountEvents(s.e.q.store.events, steps[i].id, Succeeded) <= 1
    {
      StepIsQuiet(s, c, i);
      AtMostOneSuccess(p, s, steps[i].id);
    }
  }

  lemma AllDoneIff(st: StoreState, steps: seq<Task>)
    requires NoneTwice(st, steps)
    ensures AllDone(st, steps) <==> AllOnce(st, steps)
  {
    if AllDone(st, steps) {
      forall i | 0 <= i < |steps|
        ensures CountEvents(st.events, steps[i].id, Succeeded) == 1
      {
        assert Done(st, steps[i].id);
      }
    }
  }

  /** The record says success if and only if all configurations were inserted and
      each step succeeded once, and failed if and only if the last step so far
      ended with a result and has not succeeded. */
  ghost predicate EndsExactly(st: StoreState, ended: set<Id>, c: Id)
    requires c in st.chains
  {
    var r, steps := st.chains[c], StepsOf(st.inserted, c);
    && (r.state == RecSuccess <==> |steps| == |r.tasks| != 0 && AllOnce(st, steps))
    && (r.state == RecFailed
        <==> steps != [] && steps[|steps| - 1].id in ended
             && CountEvents(st.events, steps[|steps| - 1].id, Succeeded) == 0)
  }

  lemma EndsRightIsExact(st: StoreState, ended: set<Id>, c: Id)
    requires c in st.chains && EndsRight(st, ended, c) && NoneTwice(st, StepsOf(st.inserted, c))
    ensures EndsExactly(st, ended, c)
  {
    AllDoneIff(st, StepsOf(st.inserted, c));
  }

  /** In every reachable state, for a chain whose marker no request supplied and
      whose steps so far are quiet limit-1 one-shots: its record says success if
      and only if all its configurations were inserted and the last step, like
      those before it, has succeeded; and it says failed if and only if the last
      step so far ended with a result, but not with success. */
  lemma ChainEndsIff(p: Params, s: Sys, c: Id)
    requires Reachable(p, s) && c in s.e.q.store.chains && c !in s.h.forged && QuietSteps(s, c)
    ensures EndsExactly(s.e.q.store, s.h.ended, c)
  {
    ReachableEndsRight(p, s, c);
    StepsSucceedOnce(p, s, c);
    EndsRightIsExact(s.e.q.store, s.h.ended, c);
  }
}
