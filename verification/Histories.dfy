/** What a state remembers of its run, told from the run itself: the histories the
    properties speak of are those of the actions taken and the states met. */
module Histories {
  import opened Types
  import opened Engine
  import Cron
  import Queue
  import Scans

  ghost predicate IsPoint(p: Params, states: seq<Sys>, actions: seq<Action>, n: nat) {
    IsTrace(p, states, actions) && n <= |actions|
  }

  // ----- requests -----

  predicate TouchesAt(s: Sys, a: Action, id: Id) {
    && id in s.e.q.store.tasks
    && match a
       case Dispatch(b, cfg, _) => b.id == id && cfg.replaceExisting
       case Remove(other) => other == id
       case Modify(other, _, _, _) => other == id
       case _ => false
  }

  predicate RequeuesAt(s: Sys, a: Action, id: Id) {
    && a.Requeue? && a.id == id && id in s.e.q.store.tasks
    && s.e.q.store.tasks[id].state in {Success, Failed, Cancelled, Expired}
  }

  predicate ForgesAt(a: Action, c: Id) {
    match a
    case Dispatch(_, cfg, _) => cfg.chainId == Some(c)
    case NewHeader(_, cfg, _, _) => cfg.chainId == Some(c)
    case Modify(_, cfg, _, _) => cfg.chainId == Some(c)
    case _ => false
  }

  lemma StepRemembersTouching(p: Params, s: Sys, a: Action, id: Id)
    requires Enabled(p, s.e, a)
    ensures id in Next(p, s, a).h.touched <==> id in s.h.touched || TouchesAt(s, a, id)
  {
  }

  lemma StepRemembersRequeueing(p: Params, s: Sys, a: Action, id: Id)
    requires Enabled(p, s.e, a)
    ensures id in Next(p, s, a).h.requeued <==> id in s.h.requeued || RequeuesAt(s, a, id)
  {
  }

  lemma StepRemembersForging(p: Params, s: Sys, a: Action, id: Id)
    requires Enabled(p, s.e, a)
    ensures id in Next(p, s, a).h.forged <==> id in s.h.forged || ForgesAt(a, id)
  {
  }

  ghost predicate WasTouched(states: seq<Sys>, actions: seq<Action>, n: nat, id: Id)
    requires n <= |actions| < |states|
  {
    exists k: nat :: k < n && TouchesAt(states[k], actions[k], id)
  }

  ghost predicate WasRequeued(states: seq<Sys>, actions: seq<Action>, n: nat, id: Id)
    requires n <= |actions| < |states|
  {
    exists k: nat :: k < n && RequeuesAt(states[k], actions[k], id)
  }

  ghost predicate WasForged(actions: seq<Action>, n: nat, c: Id)
    requires n <= |actions|
  {
    exists k: nat :: k < n && ForgesAt(actions[k], c)
  }

  /** A task counts as altered exactly if a request removed, replaced or modified
      its row, as requeued exactly if one was accepted for it, and a chain's marker
      as forged exactly if a request supplied it. */
  lemma {:induction false} RequestsAreRemembered(p: Params, states: seq<Sys>, actions: seq<Action>, n: nat, id: Id)
    requires IsPoint(p, states, actions, n)
    ensures id in states[n].h.touched <==> WasTouched(states, actions, n, id)
    ensures id in states[n].h.requeued <==> WasRequeued(states, actions, n, id)
    ensures id in states[n].h.forged <==> WasForged(actions, n, id)
  {
    if n > 0 {
      RequestsAreRemembered(p, states, actions, n - 1, id);
      assert MovesAt(p, states, actions, n - 1);
      StepRemembersTouching(p, states[n - 1], actions[n - 1], id);
      StepRemembersRequeueing(p, states[n - 1], actions[n - 1], id);
      StepRemembersForging(p, states[n - 1], actions[n - 1], id);
      SplitLast(states, actions, n, id);
    }
  }

  lemma SplitLast(states: seq<Sys>, actions: seq<Action>, n: nat, id: Id)
    requires 0 < n <= |actions| < |states|
    ensures WasTouched(states, actions, n, id)
       <==> WasTouched(states, actions, n - 1, id) || TouchesAt(states[n - 1], actions[n - 1], id)
    ensures WasRequeued(states, actions, n, id)
       <==> WasRequeued(states, actions, n - 1, id) || RequeuesAt(states[n - 1], actions[n - 1], id)
    ensures WasForged(actions, n, id) <==> WasForged(actions, n - 1, id) || ForgesAt(actions[n - 1], id)
  {
  }

  // ----- the ends of executions -----

  /** Whether a cancel was requested by the time. */
  predicate IsCancelled(s: Sys, id: Id) {
    id in s.e.q.store.tasks && s.e.q.store.tasks[id].cancelRequested
  }

  /** The results brought back by the executions of the id, in order. */
  function ResultsBefore(states: seq<Sys>, actions: seq<Action>, n: nat, id: Id): seq<Report>
    requires n <= |actions| < |states|
  {
    if n == 0 then []
    else
      var a := actions[n - 1];
      ResultsBefore(states, actions, n - 1, id)
      + (if a.Completion? && a.id == id && a.out.Completed?
         then [Report(a.out.result, IsCancelled(states[n - 1], id))] else [])
  }

  /** No cancel was requested, and the execution brought a bad code, or no result
      although nobody had interrupted it. */
  predicate HasFailed(row: Option<Task>, f: Task, out: Queue.Outcome) {
    && !(row.Some? && row.value.cancelRequested)
    && (if out.DispatchError? then !(row.Some? && row.value.state == Interrupted)
        else
          match f.cfg.taskType
          case Http => out.result.statusCode.Some? && !(200 <= out.result.statusCode.value <= 299)
          case Shell => out.result.exitCode.Some? && out.result.exitCode.value != 0)
  }

  lemma ConsultsIff(row: Option<Task>, f: Task, out: Queue.Outcome)
    ensures Queue.Consults(row, f, out) <==> HasFailed(row, f, out)
  {
  }

  function RowOf(s: Sys, id: Id): Option<Task> {
    if id in s.e.q.store.tasks then Some(s.e.q.store.tasks[id]) else None
  }

  predicate FailsAt(s: Sys, a: Action, id: Id)
    requires a.Completion? ==> a.id in s.e.q.flights && a.k < |s.e.q.flights[a.id]|
  {
    a.Completion? && a.id == id && HasFailed(RowOf(s, id), s.e.q.flights[id][a.k], a.out)
  }

  ghost function FailuresBefore(p: Params, states: seq<Sys>, actions: seq<Action>, n: nat, id: Id): nat
    requires IsPoint(p, states, actions, n)
  {
    if n == 0 then 0
    else
      assert MovesAt(p, states, actions, n - 1);
      FailuresBefore(p, states, actions, n - 1, id) + (if FailsAt(states[n - 1], actions[n - 1], id) then 1 else 0)
  }

  lemma StepRemembersResults(p: Params, s: Sys, a: Action, id: Id)
    requires Enabled(p, s.e, a)
    ensures ReportsOf(Next(p, s, a).h, id)
         == ReportsOf(s.h, id) + (if a.Completion? && a.id == id && a.out.Completed?
                                  then [Report(a.out.result, IsCancelled(s, id))] else [])
  {
  }

  lemma StepRemembersFailures(p: Params, s: Sys, a: Action, id: Id)
    requires Enabled(p, s.e, a)
    ensures Tally(Next(p, s, a).h.consults, id) == Tally(s.h.consults, id) + (if FailsAt(s, a, id) then 1 else 0)
  {
    if a.Completion? {
      ConsultsIff(RowOf(s, a.id), s.e.q.flights[a.id][a.k], a.out);
    }
  }

  /** The results remembered of an id are those its executions brought back, in
      order, and its failures those counted. */
  lemma {:induction false} EndsAreRemembered(p: Params, states: seq<Sys>, actions: seq<Action>, n: nat, id: Id)
    requires IsPoint(p, states, actions, n)
    ensures ReportsOf(states[n].h, id) == ResultsBefore(states, actions, n, id)
    ensures Tally(states[n].h.consults, id) == FailuresBefore(p, states, actions, n, id)
  {
    if n > 0 {
      EndsAreRemembered(p, states, actions, n - 1, id);
      assert MovesAt(p, states, actions, n - 1);
      StepRemembersResults(p, states[n - 1], actions[n - 1], id);
      StepRemembersFailures(p, states[n - 1], actions[n - 1], id);
    }
  }

  /** A result, with no cancel requested, leaves the task terminal. */
  predicate HasFinished(row: Option<Task>, f: Task, out: Queue.Outcome, now: u64) {
    && out.Completed? && !(row.Some? && row.value.cancelRequested)
    && (if row.Some? then Queue.SettleRow(row.value, f, out, now) else f).state
       in {Success, Failed, Cancelled, Expired}
  }

  lemma EndsIff(row: Option<Task>, f: Task, out: Queue.Outcome, now: u64)
    ensures Queue.Ends(row, f, out, now) <==> HasFinished(row, f, out, now)
  {
  }

  ghost predicate EndsAt(p: Params, s: Sys, a: Action, id: Id)
    requires Enabled(p, s.e, a)
  {
    a.Completion? && a.id == id && HasFinished(RowOf(s, id), s.e.q.flights[id][a.k], a.out, a.now)
  }

  ghost predicate HasEnded(p: Params, states: seq<Sys>, actions: seq<Action>, n: nat, id: Id)
    requires n <= |actions| < |states|
  {
    exists k: nat :: k < n && EndsHere(p, states, actions, k, id)
  }

  lemma StepRemembersEnding(p: Params, s: Sys, a: Action, id: Id)
    requires Enabled(p, s.e, a)
    ensures id in Next(p, s, a).h.ended <==> id in s.h.ended || EndsAt(p, s, a, id)
  {
    if a.Completion? {
      EndsIff(RowOf(s, a.id), s.e.q.flights[a.id][a.k], a.out, a.now);
    }
  }

  ghost predicate EndsHere(p: Params, states: seq<Sys>, actions: seq<Action>, k: nat, id: Id)
    requires k < |actions| < |states|
  {
    Enabled(p, states[k].e, actions[k]) && EndsAt(p, states[k], actions[k], id)
  }

  /** A task counts as ended exactly if a result, with no cancel requested, left it
      terminal. */
  lemma {:induction false} EndingsAreRemembered(p: Params, states: seq<Sys>, actions: seq<Action>, n: nat, id: Id)
    requires IsPoint(p, states, actions, n)
    ensures id in states[n].h.ended <==> HasEnded(p, states, actions, n, id)
  {
    if n > 0 {
      EndingsAreRemembered(p, states, actions, n - 1, id);
      assert MovesAt(p, states, actions, n - 1);
      StepRemembersEnding(p, states[n - 1], actions[n - 1], id);
      SplitLastEnd(p, states, actions, n, id);
    }
  }

  lemma SplitLastEnd(p: Params, states: seq<Sys>, actions: seq<Action>, n: nat, id: Id)
    requires 0 < n <= |actions| < |states|
    ensures HasEnded(p, states, actions, n, id)
       <==> HasEnded(p, states, actions, n - 1, id) || EndsHere(p, states, actions, n - 1, id)
  {
  }

  // ----- run-at triggers -----

  /** The cron scan meets an open run-at task whose fire time has come. */
  predicate UsesUpAt(s: Sys, a: Action, id: Id) {
    && a.CronTask? && s.e.cron.todo != []
    && var t := s.e.cron.todo[0];
       && t.id == id && t.cfg.runAt.Some? && Scans.IsOpen(t, s.e.cron.now)
       && Scans.RunAtTime(t, t.cfg.runAt.value) <= s.e.cron.now
  }

  lemma TriggerIsUsedUpIff(p: Params, s: Sys, a: Action, id: Id)
    requires Enabled(p, s.e, a) && a.CronTask? && s.e.cron.todo[0].cfg.runAt.Some?
    ensures var t := s.e.cron.todo[0];
            var e := Cron.ScanTask(p.oracle, t, s.e.cron.now, a.draw);
            && (t.id == id ==> (e.setNextFire.Some? <==> UsesUpAt(s, a, id)))
            && (e.setNextFire.Some? ==> (e.due <==> !Cron.ShouldSkipTrigger(p.oracle, t.cfg, s.e.cron.now)))
  {
    var t := s.e.cron.todo[0];
    if Scans.IsOpen(t, s.e.cron.now) {
      Scans.RunAtDoes(p.oracle, t, t.cfg.runAt.value, s.e.cron.now, a.draw);
    }
  }

  /** A run-at task counts as fired exactly when a scan uses up its trigger, and as
      skipped exactly when it does so on a skipped day. */
  lemma StepRemembersTriggers(p: Params, s: Sys, a: Action, id: Id)
    requires Enabled(p, s.e, a)
    ensures id in Next(p, s, a).h.fired <==> id in s.h.fired || UsesUpAt(s, a, id)
    ensures id in Next(p, s, a).h.skipped
       <==> id in s.h.skipped
            || (UsesUpAt(s, a, id) && Cron.ShouldSkipTrigger(p.oracle, s.e.cron.todo[0].cfg, s.e.cron.now))
  {
    StepRemembersFiring(p, s, a, id);
    StepRemembersSkipping(p, s, a, id);
  }

  lemma StepRemembersFiring(p: Params, s: Sys, a: Action, id: Id)
    requires Enabled(p, s.e, a)
    ensures id in Next(p, s, a).h.fired <==> id in s.h.fired || UsesUpAt(s, a, id)
  {
    if a.CronTask? && s.e.cron.todo[0].cfg.runAt.Some? {
      TriggerIsUsedUpIff(p, s, a, id);
    }
  }

  lemma StepRemembersSkipping(p: Params, s: Sys, a: Action, id: Id)
    requires Enabled(p, s.e, a)
    ensures id in Next(p, s, a).h.skipped
       <==> id in s.h.skipped
            || (UsesUpAt(s, a, id) && Cron.ShouldSkipTrigger(p.oracle, s.e.cron.todo[0].cfg, s.e.cron.now))
  {
    if a.CronTask? && s.e.cron.todo[0].cfg.runAt.Some? {
      TriggerIsUsedUpIff(p, s, a, id);
    }
  }
}
