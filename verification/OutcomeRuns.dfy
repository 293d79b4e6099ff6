/** Over whole runs: the events and the stored result of a task account for the
    results its executions came back with, code by code. */
module OutcomeRuns {
  import opened Types
  import opened Store
  import opened Queue
  import opened Retry
  import opened Handlers
  import opened Engine
  import opened Lives
  import opened Steps
  import opened Guarantees
  import opened Clocks
  import Chord
  import Cron
  import Outcomes
  import Watchdogs

  // ----- counting results -----

  /** The results with a good code and no cancel requested: for HTTP a status code
      of 200 to 299 or none, for shell the exit code 0 or none. */
  function GoodOnes(rs: seq<Report>, kind: TaskType): nat {
    if rs == [] then 0
    else
      var last := rs[|rs| - 1];
      GoodOnes(rs[..|rs| - 1], kind)
      + (if last.cancelled then 0
         else
           match kind
           case Http =>
             if last.result.statusCode.None? || 200 <= last.result.statusCode.value <= 299 then 1 else 0
           case Shell => if last.result.exitCode.None? || last.result.exitCode.value == 0 then 1 else 0)
  }

  /** The results no cancel was requested for. */
  function Uncancelled(rs: seq<Report>): nat {
    if rs == [] then 0 else Uncancelled(rs[..|rs| - 1]) + (if rs[|rs| - 1].cancelled then 0 else 1)
  }

  /** The results with a status code. */
  function Answered(rs: seq<Report>): nat {
    if rs == [] then 0 else Answered(rs[..|rs| - 1]) + (if rs[|rs| - 1].result.statusCode.Some? then 1 else 0)
  }

  lemma Appended(rs: seq<Report>, r: Report)
    ensures (rs + [r])[..|rs|] == rs && (rs + [r])[|rs|] == r
  {
  }

  // ----- steps that bring no result -----

  /** At most one event is appended, which tells of no result. */
  ghost predicate TellsNothing(es: seq<Event>, es': seq<Event>) {
    es' == es || exists e :: es' == es + [e] && !e.kind.Succeeded? && !e.kind.FailedEvent?
  }

  function FailuresOf(s: StoreState, id: Id): nat {
    CountEvents(s.events, id, FailedEvent)
  }

  function SuccessesOf(s: StoreState, id: Id): nat {
    CountEvents(s.events, id, Succeeded)
  }

  lemma TellingNothingCounts(es: seq<Event>, es': seq<Event>, id: Id)
    requires TellsNothing(es, es')
    ensures CountEvents(es', id, Succeeded) == CountEvents(es, id, Succeeded)
    ensures CountEvents(es', id, FailedEvent) == CountEvents(es, id, FailedEvent)
  {
    if es' != es {
      var e :| es' == es + [e] && !e.kind.Succeeded? && !e.kind.FailedEvent?;
      CountAppend(es, e, id, Succeeded);
      CountAppend(es, e, id, FailedEvent);
    }
  }

  lemma OneTellsNothing(es: seq<Event>, e: Event)
    requires !e.kind.Succeeded? && !e.kind.FailedEvent?
    ensures TellsNothing(es, es + [e])
  {
  }

  /** The events tell of no result and the stored results stay. */
  ghost predicate Silent(s: StoreState, s': StoreState) {
    TellsNothing(s.events, s'.events) && s'.results == s.results
  }

  lemma AdmitIsSilent(q: QueueState, t: Task, now: u64)
    ensures Silent(q.store, Admit(q, t, now).store)
  {
    AdmitOwn(q, t, now);
    var es, q', q1 := q.store.events, Admit(q, t, now), Limited(q, t, now);
    if Cron.IsExpired(t, now) {
      OneTellsNothing(es, Event(t.id, ExpiredEvent, now));
    } else if q' == AddTimer(q, t) {
    } else if q' == HoldForRate(q1, t, now) {
      OneTellsNothing(es, Event(t.id, RateLimited, now));
    } else if q' == HoldForOverlap(q1, t, now) {
      OneTellsNothing(es, Event(t.id, MaxInstancesReached, now));
    } else {
      OneTellsNothing(es, Event(t.id, EventType.Started, now));
    }
  }

  lemma PrologueIsSilent(q: QueueState, now: u64)
    ensures Silent(q.store, Prologue(q, now).store)
  {
    if q.pending != [] && q.pending[0].id in q.store.tasks {
      AdmitIsSilent(q.(pending := q.pending[1..]), q.store.tasks[q.pending[0].id], now);
    }
  }

  lemma ScanTellsLittle(o: Cron.Oracle, t: Task, now: u64, draw: nat)
    ensures Cron.ScanTask(o, t, now, draw).event in {None, Some(Missed), Some(ExpiredEvent)}
  {
  }

  lemma ScanIsSilent(p: Params, e: EngineState, draw: nat)
    requires e.cron.todo != []
    ensures Silent(e.q.store, CronStep(p, e, draw).q.store)
  {
    var t := e.cron.todo[0];
    var effect := Cron.ScanTask(p.oracle, t, e.cron.now, draw);
    ScanTellsLittle(p.oracle, t, e.cron.now, draw);
    EffectIsSilent(e.q.store, t.id, effect, e.cron.now);
  }

  lemma EffectIsSilent(s: StoreState, id: Id, effect: Cron.ScanEffect, now: u64)
    requires effect.event in {None, Some(Missed), Some(ExpiredEvent)}
    ensures Silent(s, Cron.ApplyEffect(s, id, effect, now))
  {
    if effect.event.Some? {
      OneTellsNothing(s.events, Event(id, effect.event.value, now));
    }
  }

  lemma CancelIsSilent(s: StoreState, id: Id, now: u64)
    ensures Silent(s, CancelTask(s, id, now).0)
  {
    OneTellsNothing(s.events, Event(id, CancelledEvent, now));
  }

  lemma WatchIsSilent(s: StoreState, t: Task, now: u64, factor: u64)
    ensures Silent(s, Watchdogs.WatchTask(s, t, now, factor))
  {
    OneTellsNothing(s.events, Event(t.id, HungDetected, now));
  }

  /** Advancing a chain touches neither events nor results. */
  predicate SameReports(s: StoreState, s': StoreState) {
    s'.events == s.events && s'.results == s.results
  }

  lemma AdvanceIsSilent(q: QueueState, cap: nat, c: Id, built: Option<Chord.Built>, now: u64)
    ensures SameReports(q.store, AdvanceAndDispatch(q, cap, c, built, now).store)
  {
  }

  lemma RefreshIsSilent(s: StoreState, c: Id, built: Option<Chord.Built>, now: u64)
    ensures SameReports(s, Chord.Refresh(s, c, built, now).0)
  {
  }

  lemma ChordIsSilent(q: QueueState, cap: nat, f: Task, built: Option<Chord.Built>, now: u64)
    ensures SameReports(q.store, NotifyChord(q, cap, f, built, now).store)
  {
    if f.cfg.chordId.Some? {
      RefreshIsSilent(q.store, f.cfg.chordId.value, built, now);
    }
  }

  lemma NotifyIsSilent(q: QueueState, cap: nat, f: Task, final: TaskState, builds: Builds, now: u64)
    ensures SameReports(q.store, Notify(q, cap, f, final, builds, now).store)
  {
    if f.cfg.chainId.Some? {
      AdvanceIsSilent(q, cap, f.cfg.chainId.value, builds.step, now);
    }
    ChordIsSilent(NotifyChain(q, cap, f, final, builds.step, now), cap, f, builds.callback, now);
  }

  /** The stored result of the id stays, unless a request removes it. */
  predicate KeepsResult(s: StoreState, s': StoreState, id: Id) {
    Chord.Lookup(s'.results, id) == Chord.Lookup(s.results, id)
  }

  ghost predicate BringsNothing(s: StoreState, s': StoreState, id: Id) {
    TellsNothing(s.events, s'.events) && KeepsResult(s, s', id)
  }

  lemma InsertionBringsNothing(p: Params, e: EngineState, a: Action, id: Id)
    requires Enabled(p, e, a) && IsInsertion(a)
    requires id in e.q.store.results ==> id in e.q.store.tasks
    ensures id !in Touches(e, a) ==> BringsNothing(e.q.store, Step(p, e, a).q.store, id)
  {
    match a
    case Dispatch(b, cfg, now) =>
      if id !in Touches(e, a) {
        DispatchBringsNothing(e.q, p.cap, b, cfg, now, id);
      }
    case NewChain(c, tasks, built, now) =>
      AdvanceIsSilent(e.q.(store := CreateChain(e.q.store, c, tasks)), p.cap, c, built, now);
    case _ =>
  }

  lemma DispatchBringsNothing(q: QueueState, cap: nat, b: Chord.Built, cfg: TaskConfig, now: u64, id: Id)
    requires id in q.store.results ==> id in q.store.tasks
    requires !(cfg.replaceExisting && b.id in q.store.tasks && id == b.id)
    ensures BringsNothing(q.store, DispatchOp(q, cap, b, cfg, now).0.store, id)
  {
  }

  lemma RequestBringsNothing(p: Params, e: EngineState, a: Action, id: Id)
    requires Enabled(p, e, a) && IsRowRequest(a)
    requires id in e.q.store.results ==> id in e.q.store.tasks
    ensures id !in Touches(e, a) ==> BringsNothing(e.q.store, Step(p, e, a).q.store, id)
  {
  }

  lemma TickBringsNothing(p: Params, e: EngineState, a: Action, id: Id)
    requires Enabled(p, e, a) && IsTick(a)
    ensures BringsNothing(e.q.store, Step(p, e, a).q.store, id)
  {
    if a.DogTask? {
      WatchIsSilent(e.q.store, e.dog.todo[0], e.dog.now, p.factor);
    }
  }

  lemma OthersTellNothing(p: Params, e: EngineState, a: Action)
    requires Enabled(p, e, a) && !a.Completion?
    ensures TellsNothing(e.q.store.events, Step(p, e, a).q.store.events)
  {
    if a.NewChain? {
      AdvanceIsSilent(e.q.(store := CreateChain(e.q.store, a.chainId, a.tasks)), p.cap, a.chainId, a.built, a.now);
    } else if a.DogTask? {
      WatchIsSilent(e.q.store, e.dog.todo[0], e.dog.now, p.factor);
    } else if a.Cancel? {
      CancelIsSilent(e.q.store, a.id, a.now);
    } else if a.ProcessOne? {
      PrologueIsSilent(e.q, a.now);
    } else if a.CronTask? {
      ScanIsSilent(p, e, a.draw);
    }
  }

  lemma OthersBringNothing(p: Params, e: EngineState, a: Action, id: Id)
    requires Enabled(p, e, a) && !a.Completion?
    requires id in e.q.store.results ==> id in e.q.store.tasks
    ensures id !in Touches(e, a) ==> BringsNothing(e.q.store, Step(p, e, a).q.store, id)
  {
    if IsInsertion(a) {
      InsertionBringsNothing(p, e, a, id);
    } else if IsRowRequest(a) {
      RequestBringsNothing(p, e, a, id);
    } else if IsTick(a) {
      TickBringsNothing(p, e, a, id);
    } else if a.Cancel? {
      CancelIsSilent(e.q.store, a.id, a.now);
    } else if a.ProcessOne? {
      PrologueIsSilent(e.q, a.now);
    } else if a.CronTask? {
      ScanIsSilent(p, e, a.draw);
    }
  }

  // ----- completions -----

  lemma CompletionReports(q: QueueState, cap: nat, id: Id, k: nat, out: Outcome, builds: Builds, now: u64)
    requires id in q.flights && k < |q.flights[id]|
    ensures SameReports(Settle(q.store, q.flights[id][k], out, now), Complete(q, cap, id, k, out, builds, now).store)
  {
    var f, q1 := q.flights[id][k], Landed(q, id, k, out, now);
    CompleteIsNotified(q, id, k, cap, out, builds, now);
    NotifyIsSilent(q1, cap, f, FinalState(q1.store, f), builds, now);
  }

  /** What the events and the stored result say of an id, and what it reported. */
  datatype Account = Account(successes: nat, failures: nat, stored: Option<TaskResult>, reports: seq<Report>)

  function AccountOf(s: StoreState, h: History, id: Id): Account {
    Account(SuccessesOf(s, id), FailuresOf(s, id), Chord.Lookup(s.results, id), ReportsOf(h, id))
  }

  ghost predicate Balances(a: Account, cfg: TaskConfig) {
    && a.successes == GoodOnes(a.reports, cfg.taskType)
    && a.successes + a.failures == Uncancelled(a.reports)
    && a.stored == (if a.reports == [] || cfg.ignoreResult then None
                    else Some(a.reports[|a.reports| - 1].result))
  }

  /** One result more, counted by its code. */
  lemma GoodResultBalances(a: Account, a': Account, cfg: TaskConfig, r: Report, good: bool)
    requires Balances(a, cfg) && a'.reports == a.reports + [r] && !r.cancelled
    requires good <==> match cfg.taskType
                       case Http => r.result.statusCode.None? || 200 <= r.result.statusCode.value <= 299
                       case Shell => r.result.exitCode.None? || r.result.exitCode.value == 0
    requires a'.successes == a.successes + (if good then 1 else 0)
    requires a'.failures == a.failures + (if good then 0 else 1)
    requires a'.stored == if cfg.ignoreResult then a.stored else Some(r.result)
    ensures Balances(a', cfg)
  {
    Appended(a.reports, r);
  }

  lemma CancelledResultBalances(a: Account, a': Account, cfg: TaskConfig, r: Report)
    requires Balances(a, cfg) && a'.reports == a.reports + [r] && r.cancelled
    requires a'.successes == a.successes && a'.failures == a.failures
    requires a'.stored == if cfg.ignoreResult then a.stored else Some(r.result)
    ensures Balances(a', cfg)
  {
    Appended(a.reports, r);
  }

  /** An execution ends: with a result it is accounted for by its code. */
  lemma SettledBalances(s: StoreState, h: History, h': History, f: Task, out: Outcome, now: u64)
    requires f.id in s.tasks && Balances(AccountOf(s, h, f.id), f.cfg)
    requires ReportsOf(h', f.id) == if out.Completed?
                                    then ReportsOf(h, f.id) + [Report(out.result, s.tasks[f.id].cancelRequested)]
                                    else ReportsOf(h, f.id)
    ensures Balances(AccountOf(Settle(s, f, out, now), h', f.id), f.cfg)
  {
    var a, a' := AccountOf(s, h, f.id), AccountOf(Settle(s, f, out, now), h', f.id);
    Outcomes.ResultIsKept(s, f, out, now);
    if s.tasks[f.id].cancelRequested {
      Outcomes.CancelWins(s, f, out, now);
      CountOne(s, f.id, CancelledEvent, now);
      if out.Completed? {
        CancelledResultBalances(a, a', f.cfg, Report(out.result, true));
      }
    } else if out.DispatchError? {
      Outcomes.ErrorRecordsNothing(s, f, out, now);
    } else {
      ResultBalances(s, h, h', f, out, now);
    }
  }

  lemma ResultBalances(s: StoreState, h: History, h': History, f: Task, out: Outcome, now: u64)
    requires f.id in s.tasks && Balances(AccountOf(s, h, f.id), f.cfg)
    requires out.Completed? && !s.tasks[f.id].cancelRequested
    requires ReportsOf(h', f.id) == ReportsOf(h, f.id) + [Report(out.result, false)]
    ensures Balances(AccountOf(Settle(s, f, out, now), h', f.id), f.cfg)
  {
    var good := match f.cfg.taskType
                case Http => out.result.statusCode.None? || 200 <= out.result.statusCode.value <= 299
                case Shell => out.result.exitCode.None? || out.result.exitCode.value == 0;
    Outcomes.ResultIsKept(s, f, out, now);
    Outcomes.SucceedsByItsCode(s, f, out, now);
    CountOne(s, f.id, if good then Succeeded else FailedEvent, now);
    GoodResultBalances(AccountOf(s, h, f.id), AccountOf(Settle(s, f, out, now), h', f.id), f.cfg,
                       Report(out.result, false), good);
  }

  lemma CountOne(s: StoreState, id: Id, kind: EventType, now: u64)
    ensures CountEvents(s.events + [Event(id, kind, now)], id, Succeeded)
         == SuccessesOf(s, id) + (if kind.Succeeded? then 1 else 0)
    ensures CountEvents(s.events + [Event(id, kind, now)], id, FailedEvent)
         == FailuresOf(s, id) + (if kind.FailedEvent? then 1 else 0)
  {
    CountAppend(s.events, Event(id, kind, now), id, Succeeded);
    CountAppend(s.events, Event(id, kind, now), id, FailedEvent);
  }

  lemma SettleElsewhere(s: StoreState, f: Task, out: Outcome, now: u64, id: Id)
    requires id != f.id
    ensures SuccessesOf(Settle(s, f, out, now), id) == SuccessesOf(s, id)
    ensures FailuresOf(Settle(s, f, out, now), id) == FailuresOf(s, id)
    ensures KeepsResult(s, Settle(s, f, out, now), id)
  {
    var event := SettleEvent(Row(s, f.id), f, out);
    if event.Some? {
      CountAppend(s.events, Event(f.id, event.value, now), id, Succeeded);
      CountAppend(s.events, Event(f.id, event.value, now), id, FailedEvent);
    }
  }

  // ----- the invariant of every run -----

  /** The accounts of an unaltered task balance; nothing is known of an id that
      was never inserted. */
  ghost predicate Accounted(s: Sys, id: Id) {
    && (LifeOf(s, id).made == [] ==> AccountOf(s.e.q.store, s.h, id) == Account(0, 0, None, []))
    && (Unaltered(LifeOf(s, id)) ==>
          && Balances(AccountOf(s.e.q.store, s.h, id), LifeOf(s, id).made[0].cfg)
          && Tally(s.h.answered, id) == Answered(ReportsOf(s.h, id))
          && FailuresOf(s.e.q.store, id) <= Tally(s.h.consults, id))
    && (LifeOf(s, id).made == [] ==> Tally(s.h.answered, id) == 0)
  }

  /** The account and the answers of the id are as before. */
  ghost predicate SameAccount(s: Sys, s': Sys, id: Id) {
    && AccountOf(s'.e.q.store, s'.h, id) == AccountOf(s.e.q.store, s.h, id)
    && Tally(s'.h.answered, id) == Tally(s.h.answered, id) && Tally(s'.h.consults, id) == Tally(s.h.consults, id)
  }

  lemma ReportsElsewhere(p: Params, s: Sys, a: Action, id: Id)
    requires Enabled(p, s.e, a) && (a.Completion? ==> a.id != id)
    ensures ReportsOf(Next(p, s, a).h, id) == ReportsOf(s.h, id)
    ensures Tally(Next(p, s, a).h.answered, id) == Tally(s.h.answered, id)
    ensures Tally(Next(p, s, a).h.consults, id) == Tally(s.h.consults, id)
  {
  }

  lemma ReportsHere(p: Params, s: Sys, a: Action)
    requires Enabled(p, s.e, a) && a.Completion?
    ensures var row := Row(s.e.q.store, a.id);
            && ReportsOf(Next(p, s, a).h, a.id)
               == (if a.out.Completed?
                   then ReportsOf(s.h, a.id) + [Report(a.out.result, row.Some? && row.value.cancelRequested)]
                   else ReportsOf(s.h, a.id))
            && Tally(Next(p, s, a).h.answered, a.id)
               == Tally(s.h.answered, a.id)
                  + (if a.out.Completed? && a.out.result.statusCode.Some? then 1 else 0)
            && Tally(Next(p, s, a).h.consults, a.id)
               == Tally(s.h.consults, a.id) + (if Consults(row, s.e.q.flights[a.id][a.k], a.out) then 1 else 0)
  {
  }

  lemma OtherStepKeepsAccount(p: Params, s: Sys, a: Action, id: Id)
    requires AllWell(s) && Enabled(p, s.e, a) && !a.Completion? && id !in Touches(s.e, a)
    requires id in s.e.q.store.results ==> id in s.e.q.store.tasks
    ensures SameAccount(s, Next(p, s, a), id)
  {
    OthersBringNothing(p, s.e, a, id);
    TellingNothingCounts(s.e.q.store.events, Step(p, s.e, a).q.store.events, id);
    ReportsElsewhere(p, s, a, id);
  }

  lemma CompletionElsewhereKeepsAccount(p: Params, s: Sys, a: Action, id: Id)
    requires AllWell(s) && Enabled(p, s.e, a) && a.Completion? && a.id != id
    ensures SameAccount(s, Next(p, s, a), id)
  {
    var f := s.e.q.flights[a.id][a.k];
    assert Well(s, a.id);
    assert FlightsOf(s.e.q, a.id)[a.k].id == a.id;
    CompletionReports(s.e.q, p.cap, a.id, a.k, a.out, a.builds, a.now);
    SettleElsewhere(s.e.q.store, f, a.out, a.now, id);
    ReportsElsewhere(p, s, a, id);
  }

  lemma FlightOfUnaltered(id: Id, l: Life, k: nat)
    requires Inv(id, l) && Unaltered(l) && k < |l.flights|
    ensures l.row.Some? && l.flights[k].id == id && l.flights[k].cfg == l.made[0].cfg
  {
  }

  lemma FailureConsults(s: StoreState, f: Task, out: Outcome, now: u64)
    ensures FailuresOf(Settle(s, f, out, now), f.id)
         <= FailuresOf(s, f.id) + (if Consults(Row(s, f.id), f, out) then 1 else 0)
  {
    var event := SettleEvent(Row(s, f.id), f, out);
    if event.Some? {
      CountAppend(s.events, Event(f.id, event.value, now), f.id, FailedEvent);
    }
  }

  lemma OwnCompletionBalances(p: Params, s: Sys, a: Action)
    requires AllWell(s) && Enabled(p, s.e, a) && a.Completion? && Unaltered(LifeOf(s, a.id)) && Accounted(s, a.id)
    ensures var cfg, s' := LifeOf(s, a.id).made[0].cfg, Next(p, s, a);
            && Balances(AccountOf(s'.e.q.store, s'.h, a.id), cfg)
            && Tally(s'.h.answered, a.id) == Answered(ReportsOf(s'.h, a.id))
            && FailuresOf(s'.e.q.store, a.id) <= Tally(s'.h.consults, a.id)
  {
    var f := s.e.q.flights[a.id][a.k];
    assert Well(s, a.id) && LifeOf(s, a.id).flights[a.k] == f;
    FlightOfUnaltered(a.id, LifeOf(s, a.id), a.k);
    ReportsHere(p, s, a);
    CompletionReports(s.e.q, p.cap, a.id, a.k, a.out, a.builds, a.now);
    SettledBalances(s.e.q.store, s.h, Next(p, s, a).h, f, a.out, a.now);
    FailureConsults(s.e.q.store, f, a.out, a.now);
    if a.out.Completed? {
      Appended(ReportsOf(s.h, a.id), Report(a.out.result, s.e.q.store.tasks[a.id].cancelRequested));
    }
  }

  /** Only tasks that are there, or were removed by request, have a result. */
  lemma StoredIsUnaltered(s: Sys, id: Id)
    requires Well(s, id) && Accounted(s, id) && id !in s.h.touched && |LifeOf(s, id).made| <= 1
    ensures id in s.e.q.store.results ==> id in s.e.q.store.tasks
  {
  }

  lemma StepIsAccounted(p: Params, s: Sys, a: Action, s': Sys, id: Id)
    requires AllWell(s) && Moves(p, s, a, s') && Accounted(s, id)
    ensures Accounted(s', id)
  {
    assert Well(s, id);
    SetsOnlyGrow(p, s, a);
    if LifeOf(s', id).made == [] {
      NeverMade(p, s, a, s', id);
    } else if Unaltered(LifeOf(s', id)) {
      UnalteredBefore(p, s, a, s', id);
      UnalteredIsAccounted(p, s, a, s', id);
    }
  }

  lemma SetsOnlyGrow(p: Params, s: Sys, a: Action)
    requires Enabled(p, s.e, a)
    ensures Next(p, s, a).h.touched == s.h.touched + Touches(s.e, a)
  {
  }

  lemma NoFlightsUnmade(s: Sys, id: Id)
    requires Well(s, id) && LifeOf(s, id).made == []
    ensures FlightsOf(s.e.q, id) == [] && id !in s.e.q.store.tasks
  {
  }

  lemma NeverMade(p: Params, s: Sys, a: Action, s': Sys, id: Id)
    requires AllWell(s) && Moves(p, s, a, s') && Accounted(s, id) && LifeOf(s', id).made == []
    ensures Accounted(s', id)
  {
    LogGrows(p, s.e, a);
    MadePrefix(s.e.q.store.inserted, s'.e.q.store.inserted, id);
    assert Well(s, id);
    NoFlightsUnmade(s, id);
    if a.Completion? {
      CompletionElsewhereKeepsAccount(p, s, a, id);
    } else {
      OtherStepKeepsAccount(p, s, a, id);
    }
  }

  /** The step is not the end of one of the id's executions. */
  lemma ElsewhereKeepsAccount(p: Params, s: Sys, a: Action, id: Id)
    requires AllWell(s) && Enabled(p, s.e, a) && !(a.Completion? && a.id == id)
    requires id !in s.h.touched && id !in Touches(s.e, a)
    requires Accounted(s, id) && |LifeOf(s, id).made| <= 1
    ensures SameAccount(s, Next(p, s, a), id)
  {
    assert Well(s, id);
    if a.Completion? {
      CompletionElsewhereKeepsAccount(p, s, a, id);
    } else {
      StoredIsUnaltered(s, id);
      OtherStepKeepsAccount(p, s, a, id);
    }
  }

  lemma FirstIsAccounted(s: Sys, s': Sys, id: Id)
    requires Accounted(s, id) && SameAccount(s, s', id) && Well(s, id)
    requires Unaltered(LifeOf(s', id))
    requires LifeOf(s, id).made != [] ==> Unaltered(LifeOf(s, id)) && LifeOf(s, id).made == LifeOf(s', id).made
    ensures Accounted(s', id)
  {
  }

  lemma UnalteredIsAccounted(p: Params, s: Sys, a: Action, s': Sys, id: Id)
    requires AllWell(s) && Moves(p, s, a, s') && Accounted(s, id) && Unaltered(LifeOf(s', id))
    requires LifeOf(s, id).made != [] ==> Unaltered(LifeOf(s, id)) && LifeOf(s, id).made == LifeOf(s', id).made
    requires s'.h.touched == s.h.touched + Touches(s.e, a)
    ensures Accounted(s', id)
  {
    assert Well(s, id);
    if a.Completion? && a.id == id {
      if LifeOf(s, id).made == [] {
        NoFlightsUnmade(s, id);
      }
      OwnCompletionBalances(p, s, a);
    } else {
      ElsewhereKeepsAccount(p, s, a, id);
      FirstIsAccounted(s, s', id);
    }
  }

  lemma StartIsAccounted(id: Id)
    ensures Accounted(START, id)
  {
  }

  lemma {:induction false} TraceIsAccounted(p: Params, states: seq<Sys>, actions: seq<Action>, k: nat, id: Id)
    requires IsTrace(p, states, actions) && k <= |actions|
    ensures Accounted(states[k], id)
  {
    if k == 0 {
      StartIsAccounted(id);
    } else {
      TraceIsAccounted(p, states, actions, k - 1, id);
      TraceIsWell(p, states, actions, k - 1);
      assert MovesAt(p, states, actions, k - 1);
      StepIsAccounted(p, states[k - 1], actions[k - 1], states[k], id);
    }
  }

  lemma ReachableIsAccounted(p: Params, s: Sys, id: Id)
    requires Reachable(p, s)
    ensures Accounted(s, id)
  {
    var states, actions :| IsTrace(p, states, actions) && states[|actions|] == s;
    TraceIsAccounted(p, states, actions, |actions|, id);
  }

  // ----- what the events and the stored result say -----

  /** In every reachable state the Succeeded events of an unaltered task are as
      many as the results its executions came back with that have a good code and
      met no cancel request, the FailedEvent events as many as the others that met
      none, and the stored result is that of the last one. */
  lemma ResultsAreAccountedFor(p: Params, s: Sys, id: Id)
    requires Reachable(p, s) && Unaltered(LifeOf(s, id))
    ensures var cfg, rs := LifeOf(s, id).made[0].cfg, ReportsOf(s.h, id);
            && CountEvents(s.e.q.store.events, id, Succeeded) == GoodOnes(rs, cfg.taskType)
            && CountEvents(s.e.q.store.events, id, FailedEvent) == Uncancelled(rs) - GoodOnes(rs, cfg.taskType)
            && (rs == [] || cfg.ignoreResult ==> id !in s.e.q.store.results)
            && (rs != [] && !cfg.ignoreResult ==>
                  id in s.e.q.store.results && s.e.q.store.results[id] == rs[|rs| - 1].result)
  {
    ReachableIsAccounted(p, s, id);
  }

  /** A quiet limit-1 task fails at most one time more than its maximum of retries,
      which does not count unless failures are to be acknowledged. */
  lemma FailuresAreBounded(p: Params, s: Sys, id: Id)
    requires Reachable(p, s) && QuietLimitOne(s, id)
    ensures var cfg := LifeOf(s, id).made[0].cfg;
            CountEvents(s.e.q.store.events, id, FailedEvent)
            <= (if cfg.acksOnFailure then cfg.retryMax else 0xFFFF_FFFF) + 1
  {
    ReachableIsAccounted(p, s, id);
    ReachableIsWell(p, s, id);
    RetriesTerminate(p, s, id);
  }

  lemma {:induction false} TwoAnswers(rs: seq<Report>, i: nat, j: nat)
    requires i < j < |rs| && rs[i].result.statusCode.Some? && rs[j].result.statusCode.Some?
    ensures Answered(rs) >= 2
  {
    if j < |rs| - 1 {
      TwoAnswers(rs[..|rs| - 1], i, j);
    } else {
      OneAnswer(rs[..|rs| - 1], i);
    }
  }

  lemma {:induction false} OneAnswer(rs: seq<Report>, i: nat)
    requires i < |rs| && rs[i].result.statusCode.Some?
    ensures Answered(rs) >= 1
  {
    if i < |rs| - 1 {
      OneAnswer(rs[..|rs| - 1], i);
    }
  }

  /** A quiet limit-1 one-shot request that is not marked idempotent, and whose
      method is none of GET, HEAD and OPTIONS in any case, gets at most one answer
      over its whole life, and with it is over. */
  lemma UnsafeRequestIsAnsweredOnce(p: Params, s: Sys, id: Id)
    requires Reachable(p, s) && QuietLimitOne(s, id)
    requires var cfg := LifeOf(s, id).made[0].cfg;
             && cfg.taskType == Http && cfg.cron.None? && cfg.interval.None?
             && !cfg.idempotent && !NamesSafeMethod(cfg)
    ensures var rs := ReportsOf(s.h, id);
            forall i, j :: 0 <= i < j < |rs| ==> rs[i].result.statusCode.None? || rs[j].result.statusCode.None?
    ensures id in s.e.q.store.tasks
    ensures (exists i :: 0 <= i < |ReportsOf(s.h, id)| && ReportsOf(s.h, id)[i].result.statusCode.Some?) ==>
              TaskOf(s, id).state.IsTerminal() && FlightsOf(s.e.q, id) == []
  {
    var rs := ReportsOf(s.h, id);
    ReachableIsWell(p, s, id);
    ReachableIsAccounted(p, s, id);
    forall i, j | 0 <= i < j < |rs|
      ensures rs[i].result.statusCode.None? || rs[j].result.statusCode.None?
    {
      if rs[i].result.statusCode.Some? && rs[j].result.statusCode.Some? {
        TwoAnswers(rs, i, j);
      }
    }
    if exists i :: 0 <= i < |rs| && rs[i].result.statusCode.Some? {
      var i :| 0 <= i < |rs| && rs[i].result.statusCode.Some?;
      OneAnswer(rs, i);
    }
  }
}
