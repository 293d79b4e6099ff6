/** One task's part of the whole system, and what every step keeps true of it. */
module Lives {
  import opened Types
  import opened Store
  import opened Queue
  import opened Overlap
  import opened Retry
  import opened PriorityQueue
  import Cron
  import Engine
  import Handlers

  /** Everything the system holds about one id.
      `made`: the tasks inserted under it; `starts`, `successes`: its
      recorded events; `queued`: it is in the pending queue or in a timer;
      `due`: in a cron batch or callback; `listed`: its copies in the running
      cron and retry scans' listings; the rest is history. */
  datatype Life = Life(
    row: Option<Task>,
    made: seq<Task>,
    starts: nat,
    successes: nat,
    flights: seq<Task>,
    count: nat,
    queued: bool,
    refused: bool,
    due: bool,
    listed: set<Task>,
    touched: bool,
    requeued: bool,
    parked: bool,
    consults: nat,
    answered: nat,
    halt: Option<Engine.Halt>,
    overruled: bool,
    forged: set<Id>,
    fired: bool,
    skipped: bool,
    ended: bool)

  predicate Held(l: Life) {
    l.queued || l.due
  }

  predicate RowEnded(l: Life) {
    l.row.None? || l.row.value.state.IsTerminal()
  }

  /** Not over: the row is not terminal, or an execution is in flight. */
  predicate Live(l: Life) {
    !RowEnded(l) || l.flights != []
  }

  /** Inserted once and never removed, replaced or modified. */
  predicate Unaltered(l: Life) {
    |l.made| == 1 && !l.touched
  }

  predicate Quiet(l: Life) {
    Unaltered(l) && !l.requeued
  }

  predicate LimitOne(cfg: TaskConfig) {
    cfg.maxInstances <= 1 && !cfg.allowOverlap
  }

  // ----- no lost task -----

  /** Over at its first success. */
  predicate IsOnce(cfg: TaskConfig) {
    !IsPeriodic(cfg) || cfg.maxExecutions == 1
  }

  predicate IsPureInterval(cfg: TaskConfig) {
    cfg.interval.Some? && !Cron.HasCronTrigger(cfg) && cfg.runAt.None?
  }

  predicate IsCron(cfg: TaskConfig) {
    cfg.cron.Some? && cfg.runAt.None?
  }

  /** Something will still bring the task to the front of the queue. */
  predicate NotLost(l: Life)
    requires l.row.Some?
  {
    var t := l.row.value;
    || t.state.IsTerminal() || t.state.Interrupted?
    || Held(l) || l.flights != []
    || HasFireTime(t)
  }

  predicate HasFireTime(t: Task) {
    t.nextFire.Some? && t.nextFire.value != U64_MAX
  }

  /** The 32-bit execution counter has not wrapped round. */
  predicate Unwrapped(l: Life) {
    l.successes <= U32_MAX
  }

  /** It succeeded, and not for the last time. */
  predicate HasGoneOn(l: Life)
    requires l.made != []
  {
    !IsOnce(l.made[0].cfg) && l.successes >= 1
  }

  /** Created with a date still to come, so that a dispatch does not queue it. */
  predicate Waits(t: Task) {
    Handlers.IsDeferred(t.cfg, t.nextFire, t.createdAt)
  }

  /** Nothing but a scan moves the fire time of such a task. */
  predicate NeverRetimed(cfg: TaskConfig) {
    EffectiveMax(cfg) == 0 && cfg.rateCount == 0
  }

  /** A quiet run-at task nothing but a scan has retimed so far. */
  predicate HasItsDate(l: Life)
    requires l.made != []
  {
    && !l.requeued && l.made[0].cfg.runAt.Some?
    && ((l.starts == 0 && !IsPeriodic(l.made[0].cfg)) || NeverRetimed(l.made[0].cfg))
  }

  /** Its fire time is the one it was created with, cleared, or used up. */
  predicate IsOfDate(created: Task, t: Task) {
    t.nextFire == created.nextFire || t.nextFire.None? || t.nextFire == Some(U64_MAX)
  }

  ghost predicate OnDate(l: Life)
    requires l.made != [] && l.row.Some?
  {
    && IsOfDate(l.made[0], l.row.value)
    && forall t :: t in l.listed ==> IsOfDate(l.made[0], t)
  }

  ghost predicate Kept(l: Life) {
    Unaltered(l) && !l.refused && !l.parked && l.row.Some? ==>
      && (!HasGoneOn(l) && !l.skipped && Unwrapped(l) ==> NotLost(l))
      && (IsPureInterval(l.made[0].cfg) ==> l.row.value.nextFire != Some(U64_MAX))
      && (IsCron(l.made[0].cfg) && l.made[0].nextFire.Some? ==> HasFireTime(l.row.value))
      && (l.made[0].cfg.runAt.Some? && !l.fired ==> l.row.value.nextFire != Some(U64_MAX))
      && (!l.requeued && l.starts == 0 && l.row.value.state.Pending? && !Waits(l.made[0]) ==> Held(l))
      && (HasItsDate(l) ==> OnDate(l))
  }

  /** The execution counter counts the successes. */
  ghost predicate Counts(l: Life) {
    Unaltered(l) && l.row.Some? && Unwrapped(l) ==> l.row.value.executionCount == l.successes
  }

  // ----- the invariant -----

  ghost predicate Sound(id: Id, l: Life) {
    && l.count == |l.flights|
    && (l.row.Some? ==> l.row.value.id == id)
    && (forall k :: 0 <= k < |l.flights| ==> l.flights[k].id == id)
    && (l.row.Some? && l.row.value.state.Running? ==> l.flights != [])
    && (l.made == [] ==>
          && l.row.None? && l.flights == [] && l.listed == {}
          && l.starts == 0 && l.successes == 0 && l.consults == 0 && l.answered == 0
          && l.halt.None? && !l.overruled && !l.ended)
  }

  ghost predicate SameConfig(l: Life) {
    Unaltered(l) ==>
      && l.row.Some? && l.row.value.cfg == l.made[0].cfg && l.row.value.createdAt == l.made[0].createdAt
      && (forall k :: 0 <= k < |l.flights| ==> l.flights[k].cfg == l.made[0].cfg)
      && (forall t :: t in l.listed ==> t.cfg == l.made[0].cfg && t.createdAt == l.made[0].createdAt)
  }

  /** Before its first execution a task is Pending or over, and it was not created
      with a saturated fire time unnoticed. */
  ghost predicate Begun(l: Life) {
    Unaltered(l) && l.row.Some? ==>
      && (l.starts == 0 ==>
            && l.successes == 0 && l.flights == []
            && (l.row.value.state.Pending? || l.row.value.state.IsTerminal())
            && (forall t :: t in l.listed ==> t.state.Pending?))
      && (l.made[0].nextFire == Some(U64_MAX) ==> l.parked)
  }

  /** What limit 1 buys in a quiet run. */
  ghost predicate OneAtATime(l: Life)
    requires |l.made| == 1 && l.row.Some?
  {
    var t := l.row.value;
    && |l.flights| <= 1
    && (t.state.Pending? ==> l.flights == [])
    && (l.flights != [] ==> l.flights[0].attempts == t.attempts)
    && (t.cancelRequested ==> l.flights != [] || t.state.IsTerminal())
  }

  ghost predicate ExecutionsBounded(l: Life)
    requires |l.made| == 1 && l.row.Some?
  {
    var m := l.made[0].cfg.maxExecutions;
    m > 0 ==>
      && l.row.value.executionCount <= m
      && (Live(l) ==> l.row.value.executionCount < m)
      && (forall t :: t in l.listed ==> t.executionCount < m)
  }

  ghost predicate RetriesBounded(l: Life)
    requires |l.made| == 1 && l.row.Some?
  {
    var max := EffectiveMax(l.made[0].cfg);
    && l.consults <= max + 1
    && (Live(l) ==> l.consults == l.row.value.attempts <= max)
  }

  ghost predicate SuccessIsFinal(l: Life)
    requires |l.made| == 1 && l.row.Some?
  {
    !IsPeriodic(l.made[0].cfg) ==>
      && l.successes <= 1
      && (l.successes == 1 ==> !Live(l))
      && (MustNotRepeat(l.made[0].cfg) ==> l.answered <= 1 && (l.answered == 1 ==> !Live(l)))
  }

  ghost predicate QuietLife(l: Life) {
    Quiet(l) && LimitOne(l.made[0].cfg) && l.row.Some? ==>
      && OneAtATime(l) && ExecutionsBounded(l) && RetriesBounded(l) && SuccessIsFinal(l)
      && (l.ended ==> !Live(l))
  }

  /** Some clock reading is past the expiry or the end date. */
  predicate CanBeOverruled(cfg: TaskConfig) {
    0 < cfg.expires < U64_MAX || (cfg.endDate.Some? && cfg.endDate.value < I64_MAX)
  }

  /** After an accepted cancel: nothing starts, nothing is retried, and what is
      left once no execution is in flight is Cancelled, unless a cron scan
      overruled it from its listing; which takes an expiry or an end date. */
  ghost predicate CancelKept(l: Life) {
    Quiet(l) && LimitOne(l.made[0].cfg) && l.row.Some? ==>
      && (!CanBeOverruled(l.made[0].cfg) ==> !l.overruled)
      && (l.halt.Some? ==>
            && l.starts == l.halt.value.starts && l.consults == l.halt.value.consults
            && !l.row.value.state.Pending?
            && (l.flights != [] ==> l.row.value.cancelRequested)
            && (l.flights == [] ==> l.row.value.state.IsTerminal())
            && (l.flights == [] ==> (l.row.value.state.Cancelled? <==> !l.overruled)))
  }

  /** The executions in flight never exceed the task's limit. */
  ghost predicate WithinLimit(l: Life) {
    Unaltered(l) && Limit(l.made[0].cfg).Some? ==> |l.flights| <= Limit(l.made[0].cfg).value
  }

  /** A chain marker the id was inserted with, or one a request supplied. */
  ghost predicate Known(l: Life, marker: Option<Id>) {
    || marker.None?
    || marker.value in l.forged
    || exists i :: 0 <= i < |l.made| && l.made[i].cfg.chainId == marker
  }

  ghost predicate Genuine(l: Life) {
    && (l.row.Some? ==> Known(l, l.row.value.cfg.chainId))
    && (forall k :: 0 <= k < |l.flights| ==> Known(l, l.flights[k].cfg.chainId))
  }

  ghost predicate Inv(id: Id, l: Life) {
    && Sound(id, l) && Genuine(l) && SameConfig(l) && WithinLimit(l)
    && Begun(l) && Kept(l) && Counts(l) && QuietLife(l) && CancelKept(l)
  }

  // ----- the ways a step can change one life -----

  /** Histories only grow; `due`, `queued` and `listed` as the step says. */
  predicate Ages(l: Life, l': Life) {
    && (l.refused ==> l'.refused) && (l.touched ==> l'.touched)
    && (l.requeued ==> l'.requeued) && (l.parked ==> l'.parked)
    && (l.fired ==> l'.fired) && (l.skipped ==> l'.skipped)
    && l.forged <= l'.forged
    && l'.listed <= l.listed
    && l'.made == l.made
  }

  predicate StaysHeld(l: Life, l': Life) {
    Held(l) ==> Held(l') || l'.refused
  }

  /** Nothing but where the id is queued changes. */
  predicate Idles(l: Life, l': Life) {
    && Ages(l, l')
    && l'.row == l.row && l'.starts == l.starts && l'.successes == l.successes
    && l'.flights == l.flights && l'.count == l.count
    && l'.consults == l.consults && l'.answered == l.answered
    && l'.halt == l.halt && l'.overruled == l.overruled && l'.ended == l.ended
    && (StaysHeld(l, l') || RowEnded(l))
  }

  lemma IdlesStaysSound(id: Id, l: Life, l': Life)
    requires Sound(id, l) && Genuine(l) && SameConfig(l) && WithinLimit(l) && Begun(l) && Counts(l) && Idles(l, l')
    ensures Sound(id, l') && Genuine(l') && SameConfig(l') && WithinLimit(l') && Begun(l') && Counts(l')
  {
  }

  lemma IdlesStaysKept(l: Life, l': Life)
    requires Kept(l) && Idles(l, l')
    ensures Kept(l')
  {
  }

  lemma IdlesStaysQuiet(l: Life, l': Life)
    requires QuietLife(l) && CancelKept(l) && Idles(l, l')
    ensures QuietLife(l') && CancelKept(l')
  {
  }

  lemma IdlesKeeps(id: Id, l: Life, l': Life)
    requires Inv(id, l) && Idles(l, l')
    ensures Inv(id, l')
  {
    IdlesStaysSound(id, l, l');
    IdlesStaysKept(l, l');
    IdlesStaysQuiet(l, l');
  }

  /** A scan lists the active row. */
  ghost predicate Lists(l: Life, l': Life) {
    && l' == l.(listed := l'.listed)
    && (forall t :: t in l'.listed ==>
          t in l.listed || (l.row == Some(t) && !t.state.IsTerminal()))
  }

  lemma ListsStaysSound(id: Id, l: Life, l': Life)
    requires Sound(id, l) && Genuine(l) && SameConfig(l) && WithinLimit(l) && Begun(l) && Counts(l) && Lists(l, l')
    ensures Sound(id, l') && Genuine(l') && SameConfig(l') && WithinLimit(l') && Begun(l') && Counts(l')
  {
  }

  lemma ListsStaysKept(l: Life, l': Life)
    requires Kept(l) && Lists(l, l')
    ensures Kept(l')
  {
  }

  lemma ListsStaysQuiet(l: Life, l': Life)
    requires QuietLife(l) && CancelKept(l) && Lists(l, l')
    ensures QuietLife(l') && CancelKept(l')
  {
    assert Live(l) <==> Live(l');
  }

  lemma ListsKeeps(id: Id, l: Life, l': Life)
    requires Inv(id, l) && Lists(l, l')
    ensures Inv(id, l')
  {
    ListsStaysSound(id, l, l');
    ListsStaysKept(l, l');
    ListsStaysQuiet(l, l');
  }

  /** A new task is inserted, and queued unless it waits for its fire time or
      the queue is full. */
  predicate Inserts(id: Id, l: Life, l': Life, t: Task) {
    && l.forged <= l'.forged
    && (l.refused ==> l'.refused) && (l.touched ==> l'.touched)
    && (l.requeued ==> l'.requeued) && (l.parked ==> l'.parked)
    && (l.fired ==> l'.fired) && (l.skipped ==> l'.skipped)
    && l'.row == Some(t) && l'.made == l.made + [t]
    && t.id == id && t.state.Pending? && t.attempts == 0 && t.executionCount == 0 && !t.cancelRequested
    && l'.starts == l.starts && l'.successes == l.successes
    && l'.flights == l.flights && l'.count == l.count && l'.listed == l.listed
    && l'.consults == l.consults && l'.answered == l.answered
    && l'.halt == l.halt && l'.overruled == l.overruled && l'.ended == l.ended
    && (t.nextFire == Some(U64_MAX) && l.made == [] ==> l'.parked)
    && (Held(l') || l'.refused || Waits(t))
  }

  lemma KnownStays(l: Life, l': Life, marker: Option<Id>)
    requires Known(l, marker) && l.forged <= l'.forged && l.made <= l'.made
    ensures Known(l', marker)
  {
    if marker.Some? && marker.value !in l.forged {
      var i :| 0 <= i < |l.made| && l.made[i].cfg.chainId == marker;
      assert l'.made[i].cfg.chainId == marker;
    }
  }

  lemma InsertsKeeps(id: Id, l: Life, l': Life, t: Task)
    requires Inv(id, l) && Inserts(id, l, l', t)
    ensures Inv(id, l')
  {
    assert l'.made[|l.made|].cfg.chainId == t.cfg.chainId;
    forall k | 0 <= k < |l'.flights|
      ensures Known(l', l'.flights[k].cfg.chainId)
    {
      KnownStays(l, l', l.flights[k].cfg.chainId);
    }
    assert |l.made| >= 1 ==> |l'.made| >= 2;
  }

  /** A request removes, replaces or modifies the row. */
  predicate Disturbs(id: Id, l: Life, l': Life) {
    && l'.touched
    && l.made != [] && l.made <= l'.made && l.forged <= l'.forged
    && (l'.row.Some? ==>
          && l'.row.value.id == id
          && (|| l'.row.value.cfg.chainId.None?
              || l'.row.value.cfg.chainId.value in l'.forged
              || (l.row.Some? && l'.row.value.cfg.chainId == l.row.value.cfg.chainId))
          && (l'.row.value.state.Running? ==> l.row.Some? && l.row.value.state.Running?))
    && l'.flights == l.flights && l'.count == l.count
  }

  lemma DisturbsKeeps(id: Id, l: Life, l': Life)
    requires Inv(id, l) && Disturbs(id, l, l')
    ensures Inv(id, l')
  {
  }

  /** The row is rewritten without starting or ending an execution. */
  predicate Edits(l: Life, l': Life) {
    && l.row.Some? && l'.row.Some?
    && Ages(l, l')
    && l'.starts == l.starts && l'.successes == l.successes
    && l'.flights == l.flights && l'.count == l.count
    && l'.consults == l.consults && l'.answered == l.answered && l'.ended == l.ended
    && var t, t' := l.row.value, l'.row.value;
       && t'.id == t.id && t'.cfg == t.cfg && t'.createdAt == t.createdAt
       && t'.attempts == t.attempts && t'.executionCount == t.executionCount
       && (|| t'.state == t.state
           || t'.state.IsTerminal()
           || (t.state.Running? && t'.state.Interrupted?))
       && (t'.cancelRequested ==> t.cancelRequested || t.state.Running?)
  }

  lemma EditsKeeps(id: Id, l: Life, l': Life)
    requires Inv(id, l) && Edits(l, l') && Kept(l') && CancelKept(l')
    ensures Inv(id, l')
  {
    if Quiet(l') && LimitOne(l'.made[0].cfg) {
      assert Quiet(l);
      assert Live(l') ==> Live(l);
    }
  }

  /** The same, when neither the state nor a cancel is affected. */
  predicate Retimes(l: Life, l': Life) {
    && Edits(l, l') && l'.halt == l.halt && l'.overruled == l.overruled
    && l'.row.value.state == l.row.value.state
    && l'.row.value.cancelRequested == l.row.value.cancelRequested
  }

  lemma RetimesKeeps(id: Id, l: Life, l': Life)
    requires Inv(id, l) && Retimes(l, l') && Kept(l')
    ensures Inv(id, l')
  {
    EditsKeeps(id, l, l');
  }

  /** A row whose fire time stays, and who stays held, is kept. */
  lemma UnmovedIsKept(l: Life, l': Life)
    requires Kept(l) && Retimes(l, l') && StaysHeld(l, l') && l'.row.value.nextFire == l.row.value.nextFire
    ensures Kept(l')
  {
  }

  /** A Pending task expires. */
  lemma ExpiresKeeps(id: Id, l: Life, l': Life, now: u64)
    requires Inv(id, l) && Edits(l, l') && l'.halt == l.halt && l'.overruled == l.overruled
    requires l.row.value.state.Pending? && l'.row == Some(TaskWithState(l.row.value, Expired, None, Some(now)))
    ensures Inv(id, l')
  {
    EditsKeeps(id, l, l');
  }

  /** A live execution is interrupted, or nothing happens to the row. */
  lemma InterruptKeeps(id: Id, l: Life, l': Life, now: u64)
    requires Inv(id, l) && Edits(l, l') && StaysHeld(l, l') && l'.halt == l.halt && l'.overruled == l.overruled
    requires l'.row == l.row || l'.row == Some(TaskWithState(l.row.value, Interrupted, None, Some(now)))
    ensures Inv(id, l')
  {
    EditsKeeps(id, l, l');
  }

  /** A terminal task goes back to Pending by request. */
  predicate GoesBack(l: Life, l': Life) {
    && l.row.Some? && l'.row.Some?
    && Ages(l, l') && l'.requeued
    && l'.flights == l.flights && l'.count == l.count
    && l'.starts == l.starts && l'.successes == l.successes
    && l'.consults == l.consults && l'.answered == l.answered
    && l'.row.value.id == l.row.value.id && l'.row.value.cfg == l.row.value.cfg
    && l'.row.value.createdAt == l.row.value.createdAt
    && l'.row.value.executionCount == l.row.value.executionCount
    && l'.row.value.state.Pending?
  }

  lemma GoesBackKeeps(id: Id, l: Life, l': Life)
    requires Inv(id, l) && GoesBack(l, l') && Kept(l')
    ensures Inv(id, l')
  {
  }

  /** The prologue admits the row and starts an execution. */
  predicate Starts(l: Life, l': Life) {
    && l.row.Some? && !l.row.value.state.IsTerminal()
    && Ages(l, l')
    && (Limit(l.row.value.cfg).Some? ==> l.count < Limit(l.row.value.cfg).value)
    && (exists now :: l'.row == Some(TaskWithState(l.row.value, Running, Some(now), None)))
    && l'.flights == l.flights + [l.row.value] && l'.count == l.count + 1
    && l'.starts == l.starts + 1 && l'.successes == l.successes
    && l'.consults == l.consults && l'.answered == l.answered
    && l'.halt == l.halt && l'.overruled == l.overruled && l'.ended == l.ended
  }

  lemma StartsKeeps(id: Id, l: Life, l': Life)
    requires Inv(id, l) && Starts(l, l')
    ensures Inv(id, l')
  {
    assert l'.flights != [];
    if Quiet(l') && LimitOne(l'.made[0].cfg) {
      assert Quiet(l);
      assert l.flights == [];
      assert l'.flights == [l.row.value];
    }
  }

  /** Execution `k` ends with outcome `out`. */
  predicate Finishes(l: Life, l': Life, k: nat, out: Outcome, now: u64) {
    && k < |l.flights|
    && Ages(l, l') && StaysHeld(l, l')
    && var f := l.flights[k];
       && l'.row == (if l.row.Some? then Some(SettleRow(l.row.value, f, out, now)) else None)
       && l'.flights == Without(l.flights, k) && l'.count == l.count - 1
       && l'.starts == l.starts && l'.halt == l.halt && !l'.overruled
       && l'.successes == l.successes + (if SettleEvent(l.row, f, out) == Some(Succeeded) then 1 else 0)
       && l'.consults == l.consults + (if Consults(l.row, f, out) then 1 else 0)
       && l'.answered == l.answered + (if Answers(out) then 1 else 0)
       && (l'.ended <==> l.ended || Ends(l.row, f, out, now))
       && (RetriesAtMax(l.row, f, out, now) ==> l'.parked)
  }

  /** What every completion leaves alone, and when it leaves the task Pending:
      a periodic task that succeeded, or a retry with its fire time set. */
  lemma SettledRow(t: Task, f: Task, out: Outcome, now: u64)
    ensures var t' := SettleRow(t, f, out, now);
            && t'.id == t.id && t'.cfg == t.cfg && t'.createdAt == t.createdAt
            && t'.cancelRequested == t.cancelRequested
            && !t'.state.Running?
            && (t'.cancelRequested ==> t'.state.Cancelled?)
            && (t'.nextFire != t.nextFire ==> Consults(Some(t), f, out) && t'.nextFire.Some? && t'.state.Pending?)
            && (t'.state.Pending? ==> IsPeriodic(f.cfg) || (Consults(Some(t), f, out) && t'.nextFire.Some?))
  {
  }

  lemma FinishIsSound(id: Id, l: Life, l': Life, k: nat, out: Outcome, now: u64)
    requires Inv(id, l) && Finishes(l, l', k, out, now)
    ensures Sound(id, l') && SameConfig(l')
    ensures Genuine(l') && WithinLimit(l') && Begun(l')
  {
    if l.row.Some? {
      SettledRow(l.row.value, l.flights[k], out, now);
    }
  }

  lemma FinishKeepsTask(id: Id, l: Life, l': Life, k: nat, out: Outcome, now: u64)
    requires Inv(id, l) && Finishes(l, l', k, out, now)
    ensures Kept(l')
  {
    if l.row.Some? {
      SettledRow(l.row.value, l.flights[k], out, now);
    }
  }

  /** How one execution ends under limit 1, when it is the only one. */
  lemma OnlyFlightSettles(t: Task, f: Task, out: Outcome, now: u64)
    requires f.cfg == t.cfg && f.attempts == t.attempts <= EffectiveMax(t.cfg)
    ensures var t' := SettleRow(t, f, out, now);
            && (Consults(Some(t), f, out) ==>
                  || (t'.state.Failed? && t'.attempts <= U32_MAX)
                  || (t'.state.Pending? && t'.attempts == t.attempts + 1 <= EffectiveMax(t.cfg)))
            && (!Consults(Some(t), f, out) ==> t'.attempts == t.attempts)
  {
  }

  lemma SuccessCounts(t: Task, f: Task, out: Outcome, now: u64)
    requires f.cfg == t.cfg
    ensures var t' := SettleRow(t, f, out, now);
            && (SettleEvent(Some(t), f, out) == Some(Succeeded) ==>
                  && t'.executionCount == WrappingIncrement(t.executionCount)
                  && (IsPeriodic(t.cfg) || t'.state.Success?)
                  && (t.cfg.maxExecutions > 0 && t'.executionCount >= t.cfg.maxExecutions ==> t'.state.Success?))
            && (SettleEvent(Some(t), f, out) != Some(Succeeded) ==> t'.executionCount == t.executionCount)
            && (Answers(out) && MustNotRepeat(t.cfg) && !IsPeriodic(t.cfg) ==> t'.state.IsTerminal())
  {
    if Answers(out) && MustNotRepeat(f.cfg) {
      AnsweredUnsafeRequestIsFinal(f.cfg, f.attempts, EffectiveMax(f.cfg), out.result);
    }
  }

  lemma FinishKeepsQuietLife(id: Id, l: Life, l': Life, k: nat, out: Outcome, now: u64)
    requires Inv(id, l) && Finishes(l, l', k, out, now)
    ensures QuietLife(l')
  {
    if Quiet(l') && LimitOne(l'.made[0].cfg) && l'.row.Some? {
      var t, f := l.row.value, l.flights[k];
      assert Quiet(l) && Live(l);
      assert k == 0 && l'.flights == [];
      SettledRow(t, f, out, now);
      OnlyFlightSettles(t, f, out, now);
      SuccessCounts(t, f, out, now);
    }
  }

  lemma FinishesKeeps(id: Id, l: Life, l': Life, k: nat, out: Outcome, now: u64)
    requires Inv(id, l) && Finishes(l, l', k, out, now)
    ensures Inv(id, l')
  {
    FinishIsSound(id, l, l', k, out, now);
    FinishKeepsTask(id, l, l', k, out, now);
    FinishKeepsQuietLife(id, l, l', k, out, now);
  }
}
