/** What the end of an execution records and leaves, told from the outcome's own
    codes and the task's own fields. */
module Outcomes {
  import opened Types
  import opened Store
  import opened Queue
  import opened Retry

  /** The row the completion finds, and the one it leaves. */
  ghost predicate Settles(s: StoreState, f: Task, out: Outcome, now: u64, t: Task, t': Task) {
    && f.id in s.tasks && s.tasks[f.id] == t
    && Settle(s, f, out, now).tasks == s.tasks[f.id := t']
  }

  /** The one event the completion records. */
  ghost predicate Records(s: StoreState, f: Task, out: Outcome, now: u64, kind: EventType) {
    Settle(s, f, out, now).events == s.events + [Event(f.id, kind, now)]
  }

  // ----- which event -----

  /** An HTTP result with a status code is a success if and only if the code is
      one of 200 to 299, a shell result with an exit code if and only if that is
      0, and a result without its code is one. */
  lemma SucceedsByItsCode(s: StoreState, f: Task, out: Outcome, now: u64)
    requires f.id in s.tasks && !s.tasks[f.id].cancelRequested && out.Completed?
    ensures f.cfg.taskType == Http && out.result.statusCode.Some? ==>
              Records(s, f, out, now, if 200 <= out.result.statusCode.value <= 299 then Succeeded else FailedEvent)
    ensures f.cfg.taskType == Shell && out.result.exitCode.Some? ==>
              Records(s, f, out, now, if out.result.exitCode.value == 0 then Succeeded else FailedEvent)
    ensures (f.cfg.taskType == Http && out.result.statusCode.None?)
            || (f.cfg.taskType == Shell && out.result.exitCode.None?) ==>
              Records(s, f, out, now, Succeeded)
  {
  }

  /** A requested cancel wins over every outcome. */
  lemma CancelWins(s: StoreState, f: Task, out: Outcome, now: u64)
    requires f.id in s.tasks && s.tasks[f.id].cancelRequested
    ensures Records(s, f, out, now, CancelledEvent)
    ensures Settles(s, f, out, now, s.tasks[f.id], s.tasks[f.id].(state := Cancelled, finishedAt := Some(now)))
  {
  }

  lemma ErrorRecordsNothing(s: StoreState, f: Task, out: Outcome, now: u64)
    requires f.id in s.tasks && !s.tasks[f.id].cancelRequested && out.DispatchError?
    ensures Settle(s, f, out, now) == s.(tasks := Settle(s, f, out, now).tasks)
    ensures s.tasks[f.id].state == Interrupted ==> Settles(s, f, out, now, s.tasks[f.id], s.tasks[f.id])
  {
  }

  /** A task removed meanwhile gets no row back. Its result is recorded by its code,
      except that a success of a task with a cron expression or an interval, which
      is recorded only once counted, is not. */
  lemma RemovedTaskRecords(s: StoreState, f: Task, out: Outcome, now: u64)
    requires f.id !in s.tasks
    ensures Settle(s, f, out, now).tasks == s.tasks
    ensures out.DispatchError? ==> Settle(s, f, out, now).events == s.events
    ensures out.Completed? ==>
              var good := match f.cfg.taskType
                          case Http =>
                            out.result.statusCode.None? || 200 <= out.result.statusCode.value <= 299
                          case Shell => out.result.exitCode.None? || out.result.exitCode.value == 0;
              if !good then Records(s, f, out, now, FailedEvent)
              else if f.cfg.cron.Some? || f.cfg.interval.Some? then Settle(s, f, out, now).events == s.events
              else Records(s, f, out, now, Succeeded)
  {
  }

  /** The result is kept for whoever asks, unless the task says not to. */
  lemma ResultIsKept(s: StoreState, f: Task, out: Outcome, now: u64)
    ensures out.Completed? && !f.cfg.ignoreResult ==>
              Settle(s, f, out, now).results == s.results[f.id := out.result]
    ensures out.DispatchError? || f.cfg.ignoreResult ==> Settle(s, f, out, now).results == s.results
  {
  }

  // ----- which state -----

  /** A success is counted, in 32 bits, and ends the task unless it has a cron
      expression or an interval and has not reached its maximum. */
  lemma SuccessLeaves(s: StoreState, f: Task, out: Outcome, now: u64)
    requires f.id in s.tasks && out.Completed? && Records(s, f, out, now, Succeeded)
    requires !s.tasks[f.id].cancelRequested
    ensures var t := s.tasks[f.id];
            var n := if t.executionCount == 0xFFFF_FFFF then 0 else t.executionCount + 1;
            && (f.cfg.cron.None? && f.cfg.interval.None? ==>
                  Settles(s, f, out, now, t, t.(state := Success, finishedAt := Some(now), executionCount := n)))
            && (f.cfg.maxExecutions > 0 && n >= f.cfg.maxExecutions ==>
                  Settles(s, f, out, now, t, t.(state := Success, finishedAt := Some(now), executionCount := n)))
            && ((f.cfg.cron.Some? || f.cfg.interval.Some?) && (f.cfg.maxExecutions == 0 || n < f.cfg.maxExecutions) ==>
                  Settles(s, f, out, now, t, t.(state := Pending, finishedAt := Some(now), executionCount := n)))
  {
    EventsDiffer(s.events, f.id, now);
  }

  lemma EventsDiffer(es: seq<Event>, id: Id, now: u64)
    ensures es + [Event(id, Succeeded, now)] != es + [Event(id, FailedEvent, now)]
  {
    assert (es + [Event(id, Succeeded, now)])[|es|] != (es + [Event(id, FailedEvent, now)])[|es|];
  }

  /** The attempts a task is allowed. */
  function Allowed(cfg: TaskConfig): u32 {
    if cfg.acksOnFailure then cfg.retryMax else 0xFFFF_FFFF
  }

  /** When the next attempt is due: after the delay, or with backoff after the
      delay doubled for every attempt so far, at most sixty times the delay; or at
      the last moment there is. */
  function RetryAt(cfg: TaskConfig, attempts: u32, now: u64): int {
    var delay := if cfg.retryBackoff then Min(cfg.retryDelay * Pow2(attempts), cfg.retryDelay * 60)
                 else cfg.retryDelay;
    Min(now + delay, 0xFFFF_FFFF_FFFF_FFFF)
  }

  lemma DelayIsExact(cfg: TaskConfig, attempts: u32, now: u64)
    ensures NextRetryTs(cfg, attempts, now) == RetryAt(cfg, attempts, now)
  {
    if cfg.retryBackoff {
      BackoffIsExact(cfg, attempts);
      Pow2Monotone(0, attempts);
    }
  }

  /** Pending again at that moment, with one attempt more. */
  ghost predicate TriesAgain(t: Task, t': Task, f: Task, error: ErrorText, now: u64) {
    && f.attempts < 0xFFFF_FFFF
    && t' == t.(state := Pending, attempts := f.attempts + 1, nextFire := t'.nextFire, lastError := Some(error))
    && t'.nextFire.Some? && t'.nextFire.value == RetryAt(f.cfg, f.attempts, now)
  }

  ghost predicate GivesUp(t: Task, t': Task, f: Task, error: ErrorText, now: u64) {
    t' == t.(state := Failed, finishedAt := Some(now), lastError := Some(NotRetryable(error)),
             attempts := if f.attempts < 0xFFFF_FFFF then f.attempts + 1 else 0xFFFF_FFFF)
  }

  /** A failing request with a status code is tried again if and only if attempts
      are left, the code is one of 500 to 599, and its method is GET, HEAD or
      OPTIONS in any case or it is marked idempotent; otherwise it fails for
      good. */
  lemma AnswerIsRetriedIff(s: StoreState, f: Task, out: Outcome, now: u64)
    requires f.id in s.tasks && !s.tasks[f.id].cancelRequested && out.Completed?
    requires f.cfg.taskType == Http && out.result.statusCode.Some?
    requires !(200 <= out.result.statusCode.value <= 299)
    ensures var t, t' := s.tasks[f.id], Settle(s, f, out, now).tasks[f.id];
            && Settles(s, f, out, now, t, t')
            && (if && f.attempts < Allowed(f.cfg)
                   && 500 <= out.result.statusCode.value <= 599
                   && (f.cfg.idempotent || NamesSafeMethod(f.cfg))
                then TriesAgain(t, t', f, HttpStatus(out.result.statusCode.value), now)
                else GivesUp(t, t', f, HttpStatus(out.result.statusCode.value), now))
  {
    WorthRetryingIff(f.cfg, f.attempts, Allowed(f.cfg), out.result);
    DelayIsExact(f.cfg, f.attempts, now);
  }

  /** A failing command, with its exit code, if and only if attempts are left. */
  lemma ExitIsRetriedIff(s: StoreState, f: Task, out: Outcome, now: u64)
    requires f.id in s.tasks && !s.tasks[f.id].cancelRequested && out.Completed?
    requires f.cfg.taskType == Shell && out.result.exitCode.Some? && out.result.exitCode.value != 0
    ensures var t, t' := s.tasks[f.id], Settle(s, f, out, now).tasks[f.id];
            && Settles(s, f, out, now, t, t')
            && (if f.attempts < Allowed(f.cfg) then TriesAgain(t, t', f, ShellExit(out.result.exitCode.value), now)
                else GivesUp(t, t', f, ShellExit(out.result.exitCode.value), now))
  {
    WorthRetryingIff(f.cfg, f.attempts, Allowed(f.cfg), out.result);
    DelayIsExact(f.cfg, f.attempts, now);
  }

  /** An execution without a result, unless the watchdog interrupted it, the same. */
  lemma ErrorIsRetriedIff(s: StoreState, f: Task, out: Outcome, now: u64)
    requires f.id in s.tasks && !s.tasks[f.id].cancelRequested && out.DispatchError?
    requires s.tasks[f.id].state != Interrupted
    ensures var t, t' := s.tasks[f.id], Settle(s, f, out, now).tasks[f.id];
            && Settles(s, f, out, now, t, t')
            && (if f.attempts < Allowed(f.cfg) then TriesAgain(t, t', f, ErrorText.Dispatch(out.message), now)
                else GivesUp(t, t', f, ErrorText.Dispatch(out.message), now))
  {
    WorthRetryingIff(f.cfg, f.attempts, Allowed(f.cfg), DEFAULT_RESULT);
    DelayIsExact(f.cfg, f.attempts, now);
  }
}
