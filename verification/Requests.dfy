/** What a cancel and a requeue request do to a task's row, and what becomes of a
    task that is requeued. */
module Requests {
  import opened Types
  import opened Store
  import opened Queue
  import Admissions
  import Cron
  import Scans

  // ----- cancel -----

  /** A cancel is accepted for a Pending task, which is then Cancelled with an
      event, and for a Running one, which is only asked to stop; any other is
      refused, and nothing is changed. */
  lemma CancelIff(s: StoreState, id: Id, now: u64)
    ensures var (s', r) := CancelTask(s, id, now);
            && (r == CancelNotFound <==> id !in s.tasks)
            && (r == CancelOk <==> id in s.tasks && s.tasks[id].state in {Pending, Running})
            && (r != CancelOk ==> s' == s)
            && (r == CancelOk && s.tasks[id].state == Pending ==>
                  s' == s.(tasks := s.tasks[id := s.tasks[id].(state := Cancelled, finishedAt := Some(now))],
                           events := s.events + [Event(id, CancelledEvent, now)]))
            && (r == CancelOk && s.tasks[id].state == Running ==>
                  s' == s.(tasks := s.tasks[id := s.tasks[id].(cancelRequested := true)]))
  {
  }

  /** A second cancel changes nothing; it is refused unless the task still runs. */
  lemma CancelTwice(s: StoreState, id: Id, now: u64, later: u64)
    requires CancelTask(s, id, now).1 == CancelOk
    ensures var s1 := CancelTask(s, id, now).0;
            && CancelTask(s1, id, later).0 == s1
            && CancelTask(s1, id, later).1 == (if s.tasks[id].state == Running then CancelOk else CancelAlreadyTerminal)
  {
    var s1 := CancelTask(s, id, now).0;
    assert s1.tasks[id := s1.tasks[id]] == s1.tasks;
  }

  // ----- requeue -----

  /** A task that came back to Pending by request, due at that time and with a
      clean slate; its configuration, its count and its results stay. */
  function StartedOver(t: Task, now: u64): Task {
    t.(state := Pending, nextFire := Some(now), attempts := 0, cancelRequested := false,
       startedAt := None, finishedAt := None, lastError := None)
  }

  /** A requeue is accepted exactly for a task that is over, and starts it over. */
  lemma RequeueIff(s: StoreState, id: Id, now: u64)
    ensures var (s', ok) := RequeueTask(s, id, now);
            && (ok <==> id in s.tasks && s.tasks[id].state in {Success, Failed, Cancelled, Expired})
            && s' == if ok then s.(tasks := s.tasks[id := StartedOver(s.tasks[id], now)]) else s
  {
  }

  /** Cancelled while Pending and requeued, a task is as it was but for its fresh
      start. */
  lemma CancelThenRequeue(s: StoreState, id: Id, now: u64, later: u64)
    requires id in s.tasks && s.tasks[id].state == Pending
    ensures var (s', ok) := RequeueTask(CancelTask(s, id, now).0, id, later);
            ok && s'.tasks == s.tasks[id := StartedOver(s.tasks[id], later)]
  {
    var s1 := CancelTask(s, id, now).0;
    assert s.tasks[id := s1.tasks[id]][id := StartedOver(s1.tasks[id], later)]
        == s.tasks[id := StartedOver(s.tasks[id], later)];
  }

  /** A requeued task without a cron expression is queued by the next retry scan
      that lists it, given room. */
  lemma RequeuedIsQueued(q: QueueState, cap: nat, id: Id, now: u64, scan: u64)
    requires RequeueTask(q.store, id, now).1 && q.store.tasks[id].id == id && q.store.tasks[id].cfg.cron.None?
    requires now <= scan && |q.pending| < cap
    ensures var q1 := q.(store := RequeueTask(q.store, id, now).0);
            var t := q1.store.tasks[id];
            var q2 := RetryOne(q1, cap, t, scan);
            && Admissions.Queues(q1.(store := q2.store), q2, cap, id, t.cfg.priority)
            && id in q2.store.tasks && q2.store.tasks[id] == t.(nextFire := None)
  {
    Admissions.RetryScanIff(q.(store := RequeueTask(q.store, id, now).0), cap,
                            RequeueTask(q.store, id, now).0.tasks[id], scan);
  }

  /** A requeued cron task is put in the batch of the next cron scan that reaches
      it, open, in time for the moment it was requeued and on no skipped day. */
  lemma RequeuedIsFired(o: Cron.Oracle, s: StoreState, id: Id, now: u64, list: seq<Task>, j: nat, scan: u64, cap: nat,
                        draws: Id -> nat)
    requires RequeueTask(s, id, now).1 && s.tasks[id].id == id && now <= scan
    requires var s1 := RequeueTask(s, id, now).0;
             && Scans.IsReached(o, s1, list, j, scan, cap, draws) && list[j].id == id
             && Scans.IsOpen(list[j], scan) && Cron.IsCronTask(list[j].cfg)
    ensures var due := Cron.ScanAll(o, RequeueTask(s, id, now).0, list, scan, cap, draws).1;
            id in due
            <==> Scans.InTime(s.tasks[id].cfg, now, scan) && !Cron.ShouldSkipTrigger(o, s.tasks[id].cfg, scan)
  {
    var next := Scans.CronFiresIff(o, RequeueTask(s, id, now).0, list, j, scan, cap, draws, now);
  }
}
