/** When a chord is decided, and what its callback carries: over the engine's
    steps, and against the results the headers' executions came back with. */
module ChordRuns {
  import opened Types
  import opened Store
  import opened Queue
  import opened Engine
  import opened Lives
  import opened Steps
  import opened Guarantees
  import Admissions
  import ChainEnds
  import Chord
  import OutcomeRuns

  predicate IsLive(s: StoreState, c: Id) {
    && c in s.chords && s.chords[c].state !in {RecSuccess, RecPartialFailed} && s.chords[c].headerIds != []
  }

  ghost predicate SomeFailed(s: StoreState, ids: seq<Id>) {
    exists i :: 0 <= i < |ids| && Chord.HasFailed(s, ids[i])
  }

  ghost predicate AllSucceeded(s: StoreState, ids: seq<Id>) {
    forall i :: 0 <= i < |ids| ==> Chord.HasSucceeded(s, ids[i])
  }

  /** The callback is new, as configured but without a chain marker, and lists
      each header with the result stored for it. */
  ghost predicate CallbackIs(s: StoreState, r: ChordRecord, b: Chord.Built, now: u64, t: Task) {
    && Admissions.IsFresh(t, b.id, r.callback.(chainId := None, headerResults := t.cfg.headerResults), b.nextFire, now)
    && Chord.ListsResults(s, r.headerIds, t.cfg.headerResults)
  }

  /** The chord's record after it was refreshed, and its callback. */
  ghost predicate IsDecided(s: StoreState, s': StoreState, c: Id, b: Chord.Built, now: u64)
    requires c in s.chords
  {
    var r, ids := s.chords[c], s.chords[c].headerIds;
    && c in s'.chords && s'.chords[c].headerIds == ids
    && (s'.chords[c].state == RecPartialFailed <==> SomeFailed(s, ids))
    && (s'.chords[c].state == RecSuccess <==> AllSucceeded(s, ids))
    && (if AllSucceeded(s, ids) then
          && s'.chords[c].callbackTaskId == Some(b.id) && b.id in s'.tasks
          && CallbackIs(s, r, b, now, s'.tasks[b.id])
          && s'.tasks == s.tasks[b.id := s'.tasks[b.id]] && s'.results == s.results
        else s' == s.(chords := s'.chords))
  }

  lemma RefreshIsDecided(s: StoreState, c: Id, b: Chord.Built, now: u64)
    requires IsLive(s, c)
    ensures IsDecided(s, Chord.Refresh(s, c, Some(b), now).0, c, b, now)
    ensures Chord.Refresh(s, c, Some(b), now).1.Some?
    ensures Chord.Refresh(s, c, Some(b), now).1.value.callbackTaskId
            == if AllSucceeded(s, s.chords[c].headerIds) then Some(b.id) else None
  {
    Chord.RefreshDecides(s, c, b, now);
  }

  /** A live chord with headers is told of the end of one of them: it fails if and
      only if one of them has not ended well, and succeeds, queueing its callback,
      if and only if all of them have. */
  lemma ChordIsTold(q: QueueState, cap: nat, f: Task, b: Chord.Built, now: u64, c: Id)
    requires f.cfg.chordId == Some(c) && IsLive(q.store, c)
    ensures var q' := NotifyChord(q, cap, f, Some(b), now);
            && IsDecided(q.store, q'.store, c, b, now)
            && (if AllSucceeded(q.store, q.store.chords[c].headerIds)
                then Admissions.Queues(q.(store := q'.store), q', cap, b.id, q.store.chords[c].callback.priority)
                else q' == q.(store := q'.store))
  {
    RefreshIsDecided(q.store, c, b, now);
    var s := Chord.Refresh(q.store, c, Some(b), now).0;
    if AllSucceeded(q.store, q.store.chords[c].headerIds) {
      Admissions.EnqueueQueues(q.(store := s), cap, b.id, s.tasks[b.id].cfg.priority);
    }
  }

  // ----- the end of a header's execution -----

  /** The execution comes back with a result, no cancel requested, and leaves its
      row terminal. */
  predicate EndsWithResult(s: Sys, s': Sys, a: Action) {
    && a.Completion? && a.out.Completed?
    && a.id in s.e.q.store.tasks && !TaskOf(s, a.id).cancelRequested
    && a.id in s'.e.q.store.tasks && TaskOf(s', a.id).state in {Success, Failed, Cancelled, Expired}
  }

  lemma ChainKeepsChords(q: QueueState, cap: nat, f: Task, final: TaskState, built: Option<Chord.Built>, now: u64)
    ensures NotifyChain(q, cap, f, final, built, now).store.chords == q.store.chords
  {
  }

  lemma EndIsTold(p: Params, s: Sys, a: Action)
    requires AllWell(s) && Enabled(p, s.e, a) && EndsWithResult(s, Next(p, s, a), a)
    ensures var f, q1 := s.e.q.flights[a.id][a.k], Landed(s.e.q, a.id, a.k, a.out, a.now);
            && f.id == a.id && q1.store.chords == s.e.q.store.chords
            && Next(p, s, a).e.q.store
               == Notify(q1, p.cap, f, FinalState(q1.store, f), a.builds, a.now).store
  {
    assert Well(s, a.id);
    assert FlightsOf(s.e.q, a.id)[a.k].id == a.id;
    ChainEnds.CompletionStore(s.e.q, a.id, a.k, p.cap, a.out, a.builds, a.now);
  }

  /** The chord, whose record was `r`, stands as the rows of its headers do, and if
      it has succeeded its callback is there. */
  ghost predicate StandsAsHeaders(s: StoreState, r: ChordRecord, c: Id, b: Chord.Built, now: u64) {
    && c in s.chords
    && (s.chords[c].state == RecPartialFailed <==> SomeFailed(s, r.headerIds))
    && (s.chords[c].state == RecSuccess <==> AllSucceeded(s, r.headerIds))
    && (AllSucceeded(s, r.headerIds) ==>
          && s.chords[c].callbackTaskId == Some(b.id) && b.id in s.tasks
          && CallbackIs(s, r, b, now, s.tasks[b.id]))
  }

  /** The headers' rows and results are the same before and after. */
  lemma DecidedByRowsAfter(s: StoreState, s': StoreState, c: Id, b: Chord.Built, now: u64)
    requires c in s.chords && IsDecided(s, s', c, b, now) && b.id !in s.chords[c].headerIds
    ensures StandsAsHeaders(s', s.chords[c], c, b, now)
  {
    var ids := s.chords[c].headerIds;
    forall i | 0 <= i < |ids|
      ensures Chord.HasFailed(s', ids[i]) <==> Chord.HasFailed(s, ids[i])
      ensures Chord.HasSucceeded(s', ids[i]) <==> Chord.HasSucceeded(s, ids[i])
    {
    }
  }

  lemma ToldChordStands(q: QueueState, cap: nat, f: Task, final: TaskState, builds: Builds, now: u64, c: Id,
                        b: Chord.Built)
    requires f.cfg.chordId == Some(c) && IsLive(q.store, c)
    requires builds.callback == Some(b) && b.id !in q.store.chords[c].headerIds
    ensures StandsAsHeaders(Notify(q, cap, f, final, builds, now).store, q.store.chords[c], c, b, now)
  {
    var q2 := NotifyChain(q, cap, f, final, builds.step, now);
    ChainKeepsChords(q, cap, f, final, builds.step, now);
    ChordIsTold(q2, cap, f, b, now, c);
    DecidedByRowsAfter(q2.store, NotifyChord(q2, cap, f, Some(b), now).store, c, b, now);
  }

  /** When the execution of a header comes back with a result that ends its task,
      its live chord, with headers, fails if and only if one of them has failed,
      expired, or was cancelled or interrupted, and succeeds if and only if all of
      them are in Success. Its callback then lists the result stored for each. */
  lemma EndedHeaderDecides(p: Params, s: Sys, a: Action, c: Id, b: Chord.Built)
    requires Reachable(p, s) && Enabled(p, s.e, a) && EndsWithResult(s, Next(p, s, a), a)
    requires s.e.q.flights[a.id][a.k].cfg.chordId == Some(c) && IsLive(s.e.q.store, c)
    requires a.builds.callback == Some(b) && b.id !in s.e.q.store.chords[c].headerIds
    ensures StandsAsHeaders(Next(p, s, a).e.q.store, s.e.q.store.chords[c], c, b, a.now)
  {
    var f, q1 := s.e.q.flights[a.id][a.k], Landed(s.e.q, a.id, a.k, a.out, a.now);
    ReachableAllWell(p, s);
    EndIsTold(p, s, a);
    ToldChordStands(q1, p.cap, f, FinalState(q1.store, f), a.builds, a.now, c, b);
  }

  // ----- whose results they are -----

  /** What the last execution of a task that came back with a result brought, if
      the task keeps results. */
  ghost function LastResult(s: Sys, id: Id): Option<TaskResult>
    requires LifeOf(s, id).made != []
  {
    var rs := ReportsOf(s.h, id);
    if rs == [] || LifeOf(s, id).made[0].cfg.ignoreResult then None else Some(rs[|rs| - 1].result)
  }

  /** The callback inserted when a chord succeeds hands over, for each header that
      was inserted once and not altered, the result its last execution came back
      with. */
  lemma CallbackCarriesResults(p: Params, s: Sys, a: Action, c: Id, b: Chord.Built, i: nat)
    requires Reachable(p, s) && Enabled(p, s.e, a) && EndsWithResult(s, Next(p, s, a), a)
    requires s.e.q.flights[a.id][a.k].cfg.chordId == Some(c) && IsLive(s.e.q.store, c)
    requires a.builds.callback == Some(b) && b.id !in s.e.q.store.chords[c].headerIds
    requires AllSucceeded(Next(p, s, a).e.q.store, s.e.q.store.chords[c].headerIds)
    requires i < |s.e.q.store.chords[c].headerIds|
    requires Unaltered(LifeOf(Next(p, s, a), s.e.q.store.chords[c].headerIds[i]))
    ensures var s', id := Next(p, s, a), s.e.q.store.chords[c].headerIds[i];
            && b.id in s'.e.q.store.tasks && i < |TaskOf(s', b.id).cfg.headerResults|
            && TaskOf(s', b.id).cfg.headerResults[i] == HeaderResult(id, LastResult(s', id))
  {
    EndedHeaderDecides(p, s, a, c, b);
    ReachStep(p, s, a);
    OutcomeRuns.ResultsAreAccountedFor(p, Next(p, s, a), s.e.q.store.chords[c].headerIds[i]);
  }
}
