/** The per-task sliding-window rate limiter.

    The limiter stores only the timestamps it still needs; the lemmas compare it
    with the full history of accepted triggers. */
module RateLimiting {
  import opened Types

  type Buckets = map<Id, seq<u64>>

  /** The timestamps strictly above a floor, in order. */
  function Above(s: seq<u64>, floor: int): seq<u64> {
    if s == [] then []
    else Above(s[..|s| - 1], floor) + (if s[|s| - 1] > floor then [s[|s| - 1]] else [])
  }

  /** The timestamps in (low, high], in order. */
  function Within(s: seq<u64>, low: int, high: int): seq<u64> {
    if s == [] then []
    else
      Within(s[..|s| - 1], low, high)
      + (if low < s[|s| - 1] <= high then [s[|s| - 1]] else [])
  }

  function BucketOf(b: Buckets, id: Id): seq<u64> {
    if id in b then b[id] else []
  }

  /** `check_and_record`: the new buckets and whether the trigger is allowed. */
  function CheckAndRecord(b: Buckets, id: Id, count: u32, window: u64, now: u64): (Buckets, bool) {
    if count == 0 || window == 0 then (b, true)
    else
      var kept := Above(BucketOf(b, id), SaturatingSub(now, window));
      if |kept| >= count then (b[id := kept], false)
      else (b[id := kept + [now]], true)
  }

  class RateLimiter {
    var buckets: Buckets

    constructor ()
      ensures buckets == map[]
    {
      buckets := map[];
    }

    method Check(id: Id, cfg: TaskConfig, now: u64) returns (allowed: bool)
      modifies this
      ensures (buckets, allowed)
           == CheckAndRecord(old(buckets), id, cfg.rateCount, cfg.rateWindow, now)
    {
      if cfg.rateCount == 0 || cfg.rateWindow == 0 {
        return true;
      }
      var bucket := if id in buckets then buckets[id] else [];
      var cutoff := SaturatingSub(now, cfg.rateWindow);
      bucket := Above(bucket, cutoff);
      if |bucket| >= cfg.rateCount {
        buckets := buckets[id := bucket];
        return false;
      }
      bucket := bucket + [now];
      buckets := buckets[id := bucket];
      allowed := true;
    }

    method Forget(id: Id)
      modifies this
      ensures buckets == old(buckets) - {id}
    {
      buckets := buckets - {id};
    }
  }

  // ----- runs with their history of accepted triggers -----

  datatype Request = Request(id: Id, count: u32, window: u64, now: u64)

  datatype Limited = Limited(buckets: Buckets, accepted: map<Id, seq<u64>>)

  function AcceptedBy(s: Limited, id: Id): seq<u64> {
    if id in s.accepted then s.accepted[id] else []
  }

  function LimitStep(s: Limited, r: Request): Limited {
    var (b, ok) := CheckAndRecord(s.buckets, r.id, r.count, r.window, r.now);
    Limited(b, if ok then s.accepted[r.id := AcceptedBy(s, r.id) + [r.now]] else s.accepted)
  }

  function LimitRun(rs: seq<Request>): Limited {
    if rs == [] then Limited(map[], map[])
    else LimitStep(LimitRun(rs[..|rs| - 1]), rs[|rs| - 1])
  }

  ghost predicate ClockFromOne(rs: seq<Request>) {
    && (forall i :: 0 <= i < |rs| ==> rs[i].now >= 1)
    && (forall i, j :: 0 <= i < j < |rs| ==> rs[i].now <= rs[j].now)
  }

  ghost predicate FixedLimit(rs: seq<Request>, id: Id, count: u32, window: u64) {
    forall i :: 0 <= i < |rs| && rs[i].id == id ==> rs[i].count == count && rs[i].window == window
  }

  lemma AboveAppend(s: seq<u64>, x: u64, floor: int)
    ensures Above(s + [x], floor) == Above(s, floor) + (if x > floor then [x] else [])
  {
    assert (s + [x])[..|s|] == s;
  }

  lemma WithinAppend(s: seq<u64>, x: u64, low: int, high: int)
    ensures Within(s + [x], low, high)
         == Within(s, low, high) + (if low < x <= high then [x] else [])
  {
    assert (s + [x])[..|s|] == s;
  }

  /** Pruning twice keeps what the higher floor keeps. */
  lemma {:induction false} AboveTwice(s: seq<u64>, f: int, g: int)
    requires f <= g
    ensures Above(Above(s, f), g) == Above(s, g)
  {
    if s != [] {
      var front, last := s[..|s| - 1], s[|s| - 1];
      AboveTwice(front, f, g);
      if last > f {
        AboveAppend(Above(front, f), last, g);
      } else {
        assert Above(s, f) == Above(front, f);
        assert Above(s, g) == Above(front, g);
      }
    }
  }

  lemma {:induction false} AboveLength(s: seq<u64>, f: int, g: int)
    requires f <= g
    ensures |Above(s, g)| <= |Above(s, f)| <= |s|
  {
    if s != [] {
      AboveLength(s[..|s| - 1], f, g);
    }
  }

  lemma {:induction false} WithinIsAbove(s: seq<u64>, low: int, high: int)
    requires forall i :: 0 <= i < |s| ==> s[i] <= high
    ensures Within(s, low, high) == Above(s, low)
  {
    if s != [] {
      WithinIsAbove(s[..|s| - 1], low, high);
    }
  }

  ghost predicate AllPositive(s: seq<u64>) {
    forall i :: 0 <= i < |s| ==> s[i] >= 1
  }

  /** With every timestamp at least 1 the saturated cutoff prunes like the
      mathematical one. */
  lemma {:induction false} SaturationIsHarmless(s: seq<u64>, now: u64, window: u64)
    requires AllPositive(s)
    ensures Above(s, SaturatingSub(now, window)) == Above(s, now - window)
  {
    if s != [] {
      SaturationIsHarmless(s[..|s| - 1], now, window);
    }
  }

  ghost predicate AgreeAt(bucket: seq<u64>, accepted: seq<u64>, floor: int) {
    Above(bucket, floor) == Above(accepted, floor)
  }

  ghost predicate CapAt(accepted: seq<u64>, count: u32, window: u64, x: int) {
    |Within(accepted, x - window, x)| <= count
  }

  /** What a bucket knows about its task's accepted triggers, at clock `now`
      and later. */
  ghost predicate Faithful(bucket: seq<u64>, accepted: seq<u64>, count: u32, window: u64, now: int) {
    && (forall i :: 0 <= i < |accepted| ==> accepted[i] <= now)
    && AllPositive(bucket)
    && (forall floor: int :: floor >= now - window ==> AgreeAt(bucket, accepted, floor))
    && |bucket| <= count
    && (forall x: int :: CapAt(accepted, count, window, x))
  }

  lemma {:induction false} AboveStaysPositive(s: seq<u64>, f: int)
    requires AllPositive(s)
    ensures AllPositive(Above(s, f))
  {
    if s != [] {
      AboveStaysPositive(s[..|s| - 1], f);
    }
  }

  /** One more call: the bucket it prunes is exactly the accepted history inside
      the window, and it is refused exactly when that history already holds
      `count` triggers. */
  lemma CallIsExact(bucket: seq<u64>, accepted: seq<u64>, count: u32, window: u64, before: int, now: u64)
    requires window > 0 && 1 <= now && before <= now
    requires Faithful(bucket, accepted, count, window, before)
    ensures Above(bucket, SaturatingSub(now, window)) == Within(accepted, now - window, now)
    ensures |Above(bucket, SaturatingSub(now, window))| <= count
  {
    SaturationIsHarmless(bucket, now, window);
    WithinIsAbove(accepted, now - window, now);
    assert AgreeAt(bucket, accepted, now - window);
    AboveLength(bucket, now - window, now - window);
  }

  lemma RefusedCall(bucket: seq<u64>, accepted: seq<u64>, count: u32, window: u64, before: int, now: u64)
    requires window > 0 && 1 <= now && before <= now
    requires Faithful(bucket, accepted, count, window, before)
    ensures Faithful(Above(bucket, SaturatingSub(now, window)), accepted, count, window, now)
  {
    var kept := Above(bucket, SaturatingSub(now, window));
    CallIsExact(bucket, accepted, count, window, before, now);
    SaturationIsHarmless(bucket, now, window);
    AboveStaysPositive(bucket, now - window);
    forall floor: int | floor >= now - window
      ensures AgreeAt(kept, accepted, floor)
    {
      AboveTwice(bucket, now - window, floor);
      assert AgreeAt(bucket, accepted, floor);
    }
  }

  lemma AcceptedCall(bucket: seq<u64>, accepted: seq<u64>, count: u32, window: u64, now: u64)
    requires window > 0 && 1 <= now
    requires Faithful(bucket, accepted, count, window, now)
    requires |Within(accepted, now - window, now)| < count && |bucket| < count
    ensures Faithful(bucket + [now], accepted + [now], count, window, now)
  {
    forall floor: int | floor >= now - window
      ensures AgreeAt(bucket + [now], accepted + [now], floor)
    {
      AboveAppend(bucket, now, floor);
      AboveAppend(accepted, now, floor);
      assert AgreeAt(bucket, accepted, floor);
    }
    forall x: int
      ensures CapAt(accepted + [now], count, window, x)
    {
      WithinAppend(accepted, now, x - window, x);
      assert CapAt(accepted, count, window, x);
      if x >= now {
        WithinIsAbove(accepted, x - window, x);
        WithinIsAbove(accepted, now - window, now);
        AboveLength(accepted, now - window, x - window);
      }
    }
  }

  lemma {:induction false} RunIsFaithful(rs: seq<Request>, id: Id, count: u32, window: u64)
    requires count > 0 && window > 0
    requires ClockFromOne(rs) && FixedLimit(rs, id, count, window)
    ensures Faithful(BucketOf(LimitRun(rs).buckets, id), AcceptedBy(LimitRun(rs), id), count, window,
                     if rs == [] then 0 else rs[|rs| - 1].now)
  {
    if rs == [] {
      assert forall x: int :: CapAt([], count, window, x);
    } else {
      var front, r := rs[..|rs| - 1], rs[|rs| - 1];
      RunIsFaithful(front, id, count, window);
      var before := if front == [] then 0 else front[|front| - 1].now;
      var s := LimitRun(front);
      if r.id == id {
        var kept := Above(BucketOf(s.buckets, id), SaturatingSub(r.now, window));
        CallIsExact(BucketOf(s.buckets, id), AcceptedBy(s, id), count, window, before, r.now);
        RefusedCall(BucketOf(s.buckets, id), AcceptedBy(s, id), count, window, before, r.now);
        if |kept| < count {
          AcceptedCall(kept, AcceptedBy(s, id), count, window, r.now);
        }
      } else {
        assert BucketOf(LimitRun(rs).buckets, id) == BucketOf(s.buckets, id);
        assert AcceptedBy(LimitRun(rs), id) == AcceptedBy(s, id);
      }
    }
  }

  /** The sliding-window guarantee: no window of the configured length, wherever
      it ends, holds more than `count` accepted triggers. */
  lemma WindowNeverExceeded(rs: seq<Request>, id: Id, count: u32, window: u64, x: int)
    requires count > 0 && window > 0
    requires ClockFromOne(rs) && FixedLimit(rs, id, count, window)
    ensures |Within(AcceptedBy(LimitRun(rs), id), x - window, x)| <= count
  {
    RunIsFaithful(rs, id, count, window);
    assert CapAt(AcceptedBy(LimitRun(rs), id), count, window, x);
  }

  /** The limiter is not conservative: after any run, a further call is refused
      if and only if the window ending now already holds `count` triggers. */
  lemma DeniedOnlyWhenFull(rs: seq<Request>, id: Id, count: u32, window: u64, now: u64)
    requires count > 0 && window > 0 && now >= 1
    requires ClockFromOne(rs) && FixedLimit(rs, id, count, window)
    requires rs != [] ==> rs[|rs| - 1].now <= now
    ensures !CheckAndRecord(LimitRun(rs).buckets, id, count, window, now).1
        <==> |Within(AcceptedBy(LimitRun(rs), id), now - window, now)| == count
  {
    RunIsFaithful(rs, id, count, window);
    CallIsExact(BucketOf(LimitRun(rs).buckets, id), AcceptedBy(LimitRun(rs), id), count, window,
                if rs == [] then 0 else rs[|rs| - 1].now, now);
  }

  // ----- clocks that start at 0 -----

  // At clock 0 the cutoff saturates to 0 and prunes every timestamp 0, so the
  // triggers of second 0 are all accepted and never counted.

  ghost predicate ClockFromZero(rs: seq<Request>) {
    forall i, j :: 0 <= i < j < |rs| ==> rs[i].now <= rs[j].now
  }

  /** How many calls for an id came at a clock in [low, high). */
  function Calls(rs: seq<Request>, id: Id, low: int, high: int): nat {
    if rs == [] then 0
    else
      var r := rs[|rs| - 1];
      Calls(rs[..|rs| - 1], id, low, high) + (if r.id == id && low <= r.now < high then 1 else 0)
  }

  function LastClock(rs: seq<Request>): u64 {
    if rs == [] then 0 else rs[|rs| - 1].now
  }

  function Least(a: nat, b: nat): nat {
    if a <= b then a else b
  }

  lemma {:induction false} WithinSplit(s: seq<u64>, low: int, mid: int, high: int)
    requires low <= mid <= high
    ensures |Within(s, low, high)| == |Within(s, low, mid)| + |Within(s, mid, high)|
  {
    if s != [] {
      WithinSplit(s[..|s| - 1], low, mid, high);
    }
  }

  lemma {:induction false} WithinOfAbove(s: seq<u64>, low: int, high: int)
    requires low >= 0
    ensures Within(Above(s, 0), low, high) == Within(s, low, high)
  {
    if s != [] {
      var front, last := s[..|s| - 1], s[|s| - 1];
      WithinOfAbove(front, low, high);
      if last > 0 {
        WithinAppend(Above(front, 0), last, low, high);
      } else {
        assert Above(s, 0) == Above(front, 0) && Within(s, low, high) == Within(front, low, high);
      }
    }
  }

  lemma {:induction false} NothingBelow(s: seq<u64>, low: int, high: int)
    requires high < 0
    ensures Within(s, low, high) == []
  {
    if s != [] {
      NothingBelow(s[..|s| - 1], low, high);
    }
  }

  /** Without the timestamps 0 the bucket is faithful; those of second 0 are all
      accepted, and of the rest of the first window as many as the limit. */
  ghost predicate FaithfulFromZero(bucket: seq<u64>, accepted: seq<u64>, rs: seq<Request>, id: Id, count: u32,
                                   window: u64) {
    && (forall i :: 0 <= i < |accepted| ==> accepted[i] <= LastClock(rs))
    && Faithful(Above(bucket, 0), Above(accepted, 0), count, window, LastClock(rs))
    && CountedFromZero(accepted, rs, id, count, window)
  }

  ghost predicate CountedFromZero(accepted: seq<u64>, rs: seq<Request>, id: Id, count: u32, window: u64) {
    && |Within(accepted, -1, 0)| == Calls(rs, id, 0, 1)
    && |Within(accepted, 0, window - 1)| == Least(count, Calls(rs, id, 1, window))
  }

  lemma {:induction false} NoneAboveZero(s: seq<u64>)
    requires forall i :: 0 <= i < |s| ==> s[i] <= 0
    ensures Above(s, 0) == []
  {
    if s != [] {
      NoneAboveZero(s[..|s| - 1]);
    }
  }

  /** A later call sees the bucket as if the timestamps 0 were not there. */
  lemma CallIgnoresZeros(bucket: seq<u64>, now: u64, window: u64)
    ensures Above(bucket, SaturatingSub(now, window)) == Above(Above(bucket, 0), SaturatingSub(now, window))
    ensures Above(Above(bucket, SaturatingSub(now, window)), 0) == Above(bucket, SaturatingSub(now, window))
  {
    var cutoff := SaturatingSub(now, window);
    AboveTwice(bucket, 0, cutoff);
    AboveFloor(bucket, cutoff);
  }

  lemma {:induction false} AboveFloor(s: seq<u64>, floor: u64)
    ensures Above(Above(s, floor), 0) == Above(s, floor)
  {
    if s != [] {
      var front, last := s[..|s| - 1], s[|s| - 1];
      AboveFloor(front, floor);
      if last > floor {
        AboveAppend(Above(front, floor), last, 0);
      } else {
        assert Above(s, floor) == Above(front, floor);
      }
    }
  }

  /** In the first window the bucket holds every accepted timestamp but 0. */
  lemma FirstWindowIsCounted(bucket: seq<u64>, accepted: seq<u64>, rs: seq<Request>, id: Id, count: u32,
                             window: u64, now: u64)
    requires FaithfulFromZero(bucket, accepted, rs, id, count, window)
    requires window > 0 && LastClock(rs) <= now < window
    ensures |Above(bucket, SaturatingSub(now, window))| == |Within(accepted, 0, window - 1)|
  {
    var positive := Above(accepted, 0);
    assert AgreeAt(Above(bucket, 0), positive, 0);
    AboveTwice(bucket, 0, 0);
    AboveTwice(accepted, 0, 0);
    WithinIsAbove(accepted, 0, window - 1);
  }

  lemma CallsAppend(front: seq<Request>, r: Request, id: Id, low: int, high: int)
    ensures Calls(front + [r], id, low, high)
         == Calls(front, id, low, high) + (if r.id == id && low <= r.now < high then 1 else 0)
  {
    assert (front + [r])[..|front|] == front;
  }

  lemma FaithfulLater(bucket: seq<u64>, accepted: seq<u64>, count: u32, window: u64, before: int, now: int)
    requires Faithful(bucket, accepted, count, window, before) && before <= now
    ensures Faithful(bucket, accepted, count, window, now)
  {
  }

  lemma OtherCall(bucket: seq<u64>, accepted: seq<u64>, front: seq<Request>, r: Request, id: Id, count: u32,
                  window: u64)
    requires FaithfulFromZero(bucket, accepted, front, id, count, window)
    requires r.id != id && LastClock(front) <= r.now
    ensures FaithfulFromZero(bucket, accepted, front + [r], id, count, window)
  {
    FaithfulLater(Above(bucket, 0), Above(accepted, 0), count, window, LastClock(front), r.now);
    CallsAppend(front, r, id, 0, 1);
    CallsAppend(front, r, id, 1, window);
  }

  /** At clock 0 the bucket is emptied, and the call accepted. */
  lemma ZeroCallPrunes(bucket: seq<u64>, accepted: seq<u64>, count: u32, window: u64)
    requires window > 0 && Faithful(Above(bucket, 0), Above(accepted, 0), count, window, 0)
    requires forall i :: 0 <= i < |accepted| ==> accepted[i] <= 0
    ensures Above(bucket, 0) == [] && Above(accepted, 0) == []
  {
    NoneAboveZero(accepted);
    assert AgreeAt(Above(bucket, 0), Above(accepted, 0), 0);
    AboveTwice(bucket, 0, 0);
  }

  lemma AppendCounts(accepted: seq<u64>, front: seq<Request>, r: Request, count: u32, window: u64)
    requires window > 0 && CountedFromZero(accepted, front, r.id, count, window)
    requires 1 <= r.now < window ==> |Within(accepted, 0, window - 1)| < count
    ensures CountedFromZero(accepted + [r.now], front + [r], r.id, count, window)
  {
    WithinAppend(accepted, r.now, -1, 0);
    WithinAppend(accepted, r.now, 0, window - 1);
    CallsAppend(front, r, r.id, 0, 1);
    CallsAppend(front, r, r.id, 1, window);
  }

  lemma RefusedCounts(accepted: seq<u64>, front: seq<Request>, r: Request, count: u32, window: u64)
    requires window > 0 && r.now >= 1 && CountedFromZero(accepted, front, r.id, count, window)
    requires r.now < window ==> |Within(accepted, 0, window - 1)| >= count
    ensures CountedFromZero(accepted, front + [r], r.id, count, window)
  {
    CallsAppend(front, r, r.id, 0, 1);
    CallsAppend(front, r, r.id, 1, window);
  }

  lemma ZeroCall(bucket: seq<u64>, accepted: seq<u64>, front: seq<Request>, r: Request, count: u32, window: u64)
    requires count > 0 && window > 0 && FaithfulFromZero(bucket, accepted, front, r.id, count, window)
    requires LastClock(front) <= r.now == 0
    ensures Above(bucket, SaturatingSub(r.now, window)) == []
    ensures FaithfulFromZero([r.now], accepted + [r.now], front + [r], r.id, count, window)
  {
    ZeroCallPrunes(bucket, accepted, count, window);
    ZeroIsPruned(accepted, r.now);
    AppendCounts(accepted, front, r, count, window);
    assert SaturatingSub(r.now, window) == 0;
    assert LastClock(front + [r]) == 0;
  }

  lemma ZeroIsPruned(accepted: seq<u64>, zero: u64)
    requires zero == 0 && Above(accepted, 0) == []
    ensures Above(accepted + [zero], 0) == [] && Above([zero], 0) == []
  {
    AboveAppend(accepted, zero, 0);
    AboveAppend([], zero, 0);
    assert [] + [zero] == [zero];
  }

  /** A later call, on the positive timestamps. */
  lemma LateCallIsFaithful(bucket: seq<u64>, accepted: seq<u64>, count: u32, window: u64, before: u64, now: u64)
    requires count > 0 && window > 0 && 1 <= now && before <= now
    requires Faithful(Above(bucket, 0), Above(accepted, 0), count, window, before)
    ensures var kept := Above(bucket, SaturatingSub(now, window));
            && Faithful(Above(kept, 0), Above(accepted, 0), count, window, now)
            && (|kept| < count ==> Faithful(Above(kept + [now], 0), Above(accepted + [now], 0), count, window, now))
  {
    var kept := Above(bucket, SaturatingSub(now, window));
    var b0, a0 := Above(bucket, 0), Above(accepted, 0);
    CallIgnoresZeros(bucket, now, window);
    RefusedCall(b0, a0, count, window, before, now);
    if |kept| < count {
      CallIsExact(b0, a0, count, window, before, now);
      AcceptedCall(kept, a0, count, window, now);
      AboveAppend(kept, now, 0);
      AboveAppend(accepted, now, 0);
    }
  }

  lemma LastClockAppend(front: seq<Request>, r: Request)
    ensures LastClock(front + [r]) == r.now
  {
  }

  lemma AcceptedLate(kept: seq<u64>, accepted: seq<u64>, front: seq<Request>, r: Request, count: u32, window: u64)
    requires window > 0 && CountedFromZero(accepted, front, r.id, count, window)
    requires forall i :: 0 <= i < |accepted| ==> accepted[i] <= r.now
    requires Faithful(Above(kept + [r.now], 0), Above(accepted + [r.now], 0), count, window, r.now)
    requires 1 <= r.now < window ==> |Within(accepted, 0, window - 1)| < count
    ensures FaithfulFromZero(kept + [r.now], accepted + [r.now], front + [r], r.id, count, window)
  {
    LastClockAppend(front, r);
    AppendCounts(accepted, front, r, count, window);
  }

  lemma RefusedLate(kept: seq<u64>, accepted: seq<u64>, front: seq<Request>, r: Request, count: u32, window: u64)
    requires window > 0 && r.now >= 1 && CountedFromZero(accepted, front, r.id, count, window)
    requires forall i :: 0 <= i < |accepted| ==> accepted[i] <= r.now
    requires Faithful(Above(kept, 0), Above(accepted, 0), count, window, r.now)
    requires r.now < window ==> |Within(accepted, 0, window - 1)| >= count
    ensures FaithfulFromZero(kept, accepted, front + [r], r.id, count, window)
  {
    LastClockAppend(front, r);
    RefusedCounts(accepted, front, r, count, window);
  }

  lemma LateCall(bucket: seq<u64>, accepted: seq<u64>, front: seq<Request>, r: Request, count: u32, window: u64)
    requires count > 0 && window > 0 && FaithfulFromZero(bucket, accepted, front, r.id, count, window)
    requires LastClock(front) <= r.now && r.now >= 1
    ensures var kept := Above(bucket, SaturatingSub(r.now, window));
            && (|kept| >= count ==> FaithfulFromZero(kept, accepted, front + [r], r.id, count, window))
            && (|kept| < count ==>
                  FaithfulFromZero(kept + [r.now], accepted + [r.now], front + [r], r.id, count, window))
  {
    var kept := Above(bucket, SaturatingSub(r.now, window));
    LateCallIsFaithful(bucket, accepted, count, window, LastClock(front), r.now);
    if r.now < window {
      FirstWindowIsCounted(bucket, accepted, front, r.id, count, window, r.now);
    }
    if |kept| < count {
      AcceptedLate(kept, accepted, front, r, count, window);
    } else {
      RefusedLate(kept, accepted, front, r, count, window);
    }
  }

  /** One call more. */
  lemma CallFromZero(s: Limited, front: seq<Request>, r: Request, id: Id, count: u32, window: u64)
    requires count > 0 && window > 0 && LastClock(front) <= r.now
    requires r.id == id ==> r.count == count && r.window == window
    requires FaithfulFromZero(BucketOf(s.buckets, id), AcceptedBy(s, id), front, id, count, window)
    ensures var s' := LimitStep(s, r);
            FaithfulFromZero(BucketOf(s'.buckets, id), AcceptedBy(s', id), front + [r], id, count, window)
  {
    var bucket, accepted := BucketOf(s.buckets, id), AcceptedBy(s, id);
    if r.id != id {
      OtherCall(bucket, accepted, front, r, id, count, window);
    } else if r.now == 0 {
      ZeroCall(bucket, accepted, front, r, count, window);
    } else {
      LateCall(bucket, accepted, front, r, count, window);
    }
  }

  lemma {:induction false} RunIsFaithfulFromZero(rs: seq<Request>, id: Id, count: u32, window: u64)
    requires count > 0 && window > 0 && ClockFromZero(rs) && FixedLimit(rs, id, count, window)
    ensures FaithfulFromZero(BucketOf(LimitRun(rs).buckets, id), AcceptedBy(LimitRun(rs), id), rs, id, count, window)
  {
    if rs == [] {
      assert forall x: int :: CapAt([], count, window, x);
    } else {
      var front, r := rs[..|rs| - 1], rs[|rs| - 1];
      RunIsFaithfulFromZero(front, id, count, window);
      assert rs == front + [r];
      CallFromZero(LimitRun(front), front, r, id, count, window);
    }
  }

  ghost predicate WindowsKept(rs: seq<Request>, id: Id, count: u32, window: u64) {
    forall x: int :: CapAt(AcceptedBy(LimitRun(rs), id), count, window, x)
  }

  lemma OneWindow(accepted: seq<u64>, count: u32, window: u64, x: int)
    requires window > 0 && CapAt(Above(accepted, 0), count, window, x)
    ensures x >= window ==> CapAt(accepted, count, window, x)
    ensures x < 0 ==> CapAt(accepted, count, window, x)
    ensures 0 <= x < window ==>
              |Within(accepted, x - window, x)| == |Within(accepted, -1, 0)| + |Within(accepted, 0, x)|
    ensures 0 <= x < window ==> |Within(accepted, 0, x)| <= |Within(accepted, 0, window - 1)|
  {
    if x >= window {
      WithinOfAbove(accepted, x - window, x);
    } else if x < 0 {
      NothingBelow(accepted, x - window, x);
    } else {
      WithinSplit(accepted, x - window, -1, x);
      NothingBelow(accepted, x - window, -1);
      WithinSplit(accepted, -1, 0, x);
      WithinSplit(accepted, 0, x, window - 1);
    }
  }

  /** Past second 0 every window is kept. */
  lemma LateWindowsKept(rs: seq<Request>, id: Id, count: u32, window: u64, x: int)
    requires count > 0 && window > 0 && ClockFromZero(rs) && FixedLimit(rs, id, count, window)
    ensures CapAt(Above(AcceptedBy(LimitRun(rs), id), 0), count, window, x)
  {
    RunIsFaithfulFromZero(rs, id, count, window);
  }

  /** All calls of second 0 are accepted, and so are those after it in the first
      window as far as the limit goes. */
  lemma FirstWindowAccepted(rs: seq<Request>, id: Id, count: u32, window: u64)
    requires count > 0 && window > 0 && ClockFromZero(rs) && FixedLimit(rs, id, count, window)
    ensures var accepted := AcceptedBy(LimitRun(rs), id);
            && |Within(accepted, -1, 0)| == Calls(rs, id, 0, 1)
            && |Within(accepted, 0, window - 1)| == Least(count, Calls(rs, id, 1, window))
  {
    RunIsFaithfulFromZero(rs, id, count, window);
  }

  lemma AllWindowsKept(rs: seq<Request>, id: Id, count: u32, window: u64, x: int)
    requires count > 0 && window > 0 && ClockFromZero(rs) && FixedLimit(rs, id, count, window)
    requires Calls(rs, id, 0, 1) == 0 || Calls(rs, id, 0, window) <= count
    ensures CapAt(AcceptedBy(LimitRun(rs), id), count, window, x)
  {
    LateWindowsKept(rs, id, count, window, x);
    FirstWindowAccepted(rs, id, count, window);
    CallsSplit(rs, id, window);
    OneWindow(AcceptedBy(LimitRun(rs), id), count, window, x);
  }

  /** With clocks that may start at 0, the limit holds of every window if and
      only if no call came at clock 0, or all calls of the first window together
      stay within it. */
  lemma WindowsKeptIff(rs: seq<Request>, id: Id, count: u32, window: u64)
    requires count > 0 && window > 0 && ClockFromZero(rs) && FixedLimit(rs, id, count, window)
    ensures WindowsKept(rs, id, count, window) <==> Calls(rs, id, 0, 1) == 0 || Calls(rs, id, 0, window) <= count
  {
    if Calls(rs, id, 0, 1) == 0 || Calls(rs, id, 0, window) <= count {
      forall x: int
        ensures CapAt(AcceptedBy(LimitRun(rs), id), count, window, x)
      {
        AllWindowsKept(rs, id, count, window, x);
      }
    } else {
      LateWindowsKept(rs, id, count, window, window - 1);
      FirstWindowAccepted(rs, id, count, window);
      CallsSplit(rs, id, window);
      OneWindow(AcceptedBy(LimitRun(rs), id), count, window, window - 1);
      assert !CapAt(AcceptedBy(LimitRun(rs), id), count, window, window - 1);
    }
  }

  lemma {:induction false} CallsSplit(rs: seq<Request>, id: Id, window: u64)
    requires window > 0
    ensures Calls(rs, id, 0, window) == Calls(rs, id, 0, 1) + Calls(rs, id, 1, window)
  {
    if rs != [] {
      CallsSplit(rs[..|rs| - 1], id, window);
    }
  }
}
