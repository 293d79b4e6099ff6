/** The retry policy and the saturating exponential backoff. */
module Retry {
  import opened Types

  // ----- backoff -----

  function Pow2(n: nat): nat {
    if n == 0 then 1 else 2 * Pow2(n - 1)
  }

  function Min(a: int, b: int): int {
    if a <= b then a else b
  }

  lemma {:induction false} Pow2Monotone(a: nat, b: nat)
    requires a <= b
    ensures 1 <= Pow2(a) <= Pow2(b)
  {
    if a < b {
      Pow2Monotone(a, b - 1);
    } else if 0 < a {
      Pow2Monotone(a - 1, b - 1);
    }
  }

  lemma Pow2Values()
    ensures Pow2(6) == 64
    ensures Pow2(63) == 0x8000_0000_0000_0000
  {
    assert Pow2(6) == 64;
    assert Pow2(12) == 4096;
    assert Pow2(18) == 0x4_0000;
    assert Pow2(24) == 0x100_0000;
    assert Pow2(30) == 0x4000_0000;
    assert Pow2(36) == 0x10_0000_0000;
    assert Pow2(42) == 0x400_0000_0000;
    assert Pow2(48) == 0x1_0000_0000_0000;
    assert Pow2(54) == 0x40_0000_0000_0000;
    assert Pow2(60) == 0x1000_0000_0000_0000;
  }

  /** `1u64 << attempts`, with the ceiling the code puts on the shift. */
  function ShiftFactor(attempts: u32): u64 {
    if attempts >= 63 then U64_MAX
    else
      Pow2Values();
      Pow2Monotone(attempts, 63);
      Pow2(attempts)
  }

  /** `backoff_delay`: the delay in seconds before the next attempt. */
  function BackoffDelay(cfg: TaskConfig, attempts: u32): u64 {
    if !cfg.retryBackoff then cfg.retryDelay
    else
      var cap := SaturatingMul(cfg.retryDelay, 60);
      var raw := SaturatingMul(cfg.retryDelay, ShiftFactor(attempts));
      if raw <= cap then raw else cap
  }

  function NextRetryTs(cfg: TaskConfig, attempts: u32, now: u64): u64 {
    SaturatingAdd(now, BackoffDelay(cfg, attempts))
  }

  lemma ScaleMonotone(d: nat, m: nat, n: nat)
    requires m <= n
    ensures d * m <= d * n
  {
  }

  /** The saturating computation is the mathematical min(d*2^a, 60*d, u64 max),
      also where the shift hits its ceiling and where the products saturate. */
  lemma BackoffIsExact(cfg: TaskConfig, attempts: u32)
    requires cfg.retryBackoff
    ensures BackoffDelay(cfg, attempts)
         == Min(Min(cfg.retryDelay * Pow2(attempts), cfg.retryDelay * 60), U64_MAX)
  {
    var d := cfg.retryDelay;
    Pow2Values();
    if attempts >= 63 {
      Pow2Monotone(63, attempts);
      ScaleMonotone(d, 60, Pow2(attempts));
      ScaleMonotone(d, 60, U64_MAX);
    }
  }

  lemma BackoffIsMonotone(cfg: TaskConfig, a: u32, b: u32)
    requires a <= b
    ensures BackoffDelay(cfg, a) <= BackoffDelay(cfg, b)
  {
    if cfg.retryBackoff {
      BackoffIsExact(cfg, a);
      BackoffIsExact(cfg, b);
      Pow2Monotone(a, b);
      ScaleMonotone(cfg.retryDelay, Pow2(a), Pow2(b));
    }
  }

  lemma BackoffIsBounded(cfg: TaskConfig, attempts: u32)
    ensures cfg.retryDelay <= BackoffDelay(cfg, attempts)
    ensures BackoffDelay(cfg, attempts) <= 60 * cfg.retryDelay
    ensures attempts >= 6 && cfg.retryBackoff ==>
              BackoffDelay(cfg, attempts) == SaturatingMul(cfg.retryDelay, 60)
  {
    if cfg.retryBackoff {
      BackoffIsExact(cfg, attempts);
      Pow2Monotone(0, attempts);
      ScaleMonotone(cfg.retryDelay, 1, Pow2(attempts));
      if attempts >= 6 {
        Pow2Values();
        Pow2Monotone(6, attempts);
        ScaleMonotone(cfg.retryDelay, 60, Pow2(attempts));
      }
    }
  }

  /** A retry is never due before now, and it is parked at the sentinel
      `u64::MAX` only if the true sum leaves no other value. */
  lemma RetryIsNeverInThePast(cfg: TaskConfig, attempts: u32, now: u64)
    ensures NextRetryTs(cfg, attempts, now) >= now
    ensures NextRetryTs(cfg, attempts, now) == U64_MAX ==> now + 60 * cfg.retryDelay >= U64_MAX
  {
    BackoffIsBounded(cfg, attempts);
  }

  // ----- the policy -----

  function UpperChar(c: char): char {
    if 'a' <= c <= 'z' then ((c as int) - 32) as char else c
  }

  function ToAsciiUpper(s: string): string {
    seq(|s|, i requires 0 <= i < |s| => UpperChar(s[i]))
  }

  predicate IsSafeMethod(upper: string) {
    upper == "GET" || upper == "HEAD" || upper == "OPTIONS"
  }

  predicate IsHttpMethodRetryable(cfg: TaskConfig) {
    IsSafeMethod(ToAsciiUpper(cfg.httpMethod.GetOr(""))) || cfg.idempotent
  }

  /** `should_retry` for a policy allowing `maxAttempts` attempts. */
  predicate ShouldRetry(cfg: TaskConfig, attempts: u32, maxAttempts: u32, result: TaskResult) {
    if attempts >= maxAttempts then false
    else
      match cfg.taskType
      case Http =>
        (match result.statusCode
         case Some(code) => 500 <= code < 600 && IsHttpMethodRetryable(cfg)
         case None => true)
      case Shell =>
        (match result.exitCode
         case Some(code) => code != 0
         case None => true)
  }

  /** The word, letter by letter, in capitals or not. */
  predicate Spells(s: string, word: string) {
    |s| == |word| && forall i :: 0 <= i < |word| ==> s[i] == word[i] || s[i] as int == word[i] as int + 32
  }

  /** The method a task names is one of the three that change nothing. */
  predicate NamesSafeMethod(cfg: TaskConfig) {
    && cfg.httpMethod.Some?
    && (|| Spells(cfg.httpMethod.value, "GET")
        || Spells(cfg.httpMethod.value, "HEAD")
        || Spells(cfg.httpMethod.value, "OPTIONS"))
  }

  lemma UpperSpells(s: string, word: string)
    requires forall i :: 0 <= i < |word| ==> 'A' <= word[i] <= 'Z'
    ensures ToAsciiUpper(s) == word <==> Spells(s, word)
  {
    if ToAsciiUpper(s) == word {
      assert forall i :: 0 <= i < |word| ==> ToAsciiUpper(s)[i] == word[i];
    }
  }

  /** A request may be repeated if and only if its method, whatever its case, is
      one of the three, or the task is marked idempotent. */
  lemma RepeatableIff(cfg: TaskConfig)
    ensures IsHttpMethodRetryable(cfg) <==> cfg.idempotent || NamesSafeMethod(cfg)
  {
    var m := cfg.httpMethod.GetOr("");
    UpperSpells(m, "GET");
    UpperSpells(m, "HEAD");
    UpperSpells(m, "OPTIONS");
  }

  function EffectiveMax(cfg: TaskConfig): u32 {
    if cfg.acksOnFailure then cfg.retryMax else U32_MAX
  }

  /** The completion path's own success test. */
  predicate IsSuccess(cfg: TaskConfig, result: TaskResult) {
    match cfg.taskType
    case Http => result.statusCode.None? || 200 <= result.statusCode.value < 300
    case Shell => result.exitCode.None? || result.exitCode.value == 0
  }

  /** A request with another method than the three, not marked idempotent. */
  predicate MustNotRepeat(cfg: TaskConfig) {
    cfg.taskType == Http && !cfg.idempotent && !NamesSafeMethod(cfg)
  }

  /** Once the server answered, a request that must not be repeated is not:
      with a status code the policy declines at every attempt count. */
  lemma AnsweredUnsafeRequestIsFinal(cfg: TaskConfig, attempts: u32, maxAttempts: u32, result: TaskResult)
    requires MustNotRepeat(cfg) && result.statusCode.Some?
    ensures !ShouldRetry(cfg, attempts, maxAttempts, result)
  {
    RepeatableIff(cfg);
  }

  /** The policy in full: with attempts left, an answer is worth another try
      exactly if its code is a server error and the request may be repeated, an
      exit exactly if its code is not zero, and no code always is. */
  lemma WorthRetryingIff(cfg: TaskConfig, attempts: u32, maxAttempts: u32, result: TaskResult)
    ensures ShouldRetry(cfg, attempts, maxAttempts, result)
       <==> attempts < maxAttempts
            && match cfg.taskType
               case Http => result.statusCode.Some? ==>
                              500 <= result.statusCode.value <= 599 && (cfg.idempotent || NamesSafeMethod(cfg))
               case Shell => result.exitCode != Some(0)
  {
    RepeatableIff(cfg);
  }
}
