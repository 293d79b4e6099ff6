/** The daemon's data model: tasks, results, events, chain and chord records.

    A task is split into the configuration its creator chose (`TaskConfig`,
    which the engine never rewrites) and the fields the engine updates. */
module Types {

  datatype Option<+T> = None | Some(value: T) {
    function GetOr(default: T): T {
      match this
      case Some(v) => v
      case None => default
    }
  }

  const U32_MAX: int := 0xFFFF_FFFF
  const U64_MAX: int := 0xFFFF_FFFF_FFFF_FFFF
  const TWO_64: int := 0x1_0000_0000_0000_0000
  const I64_MAX: int := 0x7FFF_FFFF_FFFF_FFFF

  type u32 = x: int | 0 <= x <= 0xFFFF_FFFF
  type u64 = x: int | 0 <= x <= 0xFFFF_FFFF_FFFF_FFFF
  type i64 = x: int | -0x8000_0000_0000_0000 <= x <= 0x7FFF_FFFF_FFFF_FFFF

  // Saturating, wrapping and reinterpreting arithmetic, as the program's
  // fixed-width operators behave in a release build.

  function SaturatingAdd(a: u64, b: u64): u64 {
    if a + b > U64_MAX then U64_MAX else a + b
  }

  function SaturatingSub(a: u64, b: u64): u64 {
    if a < b then 0 else a - b
  }

  function SaturatingMul(a: u64, b: u64): u64 {
    if a * b > U64_MAX then U64_MAX else a * b
  }

  function WrappingAdd(a: u64, b: u64): u64 {
    if a + b > U64_MAX then a + b - TWO_64 else a + b
  }

  function SaturatingIncrement(a: u32): u32 {
    if a == U32_MAX then U32_MAX else a + 1
  }

  function WrappingIncrement(a: u32): u32 {
    if a == U32_MAX then 0 else a + 1
  }

  function AsI64(a: u64): i64 {
    if a > I64_MAX then a - TWO_64 else a
  }

  function AsU64(a: i64): u64 {
    if a < 0 then a + TWO_64 else a
  }

  type Id = string

  datatype TaskType = Http | Shell

  datatype TaskState =
    | Pending | Running | Success | Failed | Interrupted | Cancelled | Expired
  {
    predicate IsTerminal() {
      Success? || Failed? || Cancelled? || Expired?
    }
  }

  datatype TaskResult = TaskResult(
    body: Option<string>,
    stdout: Option<string>,
    stderr: Option<string>,
    statusCode: Option<int>,
    exitCode: Option<int>)

  const DEFAULT_RESULT: TaskResult := TaskResult(None, None, None, None, None)

  /** One header task's contribution to a chord callback's metadata. */
  datatype HeaderResult = HeaderResult(id: Id, result: Option<TaskResult>)

  /** What the creator of a task chose. `httpMethod` is the "method" entry of an
      HTTP payload; `chainId` is the chain marker found in the metadata and
      `headerResults` the array a chord callback's metadata carries. */
  datatype TaskConfig = TaskConfig(
    taskType: TaskType,
    httpMethod: Option<string>,
    cron: Option<string>,
    orCron: Option<seq<string>>,
    skipDates: seq<i64>,
    workdaysOnly: bool,
    timezone: Option<string>,
    retryMax: u32,
    retryDelay: u64,
    retryBackoff: bool,
    timeout: u64,
    priority: int,
    allowOverlap: bool,
    maxInstances: u32,
    coalesce: bool,
    maxExecutions: u32,
    startDate: Option<i64>,
    endDate: Option<i64>,
    interval: Option<u64>,
    runAt: Option<i64>,
    jitter: u64,
    expires: u64,
    ignoreResult: bool,
    misfireGrace: u64,
    rateCount: u32,
    rateWindow: u64,
    acksOnFailure: bool,
    idempotent: bool,
    replaceExisting: bool,
    chainId: Option<Id>,
    chordId: Option<Id>,
    headerResults: seq<HeaderResult>)

  datatype ErrorText =
    | HttpStatus(code: int)
    | ShellExit(code: int)
    | Dispatch(message: string)
    | NotRetryable(cause: ErrorText)

  datatype Task = Task(
    id: Id,
    cfg: TaskConfig,
    createdAt: u64,
    state: TaskState,
    attempts: u32,
    nextFire: Option<u64>,
    startedAt: Option<u64>,
    finishedAt: Option<u64>,
    lastError: Option<ErrorText>,
    executionCount: u32,
    paused: bool,
    cancelRequested: bool,
    workerPid: Option<u32>,
    workerStarttime: Option<u64>)

  /** A task as its constructor leaves it; the initial fire time is the
      builder's choice. */
  function NewTask(id: Id, cfg: TaskConfig, nextFire: Option<u64>, now: u64): Task {
    Task(id, cfg, now, Pending, 0, nextFire, None, None, None, 0, false, false, None, None)
  }

  datatype EventType =
    | Started | Succeeded | FailedEvent | Missed | CancelledEvent | ExpiredEvent
    | MaxInstancesReached | RateLimited | InterruptedEvent | HungDetected | LeaseHeld

  datatype Event = Event(taskId: Id, kind: EventType, ts: u64)

  /** Both record kinds keep their state as a lower-case string; these are the
      values they take. */
  datatype RecordState = RecPending | RecRunning | RecSuccess | RecFailed | RecPartialFailed

  datatype ChainRecord = ChainRecord(
    tasks: seq<TaskConfig>,
    currentStep: nat,
    state: RecordState)

  datatype ChordRecord = ChordRecord(
    headerIds: seq<Id>,
    callback: TaskConfig,
    callbackTaskId: Option<Id>,
    state: RecordState)
}
