/**
 The task document, and the three places where the program computes how long a
 running document's lease lasts: the worker's `task_switch_timeout`, the expiry
 tracker's copy of it, and the stale-claim filter that MongoDB evaluates.
 */
module Documents {
  import opened Prelude

  datatype TaskId = TaskId(name: string)
  datatype ObjectId = ObjectId(hex: string)
  datatype WorkerId = WorkerId(name: string)
  datatype ClaimToken = ClaimToken(uuid: string)

  /** Stored user payloads; only equality of payloads matters here. */
  datatype Bson = Null | Int64(number: int) | Text(text: string) | Array(items: seq<Bson>)

  datatype Status = Pending | Running | Succeeded | Failed | Unrecognised(text: string)

  /** A field is an `Option` when some branch of the program handles its absence. */
  datatype WorkerState = WorkerState(
    workerId: WorkerId,
    claimToken: Option<ClaimToken>,
    startedAt: int,
    heartbeatAt: Option<int>,
    switchTimeoutMs: Option<int>,
    finishedAt: Option<int>)

  datatype Doc = Doc(
    oid: ObjectId,
    taskId: TaskId,
    status: Option<Status>,
    input: Option<Bson>,
    output: Option<Bson>,
    error: Option<string>,
    switchTimeoutMs: Option<int>,
    workerState: Option<WorkerState>,
    createdAt: int,
    updatedAt: int)

  type Docs = map<TaskId, Doc>

  function Heartbeat(d: Doc): Option<int> {
    if d.workerState.Some? then d.workerState.value.heartbeatAt else None
  }

  /** The stored timeout that takes precedence: the task's own, else the claimant's. */
  function StoredTimeout(d: Doc): Option<int> {
    if d.switchTimeoutMs.Some? then d.switchTimeoutMs
    else if d.workerState.Some? then d.workerState.value.switchTimeoutMs
    else None
  }

  /** `task_switch_timeout`, in the worker and (the same text) in the tracker. */
  function TaskSwitchTimeout(d: Doc, fallback: nat): nat {
    match StoredTimeout(d)
    case Some(ms) => if ms >= 0 then ms else fallback
    case None => fallback
  }

  /** A `Duration` of whole milliseconds, in nanoseconds. */
  function Nanos(ms: int): int {
    ms * 1_000_000
  }

  /**
   What `task_switch_timeout` hands to the heartbeat loop: a `Duration`, so the
   fallback may be finer than a millisecond.
   */
  function HandlerTimeoutNs(d: Doc, fallbackNs: nat): nat {
    match StoredTimeout(d)
    case Some(ms) => if ms >= 0 then Nanos(ms) else fallbackNs
    case None => fallbackNs
  }

  /** `heartbeat_interval`, in nanoseconds */
  function HeartbeatInterval(timeoutNs: nat): nat {
    timeoutNs / 3
  }

  /** The nested `$ifNull` of the stale-claim filter. */
  function FilterTimeout(d: Doc, fallback: nat): int {
    match d.switchTimeoutMs
    case Some(ms) => ms
    case None =>
      match d.workerState
      case Some(WorkerState(_, _, _, _, Some(ms), _)) => ms
      case _ => TruncateToI64(fallback)
  }

  /** `stale_claim_filter` without its exclusion list. */
  predicate StaleAt(d: Doc, now: int, fallback: nat) {
    && d.status == Some(Running)
    && Heartbeat(d).Some?
    && Heartbeat(d).value + FilterTimeout(d, fallback) <= now
  }

  /** The deadline the tracker stores for a heartbeat and a timeout. */
  function DeadlineFor(heartbeatAt: int, timeoutMs: nat): int {
    SaturatingAdd(heartbeatAt, ClampToI64(timeoutMs))
  }

  /** A document a rescan puts into the tracker. */
  predicate Tracked(d: Doc) {
    d.status == Some(Running) && Heartbeat(d).Some?
  }

  function Deadline(d: Doc, fallback: nat): int
    requires Tracked(d)
  {
    DeadlineFor(Heartbeat(d).value, TaskSwitchTimeout(d, fallback))
  }

  lemma TruncationIsExact(n: nat)
    ensures TruncateToI64(n) == n <==> n <= I64_MAX
    ensures TruncateToI64(n) >= 0 <==> n % TWO_64 <= I64_MAX
    ensures TruncateToI64(n) == 0 <==> n % TWO_64 == 0
    ensures I64_MIN <= TruncateToI64(n) <= I64_MAX
  {
    var low := n % TWO_64;
    assert n == TWO_64 * (n / TWO_64) + low;
    if low <= I64_MAX {
      assert (n - I64_MIN) % TWO_64 == low - I64_MIN;
    } else {
      assert n - I64_MIN == TWO_64 * (n / TWO_64 + 1) + (low + I64_MIN);
      assert (n - I64_MIN) % TWO_64 == low + I64_MIN;
    }
  }

  /**
   The database and the two Rust computations pick the same timeout exactly when
   the timeout that decides is one an i64 can hold without turning negative.
   */
  lemma TimeoutsAgreeExactly(d: Doc, fallback: nat)
    ensures FilterTimeout(d, fallback) == TaskSwitchTimeout(d, fallback)
       <==> match StoredTimeout(d) case Some(ms) => ms >= 0 case None => fallback <= I64_MAX
  {
    TruncationIsExact(fallback);
  }

  /** A one-document witness for the other case: the filter sees -1 ms, the worker its own default. */
  lemma TimeoutsCanDisagree(d: Doc, fallback: nat)
    requires d.switchTimeoutMs == Some(TruncateToI64(0xffff_ffff_ffff_ffff))
    ensures FilterTimeout(d, fallback) == -1 && TaskSwitchTimeout(d, fallback) == fallback
  {
  }

  /**
   When the timeouts agree, the tracker's deadline is due exactly when the
   database would accept a stale claim, including for deadlines that saturate.
   */
  lemma DueIffStale(d: Doc, fallback: nat, now: int)
    requires Tracked(d) && I64_MIN <= Heartbeat(d).value
    requires StoredTimeout(d).Some? ==> StoredTimeout(d).value <= I64_MAX
    requires FilterTimeout(d, fallback) == TaskSwitchTimeout(d, fallback)
    requires now < I64_MAX
    ensures Deadline(d, fallback) <= now <==> StaleAt(d, now, fallback)
    ensures Deadline(d, fallback) ==
            if Heartbeat(d).value + TaskSwitchTimeout(d, fallback) <= I64_MAX
            then Heartbeat(d).value + TaskSwitchTimeout(d, fallback) else I64_MAX
  {
  }
}
