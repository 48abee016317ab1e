/**
 The atomic single-document operations that callers and workers run against the
 task collection, and what the change stream reports about each of them.
 */
module Store {
  import opened Prelude
  import opened Documents

  /** `reset_when` is the caller's predicate on finished documents. */
  datatype EnqueueRequest = EnqueueRequest(
    taskId: TaskId,
    input: Bson,
    switchTimeoutMs: nat,
    resetWhen: Option<Doc -> bool>)

  datatype EnqueueAction = Inserted | Reset

  datatype EnqueueError = Duplicate(taskId: TaskId) | Database(message: string)

  /** The per-request predicate wins; the configuration flag stands for "any finished document". */
  function EffectiveResetPredicate(perRequest: Option<Doc -> bool>, allowReset: bool): Option<Doc -> bool> {
    if perRequest.Some? then perRequest
    else if allowReset then Some((_: Doc) => true)
    else None
  }

  predicate EnqueueMatches(d: Doc, req: EnqueueRequest) {
    || d.status.None?
    || (&& req.resetWhen.Some?
        && (d.status == Some(Succeeded) || d.status == Some(Failed))
        && req.resetWhen.value(d))
  }

  /** `$set`, `$setOnInsert` and `$unset` of the upsert. */
  function EnqueuedDoc(before: Option<Doc>, req: EnqueueRequest, oid: ObjectId, now: int): Doc {
    Doc(
      if before.Some? then before.value.oid else oid,
      req.taskId,
      Some(Pending),
      Some(req.input),
      None,
      None,
      Some(TruncateToI64(req.switchTimeoutMs)),
      None,
      if before.Some? then before.value.createdAt else now,
      now)
  }

  function Find(docs: Docs, t: TaskId): Option<Doc> {
    if t in docs then Some(docs[t]) else None
  }

  /** An existing document that the filter does not match makes the upsert fail on the unique index. */
  function EnqueueAnswer(docs: Docs, req: EnqueueRequest): Result<EnqueueAction, EnqueueError> {
    if req.taskId !in docs then Ok(Inserted)
    else if EnqueueMatches(docs[req.taskId], req) then Ok(Reset)
    else Err(Duplicate(req.taskId))
  }

  /** `claim_update` */
  function ClaimedDoc(d: Doc, w: WorkerId, k: ClaimToken, startedAt: int, defaultMs: nat): Doc {
    d.(status := Some(Running),
       updatedAt := startedAt,
       workerState := Some(WorkerState(w, Some(k), startedAt, Some(startedAt), Some(TruncateToI64(defaultMs)), None)))
  }

  /** Writes sent by one claim: each carries the worker id and claim token it is fenced by. */
  datatype Write =
    | BeatWrite(taskId: TaskId, workerId: WorkerId, token: ClaimToken, at: int)
    | SuccessWrite(taskId: TaskId, workerId: WorkerId, token: ClaimToken, at: int, output: Bson)
    | FailureWrite(taskId: TaskId, workerId: WorkerId, token: ClaimToken, at: int, reason: string)

  /** The filter shared by heartbeat, completion and failure. */
  predicate Owns(d: Doc, w: WorkerId, k: ClaimToken) {
    && d.status == Some(Running)
    && d.workerState.Some?
    && d.workerState.value.workerId == w
    && d.workerState.value.claimToken == Some(k)
  }

  function WrittenDoc(d: Doc, wr: Write): Doc
    requires d.workerState.Some?
  {
    match wr
    case BeatWrite(_, _, _, at) =>
      d.(workerState := Some(d.workerState.value.(heartbeatAt := Some(at))))
    case SuccessWrite(_, _, _, at, output) =>
      d.(status := Some(Succeeded), output := Some(output), updatedAt := at,
         workerState := Some(d.workerState.value.(finishedAt := Some(at))))
    case FailureWrite(_, _, _, at, reason) =>
      d.(status := Some(Failed), error := Some(reason), updatedAt := at,
         workerState := Some(d.workerState.value.(finishedAt := Some(at))))
  }

  /** `matched_count > 0` */
  predicate Matches(docs: Docs, wr: Write) {
    wr.taskId in docs && Owns(docs[wr.taskId], wr.workerId, wr.token)
  }

  /** How a claim found its document: as pending, as this worker's own abandoned run, or as stale at `now`. */
  datatype ClaimPath = PendingPath | OwnPath | StalePath(now: int)

  predicate Claimable(d: Doc, w: WorkerId, defaultMs: nat, path: ClaimPath) {
    match path
    case PendingPath => d.status == Some(Pending)
    case OwnPath => d.status == Some(Running) && d.workerState.Some? && d.workerState.value.workerId == w
    case StalePath(now) => StaleAt(d, now, defaultMs)
  }

  /** Which documents a pump looks for. */
  datatype Mode = Ready | StaleRecovery

  /** A targeted claim fixes `_id`, and `task_id` when the tracker knows it. */
  datatype Target = Target(oid: ObjectId, known: Option<TaskId>)

  /** The query of a claim. */
  datatype Filter = Filter(
    path: ClaimPath,
    workerId: WorkerId,
    defaultMs: nat,
    excluded: set<TaskId>,
    target: Option<Target>)

  predicate Selects(f: Filter, d: Doc) {
    && Claimable(d, f.workerId, f.defaultMs, f.path)
    && match f.target
       case None => d.taskId !in f.excluded
       case Some(Target(oid, known)) =>
         // Inserting the exact task id replaces the exclusion in the query.
         d.oid == oid && if known.Some? then d.taskId == known.value else d.taskId !in f.excluded
  }

  /** The filters `claim_next_task` tries, in order. */
  function ModeFilters(w: WorkerId, defaultMs: nat, excluded: set<TaskId>, mode: Mode, now: int): seq<Filter> {
    match mode
    case Ready => [Filter(PendingPath, w, defaultMs, excluded, None), Filter(OwnPath, w, defaultMs, excluded, None)]
    case StaleRecovery => [Filter(StalePath(now), w, defaultMs, excluded, None)]
  }

  /** `claim_expired_task_by_id` refuses a known task that is in flight before it asks the database. */
  predicate RefusedUpFront(known: Option<TaskId>, excluded: set<TaskId>) {
    known.Some? && known.value in excluded
  }

  function TargetFilter(
    oid: ObjectId, known: Option<TaskId>, w: WorkerId, defaultMs: nat, excluded: set<TaskId>, now: int): Filter
  {
    Filter(StalePath(now), w, defaultMs, excluded, Some(Target(oid, known)))
  }

  datatype Op =
    | Enqueue(req: EnqueueRequest, oid: ObjectId, now: int)
    | Claim(taskId: TaskId, workerId: WorkerId, token: ClaimToken, startedAt: int, defaultMs: nat, path: ClaimPath)
    | Update(write: Write)
    | Delete(taskId: TaskId)

  /** The task an operation can touch. */
  function Touches(op: Op): TaskId {
    match op
    case Enqueue(req, _, _) => req.taskId
    case Claim(t, _, _, _, _, _) => t
    case Update(wr) => wr.taskId
    case Delete(t) => t
  }

  ghost predicate Enabled(docs: Docs, op: Op) {
    match op
    case Enqueue(req, oid, _) => req.taskId !in docs ==> forall t <- docs :: docs[t].oid != oid
    case Claim(t, w, _, _, defaultMs, path) => t in docs && Claimable(docs[t], w, defaultMs, path)
    case Update(_) => true
    case Delete(t) => t in docs
  }

  function Apply(docs: Docs, op: Op): Docs {
    match op
    case Enqueue(req, oid, now) =>
      if EnqueueAnswer(docs, req).Ok?
      then docs[req.taskId := EnqueuedDoc(Find(docs, req.taskId), req, oid, now)]
      else docs
    case Claim(t, w, k, startedAt, defaultMs, _) =>
      if t in docs then docs[t := ClaimedDoc(docs[t], w, k, startedAt, defaultMs)] else docs
    case Update(wr) =>
      if Matches(docs, wr) then docs[wr.taskId := WrittenDoc(docs[wr.taskId], wr)] else docs
    case Delete(t) => docs - {t}
  }

  /** Every stored document sits under its own task id, and object ids are unique. */
  predicate WellIndexed(docs: Docs) {
    && (forall t <- docs :: docs[t].taskId == t)
    && (forall t, u | t in docs && u in docs && docs[t].oid == docs[u].oid :: t == u)
  }

  lemma ApplyKeepsWellIndexed(docs: Docs, op: Op)
    requires WellIndexed(docs) && Enabled(docs, op)
    ensures WellIndexed(Apply(docs, op))
    ensures forall t | t != Touches(op) :: Find(Apply(docs, op), t) == Find(docs, t)
    ensures Touches(op) in docs && Touches(op) in Apply(docs, op) ==>
              && Apply(docs, op)[Touches(op)].oid == docs[Touches(op)].oid
              && Apply(docs, op)[Touches(op)].createdAt == docs[Touches(op)].createdAt
  {
  }

  // ----- the change stream -----

  /** The part of `updateDescription.updatedFields` that is read; the last two are dotted keys. */
  datatype UpdatedFields = UpdatedFields(
    status: Option<Status>,
    workerState: Option<WorkerState>,
    heartbeatAt: Option<int>,
    switchTimeoutMs: Option<int>)

  datatype Event =
    | InsertEvent(doc: Doc)
    | UpdateEvent(oid: ObjectId, fields: UpdatedFields)
    | DeleteEvent(oid: ObjectId)

  /**
   `ev` may be reported for `op`. A reclaim leaves the status as it was, so its
   event may or may not repeat it. An operation that changes nothing reports nothing.
   */
  ghost predicate Describes(docs: Docs, op: Op, ev: Event) {
    match op
    case Enqueue(req, oid, now) =>
      if req.taskId in docs
      then ev == UpdateEvent(docs[req.taskId].oid, UpdatedFields(Some(Pending), None, None, None))
      else ev == InsertEvent(EnqueuedDoc(None, req, oid, now))
    case Claim(t, w, k, startedAt, defaultMs, _) =>
      && t in docs
      && var ws := ClaimedDoc(docs[t], w, k, startedAt, defaultMs).workerState;
      && (|| ev == UpdateEvent(docs[t].oid, UpdatedFields(Some(Running), ws, None, None))
          || (&& docs[t].status == Some(Running)
              && ev == UpdateEvent(docs[t].oid, UpdatedFields(None, ws, None, None))))
    case Update(wr) =>
      && wr.taskId in docs
      && ev == UpdateEvent(docs[wr.taskId].oid,
                           match wr
                           case BeatWrite(_, _, _, at) => UpdatedFields(None, None, Some(at), None)
                           case SuccessWrite(_, _, _, _, _) => UpdatedFields(Some(Succeeded), None, None, None)
                           case FailureWrite(_, _, _, _, _) => UpdatedFields(Some(Failed), None, None, None))
    case Delete(t) => t in docs && ev == DeleteEvent(docs[t].oid)
  }

  /** `expiry_change_stream_pipeline` */
  predicate PassesPipeline(ev: Event) {
    match ev
    case UpdateEvent(_, f) => f.status.Some? || f.workerState.Some? || f.heartbeatAt.Some? || f.switchTimeoutMs.Some?
    case _ => true
  }

  /** The second result of `apply_change_event_to_expirations`: the event announces pending work. */
  predicate AnnouncesPending(ev: Event) {
    match ev
    case InsertEvent(doc) => doc.status == Some(Pending)
    case UpdateEvent(_, f) => f.status == Some(Pending)
    case DeleteEvent(_) => false
  }

  function EventOid(ev: Event): ObjectId {
    match ev
    case InsertEvent(doc) => doc.oid
    case UpdateEvent(oid, _) => oid
    case DeleteEvent(oid) => oid
  }

  /**
   The pipeline drops no event of the program's own operations, and a document
   becomes pending only with an event that says so.
   */
  lemma EveryPendingDocumentIsAnnounced(docs: Docs, op: Op, ev: Event, t: TaskId)
    requires Enabled(docs, op) && Describes(docs, op, ev)
    ensures PassesPipeline(ev)
    ensures && t in Apply(docs, op)
            && Apply(docs, op)[t].status == Some(Pending)
            && Find(docs, t) != Find(Apply(docs, op), t)
            ==> AnnouncesPending(ev) && EventOid(ev) == Apply(docs, op)[t].oid
  {
  }

  // ----- what the operations do, field by field -----

  /** A document as an enqueue leaves it: waiting for a claim, with nothing of an earlier round. */
  predicate IsFresh(d: Doc, req: EnqueueRequest, now: int) {
    && d.taskId == req.taskId && d.status == Some(Pending) && d.input == Some(req.input)
    && d.output.None? && d.error.None? && d.workerState.None?
    && d.switchTimeoutMs == Some(TruncateToI64(req.switchTimeoutMs)) && d.updatedAt == now
  }

  /**
   An accepted enqueue leaves a fresh document, under its old identity if it was
   there; a rejected one changes nothing. A stored task is reset exactly if it is
   finished and the caller's own predicate, or without one the configuration,
   allows it.
   */
  lemma EnqueueContract(
    docs: Docs, req: EnqueueRequest, oid: ObjectId, now: int, perRequest: Option<Doc -> bool>, allowReset: bool)
    requires req.resetWhen == EffectiveResetPredicate(perRequest, allowReset)
    ensures var after := Apply(docs, Enqueue(req, oid, now));
            match EnqueueAnswer(docs, req)
            case Ok(Inserted) =>
              && req.taskId !in docs && after == docs[req.taskId := after[req.taskId]]
              && IsFresh(after[req.taskId], req, now)
              && after[req.taskId].oid == oid && after[req.taskId].createdAt == now
            case Ok(Reset) =>
              && req.taskId in docs && after == docs[req.taskId := after[req.taskId]]
              && IsFresh(after[req.taskId], req, now)
              && after[req.taskId].oid == docs[req.taskId].oid
              && after[req.taskId].createdAt == docs[req.taskId].createdAt
            case Err(e) => req.taskId in docs && e == Duplicate(req.taskId) && after == docs
    ensures req.taskId in docs ==>
              var d := docs[req.taskId];
              && (EnqueueAnswer(docs, req) == Ok(Reset) <==>
                  || d.status.None?
                  || (&& (d.status == Some(Succeeded) || d.status == Some(Failed))
                      && (if perRequest.Some? then perRequest.value(d) else allowReset)))
              && (EnqueueAnswer(docs, req) == Ok(Reset) || EnqueueAnswer(docs, req) == Err(Duplicate(req.taskId)))
  {
  }

  /** The round a document is in: what the caller asked for, whatever happens to it afterwards. */
  predicate SameRequest(d: Doc, d': Doc) {
    && d'.oid == d.oid && d'.taskId == d.taskId && d'.createdAt == d.createdAt
    && d'.input == d.input && d'.switchTimeoutMs == d.switchTimeoutMs
  }

  /**
   A claim makes the document running for the claimant and its token, with a lease
   that starts with the claim, and leaves the request and everything else alone.
   */
  lemma ClaimContract(
    docs: Docs, t: TaskId, w: WorkerId, k: ClaimToken, startedAt: int, defaultMs: nat, path: ClaimPath)
    requires t in docs
    ensures var after := Apply(docs, Claim(t, w, k, startedAt, defaultMs, path));
            && t in after && after == docs[t := after[t]] && SameRequest(docs[t], after[t])
            && after[t].output == docs[t].output && after[t].error == docs[t].error
            && after[t].status == Some(Running) && after[t].updatedAt == startedAt
            && after[t].workerState.Some?
            && var ws := after[t].workerState.value;
               && ws.workerId == w && ws.claimToken == Some(k)
               && ws.startedAt == startedAt && ws.heartbeatAt == Some(startedAt)
               && ws.switchTimeoutMs == Some(TruncateToI64(defaultMs)) && ws.finishedAt.None?
  {
  }

  /**
   A worker's write is accepted exactly if the task is running for its worker and
   its token. A heartbeat then sets the heartbeat and nothing else, a terminal write
   stores its outcome once and for all; any other write changes nothing.
   */
  lemma WriteContract(docs: Docs, wr: Write)
    ensures Matches(docs, wr) <==>
            && wr.taskId in docs && docs[wr.taskId].status == Some(Running) && docs[wr.taskId].workerState.Some?
            && docs[wr.taskId].workerState.value.workerId == wr.workerId
            && docs[wr.taskId].workerState.value.claimToken == Some(wr.token)
    ensures !Matches(docs, wr) ==> Apply(docs, Update(wr)) == docs
    ensures Matches(docs, wr) ==>
              var d, after := docs[wr.taskId], Apply(docs, Update(wr));
              && wr.taskId in after && after == docs[wr.taskId := after[wr.taskId]]
              && var d' := after[wr.taskId];
                 && SameRequest(d, d') && d'.workerState.Some?
                 && var ws, ws' := d.workerState.value, d'.workerState.value;
                    && ws'.workerId == ws.workerId && ws'.claimToken == ws.claimToken && ws'.startedAt == ws.startedAt
                    && ws'.switchTimeoutMs == ws.switchTimeoutMs
                    && (match wr
                        case BeatWrite(_, _, _, at) =>
                          && d' == d.(workerState := Some(ws')) && ws'.heartbeatAt == Some(at)
                          && ws'.finishedAt == ws.finishedAt
                        case SuccessWrite(_, _, _, at, output) =>
                          && d'.status == Some(Succeeded) && d'.output == Some(output) && d'.error == d.error
                          && d'.updatedAt == at && ws'.finishedAt == Some(at) && ws'.heartbeatAt == ws.heartbeatAt
                        case FailureWrite(_, _, _, at, reason) =>
                          && d'.status == Some(Failed) && d'.error == Some(reason) && d'.output == d.output
                          && d'.updatedAt == at && ws'.finishedAt == Some(at) && ws'.heartbeatAt == ws.heartbeatAt)
  {
  }

  /**
   What the queries find. A Ready pump looks for pending tasks, then for tasks
   running under its own worker id; a recovery pump for tasks whose lease is over;
   a targeted query for such a task with one object id. None finds an excluded task,
   except that a known task id replaces the exclusion in a targeted query.
   */
  lemma QueriesFind(
    d: Doc, w: WorkerId, defaultMs: nat, excluded: set<TaskId>, now: int, oid: ObjectId, known: Option<TaskId>)
    ensures var stale := d.status == Some(Running) && d.workerState.Some? && d.workerState.value.heartbeatAt.Some?
                         && d.workerState.value.heartbeatAt.value + FilterTimeout(d, defaultMs) <= now;
            var ready, recovery := ModeFilters(w, defaultMs, excluded, Ready, now),
                                   ModeFilters(w, defaultMs, excluded, StaleRecovery, now);
            && |ready| == 2 && |recovery| == 1
            && (Selects(ready[0], d) <==> d.status == Some(Pending) && d.taskId !in excluded)
            && (Selects(ready[1], d) <==>
                  && d.status == Some(Running) && d.workerState.Some? && d.workerState.value.workerId == w
                  && d.taskId !in excluded)
            && (Selects(recovery[0], d) <==> stale && d.taskId !in excluded)
            && (Selects(TargetFilter(oid, known, w, defaultMs, excluded, now), d) <==>
                  stale && d.oid == oid && (if known.Some? then d.taskId == known.value else d.taskId !in excluded))
  {
  }

  /** Every operation that is possible has an event, about its own document. */
  lemma EveryOperationIsReported(docs: Docs, op: Op) returns (ev: Event)
    requires Enabled(docs, op) && (op.Update? ==> Matches(docs, op.write))
    ensures Describes(docs, op, ev)
    ensures Touches(op) in docs ==> EventOid(ev) == docs[Touches(op)].oid
    ensures Touches(op) !in docs ==> ev.InsertEvent? && Apply(docs, op) == docs[Touches(op) := ev.doc]
  {
    match op
    case Enqueue(req, oid, now) =>
      ev := if req.taskId in docs then UpdateEvent(docs[req.taskId].oid, UpdatedFields(Some(Pending), None, None, None))
            else InsertEvent(EnqueuedDoc(None, req, oid, now));
    case Claim(t, w, k, startedAt, defaultMs, _) =>
      var ws := ClaimedDoc(docs[t], w, k, startedAt, defaultMs).workerState;
      ev := UpdateEvent(docs[t].oid, UpdatedFields(Some(Running), ws, None, None));
    case Update(BeatWrite(t, _, _, at)) => ev := UpdateEvent(docs[t].oid, UpdatedFields(None, None, Some(at), None));
    case Update(SuccessWrite(t, _, _, _, _)) =>
      ev := UpdateEvent(docs[t].oid, UpdatedFields(Some(Succeeded), None, None, None));
    case Update(FailureWrite(t, _, _, _, _)) =>
      ev := UpdateEvent(docs[t].oid, UpdatedFields(Some(Failed), None, None, None));
    case Delete(t) => ev := DeleteEvent(docs[t].oid);
  }

  /**
   The stored timeout means the same to database and worker exactly if its low 64
   bits are not negative, and is the requested one exactly if it fits in 64 bits.
   A multiple of 2^64 is stored as zero, and then the heartbeat loop has no interval.
   */
  lemma RequestedTimeoutIsKept(
    before: Option<Doc>, req: EnqueueRequest, oid: ObjectId, now: int, fallback: nat, fallbackNs: nat)
    ensures var d, low := EnqueuedDoc(before, req, oid, now), req.switchTimeoutMs % TWO_64;
            && (FilterTimeout(d, fallback) == TaskSwitchTimeout(d, fallback) <==> low <= I64_MAX)
            && (FilterTimeout(d, fallback) == req.switchTimeoutMs <==> req.switchTimeoutMs <= I64_MAX)
            && (HeartbeatInterval(HandlerTimeoutNs(d, fallbackNs)) == 0 <==>
                low == 0 || (low > I64_MAX && fallbackNs < 3))
  {
    TruncationIsExact(req.switchTimeoutMs);
    TimeoutsAgreeExactly(EnqueuedDoc(before, req, oid, now), fallback);
  }
}
