/**
 Keeping the expiry tracker up to date: the scan of running documents, the
 change events, and the worker's own claims. The scan is what the incremental
 feed must agree with.
 */
module Feed {
  import opened Prelude
  import opened Documents
  import opened Store
  import opened Expiry

  function Scheduled(m: Index, d: Doc, fallback: nat): Index {
    match d.status
    case Some(Running) =>
      if Heartbeat(d).Some?
      then Upserted(m, d.oid, Some(d.taskId), Heartbeat(d).value, TaskSwitchTimeout(d, fallback))
      else m
    case Some(Pending) => m
    case _ => m - {d.oid}
  }

  function TimeoutOr(stored: Option<int>, fallback: nat): nat {
    match stored
    case Some(ms) => if ms >= 0 then ms else fallback
    case None => fallback
  }

  /** `expiration_update_from_fields` */
  function ExpirationUpdate(f: UpdatedFields, fallback: nat): Option<(int, nat)> {
    match f.workerState
    case Some(ws) =>
      if ws.heartbeatAt.None? then None
      else Some((ws.heartbeatAt.value, TimeoutOr(ws.switchTimeoutMs, fallback)))
    case None =>
      if f.heartbeatAt.None? then None
      else Some((f.heartbeatAt.value, TimeoutOr(f.switchTimeoutMs, fallback)))
  }

  function EventApplied(m: Index, ev: Event, fallback: nat): Index {
    match ev
    case InsertEvent(doc) => Scheduled(m, doc, fallback)
    case UpdateEvent(oid, f) =>
      if f.status == Some(Pending) then m
      else if f.status.Some? && f.status != Some(Running) then m - {oid}
      else (match ExpirationUpdate(f, fallback)
            case Some((heartbeatAt, timeoutMs)) => Upserted(m, oid, None, heartbeatAt, timeoutMs)
            case None => m)
    case DeleteEvent(oid) => m - {oid}
  }

  // ----- the methods -----

  method ScheduleExpirationFromTask(d: Doc, fallback: nat, tracker: ExpiryTracker)
    requires tracker.Valid()
    modifies tracker
    ensures tracker.Valid() && tracker.tasks == Scheduled(old(tracker.tasks), d, fallback)
  {
    match d.status {
      case Some(Running) =>
        var heartbeatAt := Heartbeat(d);
        if heartbeatAt.Some? {
          var timeoutMs := TaskSwitchTimeout(d, fallback);
          tracker.Upsert(d.oid, Some(d.taskId), heartbeatAt.value, timeoutMs);
        }
      case Some(Pending) =>
      case _ => tracker.Remove(d.oid);
    }
  }

  method ApplyChangeEvent(ev: Event, fallback: nat, tracker: ExpiryTracker) returns (ready: bool)
    requires tracker.Valid()
    modifies tracker
    ensures tracker.Valid() && tracker.tasks == EventApplied(old(tracker.tasks), ev, fallback)
    ensures ready <==> AnnouncesPending(ev)
  {
    match ev {
      case InsertEvent(doc) =>
        ScheduleExpirationFromTask(doc, fallback, tracker);
        ready := doc.status == Some(Pending);
      case UpdateEvent(oid, f) =>
        if f.status == Some(Pending) {
        } else if f.status.Some? && f.status != Some(Running) {
          tracker.Remove(oid);
        } else {
          var update := ExpirationUpdate(f, fallback);
          if update.Some? {
            tracker.Upsert(oid, None, update.value.0, update.value.1);
          }
        }
        ready := f.status == Some(Pending);
      case DeleteEvent(oid) =>
        tracker.Remove(oid);
        ready := false;
    }
  }

  /** The cursor of a scan: documents, or an error that ends it. `None` if the query itself failed. */
  type Scan = Option<seq<Result<Doc, string>>>

  /** A scan may read each document at a different time; `d` is a running document of `docs`. */
  predicate ReadFrom(d: Doc, docs: Docs) {
    d.taskId in docs && docs[d.taskId] == d && d.status == Some(Running)
  }

  /** Every document the cursor gives was running in some version from `from` on. */
  ghost predicate ReadsSince(scan: Scan, versions: seq<Docs>, from: nat) {
    scan.Some? ==>
      forall i | 0 <= i < |scan.value| && scan.value[i].Ok? ::
        exists v :: from <= v < |versions| && ReadFrom(scan.value[i].value, versions[v])
  }

  /** The cursor gave `oid` with a heartbeat. */
  ghost predicate Lists(scan: seq<Result<Doc, string>>, oid: ObjectId) {
    exists i :: 0 <= i < |scan| && scan[i].Ok? && scan[i].value.oid == oid && Tracked(scan[i].value)
  }

  /** The cursor came to its end, and what it did not give was not running with a heartbeat at some time. */
  ghost predicate ReadsAll(scan: Scan, versions: seq<Docs>, from: nat) {
    && scan.Some? && (forall i | 0 <= i < |scan.value| :: scan.value[i].Ok?)
    && forall oid :: Lists(scan.value, oid) || exists v :: from <= v < |versions| && Untracked(versions[v], oid)
  }

  /**
   `refresh_running_expirations`, for a cursor that reads any versions from `from`
   on. Whatever the tracker held before, after a complete scan every entry, and
   every absence, is what one of these versions shows; after a scan that breaks
   off every entry is, and everything read before the error is tracked. A query
   that fails changes nothing.
   */
  method RefreshRunningExpirations(
    scan: Scan, fallback: nat, tracker: ExpiryTracker, ghost versions: seq<Docs>, ghost from: nat)
    requires tracker.Valid()
    modifies tracker
    ensures tracker.Valid()
    ensures scan.None? ==> tracker.tasks == old(tracker.tasks)
    ensures scan.Some? && ReadsSince(scan, versions, from) ==>
              EntriesShown(versions, from, tracker.tasks, fallback) && KnownIn(versions, tracker.tasks)
    ensures scan.Some? && ReadsSince(scan, versions, from) ==>
              forall i | 0 <= i < |scan.value| && (forall j | 0 <= j <= i :: scan.value[j].Ok?)
                         && Tracked(scan.value[i].value) :: Lookup(tracker.tasks, scan.value[i].value.oid).Some?
    ensures ReadsSince(scan, versions, from) && ReadsAll(scan, versions, from) ==>
              AllShown(versions, from, tracker.tasks, fallback)
  {
    if scan.None? {
      return;
    }
    tracker.ClearRunning();
    var cursor := scan.value;
    for i := 0 to |cursor|
      invariant tracker.Valid() && forall j | 0 <= j < i :: cursor[j].Ok?
      invariant ReadsSince(scan, versions, from) ==>
                  EntriesShown(versions, from, tracker.tasks, fallback) && KnownIn(versions, tracker.tasks)
      invariant ReadsSince(scan, versions, from) ==>
                  forall j | 0 <= j < i && Tracked(cursor[j].value) ::
                    Lookup(tracker.tasks, cursor[j].value.oid).Some?
    {
      if cursor[i].Err? {
        return;
      }
      ghost var before := tracker.tasks;
      ScheduleExpirationFromTask(cursor[i].value, fallback, tracker);
      if ReadsSince(scan, versions, from) {
        ReadOneMore(versions, from, before, cursor[i].value, fallback);
      }
    }
    if ReadsSince(scan, versions, from) && ReadsAll(scan, versions, from) {
      EverythingIsShown(scan.value, versions, from, tracker.tasks, fallback);
    }
  }

  lemma ReadOneMore(versions: seq<Docs>, from: nat, m: Index, d: Doc, fallback: nat)
    requires EntriesShown(versions, from, m, fallback) && KnownIn(versions, m)
    requires exists v :: from <= v < |versions| && ReadFrom(d, versions[v])
    ensures EntriesShown(versions, from, Scheduled(m, d, fallback), fallback)
    ensures KnownIn(versions, Scheduled(m, d, fallback))
    ensures Tracked(d) ==> Lookup(Scheduled(m, d, fallback), d.oid).Some?
    ensures forall oid | Lookup(m, oid).Some? :: Lookup(Scheduled(m, d, fallback), oid).Some?
  {
    var v :| from <= v < |versions| && ReadFrom(d, versions[v]);
    var m' := Scheduled(m, d, fallback);
    forall oid <- m' | m'[oid].taskId.Some? ensures IsIdOf(versions, oid, m'[oid].taskId.value) {
      if oid == d.oid && Tracked(d) {
        assert versions[v][d.taskId].oid == oid;
      }
    }
    forall oid | Lookup(m', oid).Some?
      ensures ShownSince(versions, from, oid, Lookup(m', oid), fallback, Scanned)
    {
      if Tracked(d) && oid == d.oid {
        assert Shows(versions[v], oid, Lookup(m', oid), fallback, Scanned);
      } else {
        assert Lookup(m', oid) == Lookup(m, oid);
      }
    }
  }

  lemma EverythingIsShown(
    cursor: seq<Result<Doc, string>>, versions: seq<Docs>, from: nat, m: Index, fallback: nat)
    requires ReadsAll(Some(cursor), versions, from) && EntriesShown(versions, from, m, fallback)
    requires forall i | 0 <= i < |cursor| && Tracked(cursor[i].value) :: Lookup(m, cursor[i].value.oid).Some?
    ensures AllShown(versions, from, m, fallback)
  {
    forall oid ensures ShownSince(versions, from, oid, Lookup(m, oid), fallback, Scanned) {
      if Lookup(m, oid).None? {
        assert !Lists(cursor, oid);
        var v :| from <= v < |versions| && Untracked(versions[v], oid);
        assert Shows(versions[v], oid, None, fallback, Scanned);
      }
    }
  }

  // ----- agreement with a collection -----

  /** Where the tracker's word on an id comes from, and so how far it can be trusted. */
  datatype Standing =
    | Scanned                // a scan or the worker's own claim: the deadline is the task's own
    | Carried(timeoutMs: nat) // an event, with the timeout it carried
    | Postponed              // deferred: the deadline is the retry
    | Dropped                // popped, or not reached by a scan
    | Missed                 // the stream was reopened after an event about it

  function Lookup(m: Index, oid: ObjectId): Option<int> {
    if oid in m then m[oid].expiresAtMs else None
  }

  predicate Untracked(docs: Docs, oid: ObjectId) {
    forall t <- docs | docs[t].oid == oid :: !Tracked(docs[t])
  }

  predicate IsDeadline(d: Doc, x: int, fallback: nat, standing: Standing)
    requires Tracked(d)
  {
    match standing
    case Scanned => x == Deadline(d, fallback)
    case Carried(ms) => x == DeadlineFor(Heartbeat(d).value, ms)
    case _ => true
  }

  /**
   `docs` bears the entry out: it has a deadline exactly when the document is
   running with a heartbeat, and it is the deadline that its standing makes it.
   */
  ghost predicate Shows(docs: Docs, oid: ObjectId, entry: Option<int>, fallback: nat, standing: Standing) {
    match entry
    case None => Untracked(docs, oid)
    case Some(x) =>
      exists t <- docs :: docs[t].oid == oid && Tracked(docs[t]) && IsDeadline(docs[t], x, fallback, standing)
  }

  /** The tracker is what a scan of `docs` makes it. */
  ghost predicate Agrees(m: Index, docs: Docs, fallback: nat) {
    forall oid :: Shows(docs, oid, Lookup(m, oid), fallback, Scanned)
  }

  /** Agreement leaves no freedom: two trackers that agree with a collection have the same deadlines. */
  lemma AgreementDeterminesDeadlines(m: Index, n: Index, docs: Docs, fallback: nat, oid: ObjectId)
    requires WellIndexed(docs) && Agrees(m, docs, fallback) && Agrees(n, docs, fallback)
    ensures Lookup(m, oid) == Lookup(n, oid)
  {
    assert Shows(docs, oid, Lookup(m, oid), fallback, Scanned);
    assert Shows(docs, oid, Lookup(n, oid), fallback, Scanned);
  }

  /** Some version from `from` on bears the entry out. */
  ghost predicate ShownSince(
    versions: seq<Docs>, from: nat, oid: ObjectId, entry: Option<int>, fallback: nat, standing: Standing)
  {
    exists v :: from <= v < |versions| && Shows(versions[v], oid, entry, fallback, standing)
  }

  ghost predicate EntriesShown(versions: seq<Docs>, from: nat, m: Index, fallback: nat) {
    forall oid | Lookup(m, oid).Some? :: ShownSince(versions, from, oid, Lookup(m, oid), fallback, Scanned)
  }

  ghost predicate AllShown(versions: seq<Docs>, from: nat, m: Index, fallback: nat) {
    forall oid :: ShownSince(versions, from, oid, Lookup(m, oid), fallback, Scanned)
  }

  /** A task id that the tracker knows is that of a document with the entry's object id. */
  ghost predicate KnownIn(versions: seq<Docs>, m: Index) {
    forall oid <- m | m[oid].taskId.Some? :: IsIdOf(versions, oid, m[oid].taskId.value)
  }

  ghost predicate IsIdOf(versions: seq<Docs>, oid: ObjectId, t: TaskId) {
    exists v :: 0 <= v < |versions| && t in versions[v] && versions[v][t].oid == oid
  }

  /** A complete scan that nothing interferes with makes the tracker agree with the collection. */
  lemma QuietScanAgrees(versions: seq<Docs>, m: Index, fallback: nat)
    requires versions != [] && AllShown(versions, |versions| - 1, m, fallback)
    ensures Agrees(m, versions[|versions| - 1], fallback)
  {
    forall oid ensures Shows(versions[|versions| - 1], oid, Lookup(m, oid), fallback, Scanned) {
      assert ShownSince(versions, |versions| - 1, oid, Lookup(m, oid), fallback, Scanned);
    }
  }

  // ----- the incremental feed -----

  /**
   `versions[i + 1]` comes from `versions[i]` by `ops[i]`, which the stream
   reports as `log[i]`. The worker has read `cursor` events.
   */
  datatype FeedState = FeedState(
    versions: seq<Docs>,
    ops: seq<Op>,
    log: seq<Event>,
    cursor: nat,
    tracker: Index)

  /**
   `Miss` is an event lost because the stream was reopened behind it; `Rewind`
   reopens it further back. A scan leaves `found`; `WholeScan` came to its end, with the
   stream open from `from` on, and `BrokenScan` ended in an error. `Pop` takes the
   due entries and puts back at most one, deferred.
   */
  datatype FeedStep =
    | Change(op: Op, ev: Event)
    | Deliver
    | Miss
    | Rewind(from: nat)
    | ScheduleOwnClaim(version: nat, taskId: TaskId)
    | WholeScan(from: nat, found: Index)
    | BrokenScan(from: nat, found: Index)
    | Pop(now: int, deferred: Option<ObjectId>, later: int, delayMs: nat)

  function Latest(f: FeedState): Docs {
    if f.versions == [] then map[] else f.versions[|f.versions| - 1]
  }

  predicate IsDue(m: Index, oid: ObjectId, now: int) {
    oid in m && Due(m[oid], now)
  }

  function AfterPop(m: Index, now: int, deferred: Option<ObjectId>, later: int, delayMs: nat): Index
    requires deferred.Some? ==> deferred.value in m
  {
    if deferred.None? then NotDue(m, now)
    else Expiry.Deferred(NotDue(m, now), deferred.value, m[deferred.value], later, delayMs)
  }

  ghost predicate FeedMoves(f: FeedState, a: FeedStep, f': FeedState, fallback: nat) {
    && f.versions != []
    && match a
       case Change(op, ev) =>
         && Enabled(Latest(f), op) && Describes(Latest(f), op, ev) && Apply(Latest(f), op) != Latest(f)
         && f' == f.(versions := f.versions + [Apply(Latest(f), op)], ops := f.ops + [op], log := f.log + [ev])
       case Deliver =>
         && f.cursor < |f.log|
         && f' == f.(cursor := f.cursor + 1, tracker := EventApplied(f.tracker, f.log[f.cursor], fallback))
       case Miss => f.cursor < |f.log| && f' == f.(cursor := f.cursor + 1)
       case Rewind(from) => from <= f.cursor && f' == f.(cursor := from)
       case ScheduleOwnClaim(version, t) =>
         && f.cursor <= version < |f.versions| && t in f.versions[version]
         && f' == f.(tracker := Scheduled(f.tracker, f.versions[version][t], fallback))
       case WholeScan(from, found) =>
         && from <= |f.log| && AllShown(f.versions, from, found, fallback) && KnownIn(f.versions, found)
         && f' == f.(cursor := from, tracker := found)
       case BrokenScan(from, found) =>
         && from <= |f.log| && EntriesShown(f.versions, from, found, fallback) && KnownIn(f.versions, found)
         && f' == f.(cursor := from, tracker := found)
       case Pop(now, deferred, later, delayMs) =>
         && (deferred.Some? ==> IsDue(f.tracker, deferred.value, now))
         && f' == f.(tracker := AfterPop(f.tracker, now, deferred, later, delayMs))
  }

  /** A worker starts with an empty tracker at the end of the log. */
  predicate FeedStarts(f: FeedState) {
    |f.versions| == 1 && WellIndexed(f.versions[0]) && f.ops == [] && f.log == [] && f.cursor == 0 && f.tracker == map[]
  }

  ghost predicate FeedRun(run: seq<FeedState>, steps: seq<FeedStep>, fallback: nat) {
    && |run| == |steps| + 1
    && FeedStarts(run[0])
    && forall i | 0 <= i < |steps| :: MovesAt(run, steps, fallback, i)
  }

  ghost predicate MovesAt(run: seq<FeedState>, steps: seq<FeedStep>, fallback: nat, i: nat)
    requires i < |steps| < |run|
  {
    FeedMoves(run[i], steps[i], run[i + 1], fallback)
  }

  /** Everyone can go on changing the collection, the worker can read, pop and schedule its claims, at any time. */
  lemma FeedCanMove(f: FeedState, op: Op, now: int, version: nat, t: TaskId, fallback: nat) returns (ev: Event)
    requires LogInv(f)
    requires Enabled(Latest(f), op) && Apply(Latest(f), op) != Latest(f)
    ensures FeedMoves(f, Change(op, ev),
                      f.(versions := f.versions + [Apply(Latest(f), op)], ops := f.ops + [op], log := f.log + [ev]),
                      fallback)
    ensures f.cursor < |f.log| ==>
              && FeedMoves(f, Miss, f.(cursor := f.cursor + 1), fallback)
              && FeedMoves(f, Deliver,
                           f.(cursor := f.cursor + 1, tracker := EventApplied(f.tracker, f.log[f.cursor], fallback)),
                           fallback)
    ensures FeedMoves(f, Pop(now, None, 0, 0), f.(tracker := NotDue(f.tracker, now)), fallback)
    ensures f.cursor <= version < |f.versions| && t in f.versions[version] ==>
              FeedMoves(f, ScheduleOwnClaim(version, t),
                        f.(tracker := Scheduled(f.tracker, f.versions[version][t], fallback)), fallback)
  {
    ev := EveryOperationIsReported(Latest(f), op);
  }

  // ----- what each step means for the trust in one id -----

  /** The event is about `oid` and settles what the tracker should say about it. */
  predicate Settles(ev: Event, oid: ObjectId) {
    oid == EventOid(ev) && !AnnouncesPending(ev)
  }

  /** The next event settles `oid`. */
  predicate NextSettles(f: FeedState, oid: ObjectId) {
    f.cursor < |f.log| && Settles(f.log[f.cursor], oid)
  }

  predicate OwnClaimSettles(f: FeedState, a: FeedStep, oid: ObjectId) {
    && a.ScheduleOwnClaim? && a.version < |f.versions| && a.taskId in f.versions[a.version]
    && var d := f.versions[a.version][a.taskId];
       d.oid == oid && d.status != Some(Pending) && (d.status == Some(Running) ==> Heartbeat(d).Some?)
  }

  /** The step makes the tracker's word on `oid` good, whatever it was. */
  predicate Resettles(f: FeedState, a: FeedStep, oid: ObjectId) {
    || a.WholeScan?
    || (a.Deliver? && NextSettles(f, oid))
    || OwnClaimSettles(f, a, oid)
    || (a.BrokenScan? && Lookup(a.found, oid).Some?)
  }

  /** The step takes `oid` out of the tracker although its document may be running. */
  predicate Drops(f: FeedState, a: FeedStep, oid: ObjectId) {
    || (a.BrokenScan? && Lookup(a.found, oid).None?)
    || (a.Pop? && IsDue(f.tracker, oid, a.now) && a.deferred != Some(oid))
  }

  /** The step puts the due entry of `oid` back, with a deadline of the worker's own making. */
  predicate Postpones(f: FeedState, a: FeedStep, oid: ObjectId) {
    a.Pop? && IsDue(f.tracker, oid, a.now) && a.deferred == Some(oid)
  }

  /** The step skips an event about `oid`. */
  predicate Misses(f: FeedState, a: FeedStep, oid: ObjectId) {
    a.Miss? && NextSettles(f, oid)
  }

  /** An update that renews a lease carries a timeout; any other settling event ends the lease. */
  function EventStanding(ev: Event, fallback: nat): Standing {
    match ev
    case UpdateEvent(_, f) =>
      if f.status.Some? && f.status != Some(Running) then Scanned
      else (match ExpirationUpdate(f, fallback)
            case Some((_, timeoutMs)) => Carried(timeoutMs)
            case None => Scanned)
    case _ => Scanned
  }

  function StandingAfter(f: FeedState, a: FeedStep, oid: ObjectId, before: Standing, fallback: nat): Standing {
    if Resettles(f, a, oid) then
      if a.Deliver? then EventStanding(f.log[f.cursor], fallback) else Scanned
    else if Drops(f, a, oid) then Dropped
    else if Postpones(f, a, oid) then (if before.Missed? then Missed else Postponed)
    else if Misses(f, a, oid) then Missed
    else before
  }

  function StandingAt(run: seq<FeedState>, steps: seq<FeedStep>, i: nat, oid: ObjectId, fallback: nat): Standing
    requires i <= |steps| && |run| == |steps| + 1
  {
    if i == 0 then Dropped
    else StandingAfter(run[i - 1], steps[i - 1], oid, StandingAt(run, steps, i - 1, oid, fallback), fallback)
  }

  // ----- what is true of the tracker in every run -----

  ghost predicate LogsChange(f: FeedState, i: int)
    requires |f.versions| == |f.log| + 1 && |f.ops| == |f.log| && 0 <= i < |f.log|
  {
    && Enabled(f.versions[i], f.ops[i])
    && Describes(f.versions[i], f.ops[i], f.log[i])
    && f.versions[i + 1] == Apply(f.versions[i], f.ops[i]) != f.versions[i]
  }

  ghost predicate LogInv(f: FeedState) {
    && |f.versions| == |f.log| + 1 && |f.ops| == |f.log| && f.cursor <= |f.log|
    && (forall i | 0 <= i < |f.log| :: LogsChange(f, i))
    && (forall i | 0 <= i < |f.versions| :: WellIndexed(f.versions[i]))
  }

  /**
   What the tracker says about `oid` is borne out by a version no older than the
   last event read, as its standing has it.
   */
  ghost predicate Promise(f: FeedState, oid: ObjectId, standing: Standing, fallback: nat) {
    var entry := Lookup(f.tracker, oid);
    match standing
    case Missed => true
    case Dropped => entry.None?
    case Postponed => entry.Some? && ShownSince(f.versions, f.cursor, oid, entry, fallback, standing)
    case _ => ShownSince(f.versions, f.cursor, oid, entry, fallback, standing)
  }

  lemma EventSettlesItsDocument(docs: Docs, op: Op, ev: Event, m: Index, fallback: nat)
    requires WellIndexed(docs) && Enabled(docs, op) && Describes(docs, op, ev) && Apply(docs, op) != docs
    requires !AnnouncesPending(ev)
    ensures Shows(Apply(docs, op), EventOid(ev), Lookup(EventApplied(m, ev, fallback), EventOid(ev)), fallback,
                  EventStanding(ev, fallback))
  {
    var t, docs' := Touches(op), Apply(docs, op);
    ApplyKeepsWellIndexed(docs, op);
    if op.Delete? {
      assert forall u <- docs' :: u != t && docs'[u] == docs[u];
    } else {
      assert t in docs' && docs'[t].oid == EventOid(ev);
    }
  }

  lemma OtherEntriesStayTrue(
    docs: Docs, op: Op, ev: Event, oid: ObjectId, entry: Option<int>, fallback: nat, standing: Standing)
    requires WellIndexed(docs) && Enabled(docs, op) && Describes(docs, op, ev) && Apply(docs, op) != docs
    requires !Settles(ev, oid) && Shows(docs, oid, entry, fallback, standing)
    ensures Shows(Apply(docs, op), oid, entry, fallback, standing)
  {
    var t, docs' := Touches(op), Apply(docs, op);
    ApplyKeepsWellIndexed(docs, op);
    assert forall u | u != t :: Find(docs', u) == Find(docs, u);
    if entry.Some? {
      var u :| u in docs && docs[u].oid == oid && Tracked(docs[u])
               && IsDeadline(docs[u], entry.value, fallback, standing);
      assert u != t;
      assert Find(docs', u) == Find(docs, u);
    } else {
      forall u <- docs' | docs'[u].oid == oid ensures !Tracked(docs'[u]) {
        assert u != t ==> Find(docs', u) == Find(docs, u);
      }
    }
  }

  /** The stream's pipeline drops exactly the updates that touch none of its fields, and these would change nothing. */
  lemma DroppedEventsDoNotMatter(ev: Event, m: Index, fallback: nat)
    ensures !PassesPipeline(ev) <==>
            && ev.UpdateEvent? && ev.fields.status.None? && ev.fields.workerState.None?
            && ev.fields.heartbeatAt.None? && ev.fields.switchTimeoutMs.None?
    ensures !PassesPipeline(ev) ==> EventApplied(m, ev, fallback) == m && !AnnouncesPending(ev)
  {
  }

  lemma OtherEntriesAreKept(ev: Event, m: Index, oid: ObjectId, fallback: nat)
    requires !Settles(ev, oid)
    ensures Lookup(EventApplied(m, ev, fallback), oid) == Lookup(m, oid)
  {
  }

  /** A later event without a task id does not make the tracker forget the one it knew. */
  lemma EventKeepsTheTaskId(m: Index, ev: Event, oid: ObjectId, fallback: nat)
    requires oid in m && m[oid].taskId.Some? && !ev.InsertEvent?
    requires oid in EventApplied(m, ev, fallback)
    ensures EventApplied(m, ev, fallback)[oid].taskId == m[oid].taskId
  {
  }

  lemma StepKeepsLogInv(f: FeedState, a: FeedStep, f': FeedState, fallback: nat)
    requires LogInv(f) && FeedMoves(f, a, f', fallback)
    ensures LogInv(f')
  {
    if a.Change? {
      ApplyKeepsWellIndexed(Latest(f), a.op);
    }
    forall i | 0 <= i < |f'.log| ensures LogsChange(f', i) {
      if i < |f.log| {
        assert LogsChange(f, i);
      }
    }
  }

  /**
   A version that is not the newest unread one stays good when one more event is
   read, unless the event settles the id.
   */
  lemma ShownPastEvent(f: FeedState, oid: ObjectId, entry: Option<int>, fallback: nat, standing: Standing)
    requires LogInv(f) && f.cursor < |f.log| && !Settles(f.log[f.cursor], oid)
    requires ShownSince(f.versions, f.cursor, oid, entry, fallback, standing)
    ensures ShownSince(f.versions, f.cursor + 1, oid, entry, fallback, standing)
  {
    var c := f.cursor;
    assert LogsChange(f, c);
    var v :| c <= v < |f.versions| && Shows(f.versions[v], oid, entry, fallback, standing);
    if v == c {
      OtherEntriesStayTrue(f.versions[c], f.ops[c], f.log[c], oid, entry, fallback, standing);
      assert Shows(f.versions[c + 1], oid, entry, fallback, standing);
    }
  }

  lemma DeliverKeepsPromise(f: FeedState, f': FeedState, oid: ObjectId, standing: Standing, fallback: nat)
    requires LogInv(f) && FeedMoves(f, Deliver, f', fallback) && Promise(f, oid, standing, fallback)
    ensures Promise(f', oid, StandingAfter(f, Deliver, oid, standing, fallback), fallback)
  {
    var c := f.cursor;
    assert LogsChange(f, c);
    if Settles(f.log[c], oid) {
      EventSettlesItsDocument(f.versions[c], f.ops[c], f.log[c], f.tracker, fallback);
      assert Shows(f'.versions[c + 1], oid, Lookup(f'.tracker, oid), fallback, EventStanding(f.log[c], fallback));
    } else {
      OtherEntriesAreKept(f.log[c], f.tracker, oid, fallback);
      if !standing.Missed? && !standing.Dropped? {
        ShownPastEvent(f, oid, Lookup(f.tracker, oid), fallback, standing);
      }
    }
  }

  lemma OwnClaimKeepsPromise(f: FeedState, a: FeedStep, f': FeedState, oid: ObjectId, standing: Standing, fallback: nat)
    requires LogInv(f) && FeedMoves(f, a, f', fallback) && a.ScheduleOwnClaim? && Promise(f, oid, standing, fallback)
    ensures Promise(f', oid, StandingAfter(f, a, oid, standing, fallback), fallback)
  {
    if OwnClaimSettles(f, a, oid) {
      assert Shows(f'.versions[a.version], oid, Lookup(f'.tracker, oid), fallback, Scanned);
    } else {
      assert Lookup(f'.tracker, oid) == Lookup(f.tracker, oid);
    }
  }

  lemma PopKeepsPromise(f: FeedState, a: FeedStep, f': FeedState, oid: ObjectId, standing: Standing, fallback: nat)
    requires LogInv(f) && FeedMoves(f, a, f', fallback) && a.Pop? && Promise(f, oid, standing, fallback)
    ensures Promise(f', oid, StandingAfter(f, a, oid, standing, fallback), fallback)
  {
    if Postpones(f, a, oid) && !standing.Missed? {
      var v :| f.cursor <= v < |f.versions| && Shows(f.versions[v], oid, Lookup(f.tracker, oid), fallback, standing);
      assert Shows(f'.versions[v], oid, Lookup(f'.tracker, oid), fallback, Postponed);
    }
  }

  lemma LongerLogKeepsPromise(f: FeedState, f': FeedState, oid: ObjectId, standing: Standing, fallback: nat)
    requires Promise(f, oid, standing, fallback)
    requires f.versions <= f'.versions && f'.cursor <= f.cursor && f'.tracker == f.tracker
    ensures Promise(f', oid, standing, fallback)
  {
    if !standing.Missed? && !standing.Dropped? {
      var v :| f.cursor <= v < |f.versions| && Shows(f.versions[v], oid, Lookup(f.tracker, oid), fallback, standing);
      assert f'.versions[v] == f.versions[v];
    }
  }

  lemma StepKeepsPromise(f: FeedState, a: FeedStep, f': FeedState, oid: ObjectId, standing: Standing, fallback: nat)
    requires LogInv(f) && FeedMoves(f, a, f', fallback) && Promise(f, oid, standing, fallback)
    ensures Promise(f', oid, StandingAfter(f, a, oid, standing, fallback), fallback)
  {
    match a
    case Change(_, _) => LongerLogKeepsPromise(f, f', oid, standing, fallback);
    case Rewind(_) => LongerLogKeepsPromise(f, f', oid, standing, fallback);
    case Deliver => DeliverKeepsPromise(f, f', oid, standing, fallback);
    case Miss =>
      if !Settles(f.log[f.cursor], oid) && !standing.Missed? && !standing.Dropped? {
        ShownPastEvent(f, oid, Lookup(f.tracker, oid), fallback, standing);
      }
    case ScheduleOwnClaim(_, _) => OwnClaimKeepsPromise(f, a, f', oid, standing, fallback);
    case WholeScan(from, found) => assert ShownSince(f.versions, from, oid, Lookup(found, oid), fallback, Scanned);
    case BrokenScan(_, _) =>
    case Pop(_, _, _, _) => PopKeepsPromise(f, a, f', oid, standing, fallback);
  }

  lemma {:induction false} PromisesAreKept(
    run: seq<FeedState>, steps: seq<FeedStep>, fallback: nat, i: nat, oid: ObjectId)
    requires FeedRun(run, steps, fallback) && i < |run|
    ensures LogInv(run[i]) && Promise(run[i], oid, StandingAt(run, steps, i, oid, fallback), fallback)
  {
    if i == 0 {
    } else {
      PromisesAreKept(run, steps, fallback, i - 1, oid);
      assert MovesAt(run, steps, fallback, i - 1);
      StepKeepsLogInv(run[i - 1], steps[i - 1], run[i], fallback);
      StepKeepsPromise(run[i - 1], steps[i - 1], run[i], oid,
                       StandingAt(run, steps, i - 1, oid, fallback), fallback);
    }
  }

  ghost predicate CaughtUp(run: seq<FeedState>, steps: seq<FeedStep>, fallback: nat, i: nat) {
    FeedRun(run, steps, fallback) && i < |run| && run[i].cursor == |run[i].log|
  }

  // ----- lost events -----

  /** The number of the last event that settles `oid`, or -1. */
  function LastSettling(log: seq<Event>, oid: ObjectId): (p: int)
    ensures -1 <= p < |log| && (p >= 0 ==> Settles(log[p], oid))
    ensures forall q | p < q < |log| :: !Settles(log[q], oid)
  {
    if log == [] then -1
    else if Settles(log[|log| - 1], oid) then |log| - 1
    else LastSettling(log[..|log| - 1], oid)
  }

  /** A claim or a heartbeat. */
  predicate RenewsLease(op: Op) {
    op.Claim? || (op.Update? && op.write.BeatWrite?)
  }

  /** An event carries a timeout exactly if it is that of a claim or a heartbeat. */
  lemma CarriedIsRenewal(docs: Docs, op: Op, ev: Event, fallback: nat)
    requires Enabled(docs, op) && Describes(docs, op, ev)
    ensures EventStanding(ev, fallback).Carried? <==> RenewsLease(op)
  {
  }

  /** After the last event about an id its document is running exactly if that event was a claim or a heartbeat. */
  lemma {:induction false} LastEventDecides(f: FeedState, oid: ObjectId, v: nat)
    requires LogInv(f) && 0 <= LastSettling(f.log, oid) < v <= |f.log|
    ensures Untracked(f.versions[v], oid) <==> !RenewsLease(f.ops[LastSettling(f.log, oid)])
  {
    var p, c := LastSettling(f.log, oid), v - 1;
    assert LogsChange(f, c);
    if c == p {
      EventSettlesItsDocument(f.versions[c], f.ops[c], f.log[c], map[], 0);
      CarriedIsRenewal(f.versions[c], f.ops[c], f.log[c], 0);
    } else {
      LastEventDecides(f, oid, c);
      if Untracked(f.versions[c], oid) {
        OtherEntriesStayTrue(f.versions[c], f.ops[c], f.log[c], oid, None, 0, Postponed);
      } else {
        OtherEntriesStayTrue(f.versions[c], f.ops[c], f.log[c], oid, Some(0), 0, Postponed);
      }
    }
  }

  lemma {:induction false} LogGrows(run: seq<FeedState>, steps: seq<FeedStep>, fallback: nat, m: nat, i: nat)
    requires FeedRun(run, steps, fallback) && m <= i < |run|
    ensures run[m].log <= run[i].log && run[m].ops <= run[i].ops
  {
    if m == i {
    } else {
      LogGrows(run, steps, fallback, m, i - 1);
      assert MovesAt(run, steps, fallback, i - 1);
    }
  }

  /** Nothing between steps `n` and `i` says anything about `oid`. */
  predicate SilentBetween(run: seq<FeedState>, steps: seq<FeedStep>, n: nat, i: nat, oid: ObjectId)
    requires i <= |steps| <= |run|
  {
    forall m | n < m < i ::
      !Resettles(run[m], steps[m], oid) && !Misses(run[m], steps[m], oid) && !Drops(run[m], steps[m], oid)
  }

  /** An id is missed because of the last step that said anything about it. */
  lemma {:induction false} MissedHasCause(
    run: seq<FeedState>, steps: seq<FeedStep>, fallback: nat, i: nat, oid: ObjectId)
    returns (n: nat)
    requires |run| == |steps| + 1 && i < |run| && StandingAt(run, steps, i, oid, fallback).Missed?
    ensures n < i && Misses(run[n], steps[n], oid) && SilentBetween(run, steps, n, i, oid)
  {
    if i == 0 {
      assert false;
    } else if Misses(run[i - 1], steps[i - 1], oid) {
      n := i - 1;
    } else {
      n := MissedHasCause(run, steps, fallback, i - 1, oid);
    }
  }

  /** The worker cannot get past an event about `oid` in silence. */
  lemma {:induction false} CursorStaysBehind(
    run: seq<FeedState>, steps: seq<FeedStep>, fallback: nat, n: nat, m: nat, i: nat, oid: ObjectId, q: nat)
    requires FeedRun(run, steps, fallback) && n < m <= i < |run| && SilentBetween(run, steps, n, i, oid)
    requires run[n + 1].cursor <= q < |run[i].log| && Settles(run[i].log[q], oid)
    ensures run[m].cursor <= q
  {
    if m == n + 1 {
    } else {
      CursorStaysBehind(run, steps, fallback, n, m - 1, i, oid, q);
      assert MovesAt(run, steps, fallback, m - 1);
      LogGrows(run, steps, fallback, m - 1, i);
    }
  }

  /** When every event has been read or lost, the event that was lost of a missed id is the last one about it. */
  lemma LostEventIsTheLast(run: seq<FeedState>, steps: seq<FeedStep>, fallback: nat, i: nat, oid: ObjectId)
    returns (n: nat)
    requires CaughtUp(run, steps, fallback, i) && StandingAt(run, steps, i, oid, fallback).Missed?
    ensures n < i && steps[n].Miss? && run[n].cursor == LastSettling(run[i].log, oid)
  {
    n := MissedHasCause(run, steps, fallback, i, oid);
    LogGrows(run, steps, fallback, n, i);
    assert MovesAt(run, steps, fallback, n);
    var q := LastSettling(run[i].log, oid);
    if q > run[n].cursor {
      CursorStaysBehind(run, steps, fallback, n, i, i, oid, q);
    }
  }

  /**
   A witness: the event of a success is lost when the stream is reopened and the
   scan's query fails. The worker has caught up, and tracks a finished document.
   */
  lemma LostEventMisleads(d: Doc, wr: Write, fallback: nat)
    returns (run: seq<FeedState>, steps: seq<FeedStep>)
    requires Tracked(d) && wr.SuccessWrite? && Matches(map[d.taskId := d], wr)
    ensures CaughtUp(run, steps, fallback, |steps|)
    ensures Lookup(run[|steps|].tracker, d.oid).Some? && Untracked(Latest(run[|steps|]), d.oid)
  {
    var docs, found := map[d.taskId := d], Scheduled(map[], d, fallback);
    var op, ev := Update(wr), UpdateEvent(d.oid, UpdatedFields(Some(Succeeded), None, None, None));
    var docs' := Apply(docs, op);
    assert docs'[d.taskId].status == Some(Succeeded);
    var s0 := FeedState([docs], [], [], 0, map[]);
    var s1 := s0.(tracker := found);
    var s2 := FeedState([docs, docs'], [op], [ev], 0, found);
    var s3 := s2.(cursor := 1);
    run, steps := [s0, s1, s2, s3], [WholeScan(0, found), Change(op, ev), Miss];
    forall oid ensures ShownSince([docs], 0, oid, Lookup(found, oid), fallback, Scanned) {
      assert Shows([docs][0], oid, Lookup(found, oid), fallback, Scanned);
    }
    assert [docs][0][d.taskId].oid == d.oid;
    assert IsIdOf([docs], d.oid, d.taskId);
    forall i | 0 <= i < |steps| ensures MovesAt(run, steps, fallback, i) {
    }
  }

  /**
   What a tracker that has read every event is good for, id by id, after any
   mixture of changes, late, replayed and lost events, whole and broken scans, own
   claims, pops and deferrals. Unless an event about it was lost, a tracked
   document is running, and it has the deadline that its standing makes it; what is
   settled and not tracked is not running. If an event was lost, the document is
   running exactly if the last event about it, the lost one, was a claim or a heartbeat.
   */
  lemma CaughtUpIsTrue(run: seq<FeedState>, steps: seq<FeedStep>, fallback: nat, i: nat, oid: ObjectId)
    requires CaughtUp(run, steps, fallback, i)
    ensures var st, entry := StandingAt(run, steps, i, oid, fallback), Lookup(run[i].tracker, oid);
            && (entry.Some? && !st.Missed? ==> Shows(Latest(run[i]), oid, entry, fallback, st))
            && (entry.None? && (st.Scanned? || st.Carried?) ==> Untracked(Latest(run[i]), oid))
    ensures StandingAt(run, steps, i, oid, fallback).Missed? ==>
              var p := LastSettling(run[i].log, oid);
              && 0 <= p < |run[i].ops|
              && (Untracked(Latest(run[i]), oid) <==> !RenewsLease(run[i].ops[p]))
  {
    PromisesAreKept(run, steps, fallback, i, oid);
    if StandingAt(run, steps, i, oid, fallback).Missed? {
      var n := LostEventIsTheLast(run, steps, fallback, i, oid);
      LastEventDecides(run[i], oid, |run[i].log|);
    }
  }

  /**
   A running document that a caught-up tracker does not have was popped, or not
   reached by a scan, or an event about it was lost, or there has been no scan yet;
   and nothing that settles it has come since.
   */
  lemma AbsentHasCause(run: seq<FeedState>, steps: seq<FeedStep>, fallback: nat, i: nat, oid: ObjectId)
    returns (m: nat)
    requires CaughtUp(run, steps, fallback, i)
    requires Lookup(run[i].tracker, oid).None? && !Untracked(Latest(run[i]), oid)
    ensures m <= i && (m > 0 ==> Drops(run[m - 1], steps[m - 1], oid) || Misses(run[m - 1], steps[m - 1], oid))
    ensures forall n | m <= n < i :: !Resettles(run[n], steps[n], oid)
  {
    PromisesAreKept(run, steps, fallback, i, oid);
    m := UnsettledHasCause(run, steps, fallback, i, oid);
  }

  lemma {:induction false} UnsettledHasCause(
    run: seq<FeedState>, steps: seq<FeedStep>, fallback: nat, i: nat, oid: ObjectId)
    returns (m: nat)
    requires |run| == |steps| + 1 && i < |run|
    requires StandingAt(run, steps, i, oid, fallback).Dropped? || StandingAt(run, steps, i, oid, fallback).Missed?
    ensures m <= i && (m > 0 ==> Drops(run[m - 1], steps[m - 1], oid) || Misses(run[m - 1], steps[m - 1], oid))
    ensures forall n | m <= n < i :: !Resettles(run[n], steps[n], oid)
  {
    if i == 0 || Drops(run[i - 1], steps[i - 1], oid) || Misses(run[i - 1], steps[i - 1], oid) {
      m := i;
    } else {
      m := UnsettledHasCause(run, steps, fallback, i - 1, oid);
    }
  }

  // ----- task ids -----

  lemma IdsOfMoreVersions(versions: seq<Docs>, more: seq<Docs>, m: Index)
    requires KnownIn(versions, m) && versions <= more
    ensures KnownIn(more, m)
  {
    forall oid <- m | m[oid].taskId.Some? ensures IsIdOf(more, oid, m[oid].taskId.value) {
      var v :| 0 <= v < |versions| && m[oid].taskId.value in versions[v]
               && versions[v][m[oid].taskId.value].oid == oid;
      assert more[v] == versions[v];
    }
  }

  lemma StepKeepsIds(f: FeedState, a: FeedStep, f': FeedState, fallback: nat)
    requires LogInv(f) && FeedMoves(f, a, f', fallback) && KnownIn(f.versions, f.tracker)
    ensures KnownIn(f'.versions, f'.tracker)
  {
    match a
    case Change(_, _) => IdsOfMoreVersions(f.versions, f'.versions, f.tracker);
    case Deliver => assert LogsChange(f, f.cursor);
    case ScheduleOwnClaim(version, t) =>
      assert f.versions[version][t].taskId == t;
      assert IsIdOf(f.versions, f.versions[version][t].oid, t);
    case _ =>
  }

  lemma {:induction false} IdsAreKnown(run: seq<FeedState>, steps: seq<FeedStep>, fallback: nat, i: nat, oid: ObjectId)
    requires FeedRun(run, steps, fallback) && i < |run|
    ensures KnownIn(run[i].versions, run[i].tracker)
  {
    if i == 0 {
    } else {
      IdsAreKnown(run, steps, fallback, i - 1, oid);
      PromisesAreKept(run, steps, fallback, i - 1, oid);
      assert MovesAt(run, steps, fallback, i - 1);
      StepKeepsIds(run[i - 1], steps[i - 1], run[i], fallback);
    }
  }

  /** An object id belongs to one task for ever. */
  ghost predicate StableIds(versions: seq<Docs>) {
    forall v, w, t, u | 0 <= v < |versions| && 0 <= w < |versions| && t in versions[v] && u in versions[w]
                        && versions[v][t].oid == versions[w][u].oid :: t == u
  }

  /**
   The task id that the tracker knows for an object id is that of its document: a
   targeted claim asks for the right task.
   */
  lemma KnownIdIsRight(run: seq<FeedState>, steps: seq<FeedStep>, fallback: nat, i: nat, t: TaskId)
    requires FeedRun(run, steps, fallback) && i < |run| && StableIds(run[i].versions) && t in Latest(run[i])
    ensures var oid := Latest(run[i])[t].oid;
            oid in run[i].tracker && run[i].tracker[oid].taskId.Some? ==> run[i].tracker[oid].taskId == Some(t)
  {
    var f, oid := run[i], Latest(run[i])[t].oid;
    IdsAreKnown(run, steps, fallback, i, oid);
    PromisesAreKept(run, steps, fallback, i, oid);
    if oid in f.tracker && f.tracker[oid].taskId.Some? {
      assert IsIdOf(f.versions, oid, f.tracker[oid].taskId.value);
      assert f.versions[|f.versions| - 1][t].oid == oid;
    }
  }

  /** A scan and an own claim make the tracker know the task id. */
  lemma ScheduledIdIsKnown(m: Index, d: Doc, fallback: nat)
    requires Tracked(d)
    ensures d.oid in Scheduled(m, d, fallback) && Scheduled(m, d, fallback)[d.oid].taskId == Some(d.taskId)
  {
  }

  // ----- deadlines -----

  /** Two timeouts give the same deadline: they are equal, or both saturate. */
  predicate SameDeadline(heartbeatAt: int, a: nat, b: nat) {
    a == b || (heartbeatAt + a >= I64_MAX && heartbeatAt + b >= I64_MAX)
  }

  /**
   The timeout an event carries: a claim's the claimant's default, a heartbeat's
   none, so that the tracker's own is used.
   */
  lemma EventCarries(docs: Docs, op: Op, ev: Event, fallback: nat)
    requires Enabled(docs, op) && Describes(docs, op, ev)
    requires op.Claim? || (op.Update? && op.write.BeatWrite?)
    ensures EventStanding(ev, fallback) ==
            Carried(if op.Claim? then TimeoutOr(Some(TruncateToI64(op.defaultMs)), fallback) else fallback)
  {
  }

  /**
   When a caught-up tracker has the deadline that a scan would give: always if a
   scan or an own claim settled the id last, and if an event did exactly when the
   timeout it carried gives the same deadline as the task's own.
   */
  lemma DeadlineIsExactIff(run: seq<FeedState>, steps: seq<FeedStep>, fallback: nat, i: nat, t: TaskId)
    requires CaughtUp(run, steps, fallback, i)
    requires t in Latest(run[i]) && Tracked(Latest(run[i])[t]) && 0 <= Heartbeat(Latest(run[i])[t]).value
    ensures var d := Latest(run[i])[t];
            var st, entry := StandingAt(run, steps, i, d.oid, fallback), Lookup(run[i].tracker, d.oid);
            && (st.Scanned? ==> entry == Some(Deadline(d, fallback)))
            && (st.Carried? ==>
                  (entry == Some(Deadline(d, fallback)) <==>
                   SameDeadline(Heartbeat(d).value, st.timeoutMs, TaskSwitchTimeout(d, fallback))))
  {
    var d := Latest(run[i])[t];
    PromisesAreKept(run, steps, fallback, i, d.oid);
    CaughtUpIsTrue(run, steps, fallback, i, d.oid);
  }

  /**
   An abandoned task wakes the worker: if the lease of a running document is over,
   a caught-up tracker has its entry due; or the entry was popped, deferred or not
   reached by a scan, or an event about it was lost, or the last event about it
   carried a longer timeout than the task's own.
   */
  lemma ExpiredIsDue(run: seq<FeedState>, steps: seq<FeedStep>, fallback: nat, i: nat, t: TaskId, now: int)
    requires CaughtUp(run, steps, fallback, i) && t in Latest(run[i]) && now < I64_MAX
    requires var d := Latest(run[i])[t];
             && StaleAt(d, now, fallback) && 0 <= Heartbeat(d).value
             && (StoredTimeout(d).Some? ==> StoredTimeout(d).value <= I64_MAX)
             && FilterTimeout(d, fallback) == TaskSwitchTimeout(d, fallback)
    ensures var d := Latest(run[i])[t];
            var st := StandingAt(run, steps, i, d.oid, fallback);
            || IsDue(run[i].tracker, d.oid, now)
            || st.Dropped? || st.Postponed? || st.Missed?
            || (st.Carried? && st.timeoutMs > TaskSwitchTimeout(d, fallback))
  {
    var d := Latest(run[i])[t];
    DueIffStale(d, fallback, now);
    PromisesAreKept(run, steps, fallback, i, d.oid);
    CaughtUpIsTrue(run, steps, fallback, i, d.oid);
  }

  /** A carried timeout is that of the last event that settled the id, and nothing has changed its word since. */
  lemma {:induction false} CarriedHasCause(
    run: seq<FeedState>, steps: seq<FeedStep>, fallback: nat, i: nat, oid: ObjectId)
    returns (m: nat)
    requires |run| == |steps| + 1 && i < |run| && StandingAt(run, steps, i, oid, fallback).Carried?
    ensures m < i && steps[m].Deliver? && NextSettles(run[m], oid)
    ensures StandingAt(run, steps, i, oid, fallback) == EventStanding(run[m].log[run[m].cursor], fallback)
    ensures forall n | m < n < i :: !Resettles(run[n], steps[n], oid) && !Drops(run[n], steps[n], oid)
                                    && !Postpones(run[n], steps[n], oid) && !Misses(run[n], steps[n], oid)
  {
    if i == 0 {
      assert false;
    } else if Resettles(run[i - 1], steps[i - 1], oid) {
      m := i - 1;
    } else {
      m := CarriedHasCause(run, steps, fallback, i - 1, oid);
    }
  }

  /** A witness: the heartbeat of a task with a minute's timeout, read by a worker whose default is ten seconds. */
  lemma HeartbeatEventMisleads(docs: Docs, wr: Write, m: Index)
    requires wr.BeatWrite? && wr.at == 1_000 && Matches(docs, wr) && docs[wr.taskId].switchTimeoutMs == Some(60_000)
    ensures var d := Apply(docs, Update(wr))[wr.taskId];
            var ev := UpdateEvent(d.oid, UpdatedFields(None, None, Some(1_000), None));
            && Describes(docs, Update(wr), ev)
            && Lookup(EventApplied(m, ev, 10_000), d.oid) == Some(11_000)
            && Tracked(d) && Deadline(d, 10_000) == 61_000
  {
  }

  // ----- incremental equals rescan -----

  /** One timeout everywhere, and it is the tracker's own default. */
  predicate UniformOp(op: Op, fallback: nat) {
    match op
    case Enqueue(req, _, _) => TruncateToI64(req.switchTimeoutMs) == fallback
    case Claim(_, _, _, _, defaultMs, _) => TruncateToI64(defaultMs) == fallback
    case _ => true
  }

  predicate UniformDocs(docs: Docs, fallback: nat) {
    forall t <- docs :: docs[t].switchTimeoutMs == Some(fallback)
  }

  predicate Uniform(f: FeedState, fallback: nat) {
    && f.versions != [] && UniformDocs(f.versions[0], fallback)
    && forall i | 0 <= i < |f.ops| :: UniformOp(f.ops[i], fallback)
  }

  lemma UniformIsKept(docs: Docs, op: Op, fallback: nat)
    requires UniformDocs(docs, fallback) && UniformOp(op, fallback)
    ensures UniformDocs(Apply(docs, op), fallback)
  {
  }

  lemma {:induction false} UniformThroughout(f: FeedState, fallback: nat, v: nat)
    requires LogInv(f) && Uniform(f, fallback) && v < |f.versions|
    ensures UniformDocs(f.versions[v], fallback)
  {
    if v == 0 {
    } else {
      UniformThroughout(f, fallback, v - 1);
      assert LogsChange(f, v - 1);
      UniformIsKept(f.versions[v - 1], f.ops[v - 1], fallback);
    }
  }

  lemma {:induction false} UniformBefore(
    run: seq<FeedState>, steps: seq<FeedStep>, fallback: nat, m: nat, i: nat)
    requires FeedRun(run, steps, fallback) && m <= i < |run| && Uniform(run[i], fallback)
    ensures Uniform(run[m], fallback)
  {
    if m == i {
    } else {
      var f, f' := run[i - 1], run[i];
      assert MovesAt(run, steps, fallback, i - 1);
      assert f'.versions[0] == f.versions[0];
      assert f.ops <= f'.ops;
      UniformBefore(run, steps, fallback, m, i - 1);
    }
  }

  /** With one timeout every event carries it. */
  lemma UniformCarries(run: seq<FeedState>, steps: seq<FeedStep>, fallback: nat, i: nat, oid: ObjectId)
    requires FeedRun(run, steps, fallback) && i < |run| && Uniform(run[i], fallback)
    requires StandingAt(run, steps, i, oid, fallback).Carried?
    ensures StandingAt(run, steps, i, oid, fallback) == Carried(fallback)
  {
    var m := CarriedHasCause(run, steps, fallback, i, oid);
    UniformBefore(run, steps, fallback, m, i);
    PromisesAreKept(run, steps, fallback, m, oid);
    var f := run[m];
    assert LogsChange(f, f.cursor) && UniformOp(f.ops[f.cursor], fallback);
    EventSettlesItsDocument(f.versions[f.cursor], f.ops[f.cursor], f.log[f.cursor], f.tracker, fallback);
    SettlingEventCarriesTheUniform(f.versions[f.cursor], f.ops[f.cursor], f.log[f.cursor], fallback);
  }

  lemma SettlingEventCarriesTheUniform(docs: Docs, op: Op, ev: Event, fallback: nat)
    requires Enabled(docs, op) && Describes(docs, op, ev) && UniformOp(op, fallback)
    ensures EventStanding(ev, fallback).Carried? ==> EventStanding(ev, fallback) == Carried(fallback)
  {
  }

  predicate Disturbs(a: FeedStep) {
    a.Miss? || a.BrokenScan? || a.Pop?
  }

  lemma {:induction false} SettledAfterScan(
    run: seq<FeedState>, steps: seq<FeedStep>, fallback: nat, from: nat, i: nat, oid: ObjectId)
    requires FeedRun(run, steps, fallback) && from < i < |run| && steps[from].WholeScan?
    requires forall m | from < m < i :: !Disturbs(steps[m])
    ensures StandingAt(run, steps, i, oid, fallback).Scanned? || StandingAt(run, steps, i, oid, fallback).Carried?
  {
    if i == from + 1 {
    } else {
      SettledAfterScan(run, steps, fallback, from, i - 1, oid);
    }
  }

  /**
   Incremental equals rescan. Once a scan has come to its end, and with no pops,
   lost events or broken scans since, a tracker that has read every event tracks
   exactly the documents a fresh scan would track; if one timeout is used
   throughout, with exactly the scan's deadlines.
   */
  lemma IncrementalEqualsRescan(
    run: seq<FeedState>, steps: seq<FeedStep>, fallback: nat, from: nat, i: nat, oid: ObjectId)
    requires CaughtUp(run, steps, fallback, i) && from < i && steps[from].WholeScan?
    requires forall m | from < m < i :: !Disturbs(steps[m])
    ensures var entry := Lookup(run[i].tracker, oid);
            && Shows(Latest(run[i]), oid, entry, fallback, Postponed)
            && (Uniform(run[i], fallback) ==> Shows(Latest(run[i]), oid, entry, fallback, Scanned))
  {
    SettledAfterScan(run, steps, fallback, from, i, oid);
    CaughtUpIsTrue(run, steps, fallback, i, oid);
    if Uniform(run[i], fallback) {
      PromisesAreKept(run, steps, fallback, i, oid);
      UniformThroughout(run[i], fallback, |run[i].versions| - 1);
      if StandingAt(run, steps, i, oid, fallback).Carried? {
        UniformCarries(run, steps, fallback, i, oid);
      }
    }
  }

  /** With one timeout, such a tracker and any tracker fresh from a scan have the same deadlines. */
  lemma CaughtUpIsRescanned(
    run: seq<FeedState>, steps: seq<FeedStep>, fallback: nat, from: nat, i: nat, rescanned: Index, oid: ObjectId)
    requires CaughtUp(run, steps, fallback, i) && from < i && steps[from].WholeScan?
    requires forall m | from < m < i :: !Disturbs(steps[m])
    requires Uniform(run[i], fallback) && Agrees(rescanned, Latest(run[i]), fallback)
    ensures Lookup(run[i].tracker, oid) == Lookup(rescanned, oid)
  {
    forall x ensures Shows(Latest(run[i]), x, Lookup(run[i].tracker, x), fallback, Scanned) {
      IncrementalEqualsRescan(run, steps, fallback, from, i, x);
    }
    PromisesAreKept(run, steps, fallback, i, oid);
    AgreementDeterminesDeadlines(run[i].tracker, rescanned, Latest(run[i]), fallback, oid);
  }
}
