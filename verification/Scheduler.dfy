/**
 One worker process: its loop, its pumps, its permits, its in-flight registry and
 the futures it spawned, interleaved step by step with callers, other workers and
 its own handlers. The pumps are cut at every point where something else can run.
 */
module Scheduler {
  import opened Prelude
  import opened Documents
  import opened Store

  /** A spawned future: running, its in-flight guard dropped, or its permit dropped too and waiting to be joined. */
  datatype Phase = Active | Unguarded | Released
  datatype Spawned = Spawned(taskId: TaskId, phase: Phase)
  datatype Slot = Slot(number: nat)

  /** Where the loop stands. All but the first group hold a permit. */
  datatype Pc =
    | Parked
    | Stopped
    | Acquire(mode: Mode)
    | NextDue(due: seq<Target>)
    | Snapshot(mode: Mode)
    | ClaimFirst(mode: Mode, excluded: set<TaskId>)
    | ClaimOwn(excluded: set<TaskId>)
    | Start(mode: Mode, claimed: TaskId)
    | SnapshotDue(next: Target, due: seq<Target>)
    | ClaimDue(next: Target, due: seq<Target>, excluded: set<TaskId>)
    | StartDue(due: seq<Target>, claimed: TaskId)
  {
    predicate HoldsPermit() {
      !Parked? && !Stopped? && !Acquire? && !NextDue?
    }

    /** A Ready pump that has yet to look for pending documents. */
    predicate Armed() {
      (Acquire? || Snapshot? || ClaimFirst? || Start?) && mode == Ready
    }

    predicate HasExcluded() {
      ClaimFirst? || ClaimOwn? || ClaimDue?
    }
  }

  /**
   `stream` is the next unread position of an open change stream; `lookupFailed`
   that the last Ready pump's lookup of pending documents returned an error.
   */
  datatype Worker = Worker(
    id: WorkerId,
    capacity: nat,
    available: nat,
    inFlight: set<TaskId>,
    tasks: map<Slot, Spawned>,
    pc: Pc,
    stream: Option<nat>,
    lookupFailed: bool)

  datatype World = World(docs: Docs, log: seq<Event>, worker: Worker)

  datatype Step =
    | Environment(op: Op, ev: Event)
    | DropGuard(slot: Slot)
    | DropPermit(slot: Slot)
    | OpenStream(reached: bool)
    | StreamUnsupported
    | Stop
    | ReadEvent
    | StreamBreaks
    | Join(slot: Slot)
    | PeriodicTick
    | ExpiryTimer(due: seq<Target>)
    | TryAcquire
    | TakeSnapshot
    | ClaimSome(op: Op, now: int, ev: Event)
    | ClaimNone(now: int, defaultMs: nat)
    | ClaimError
    | StartTask(slot: Slot)

  // ----- the steps -----

  function Emit(w: World, op: Op, ev: Event): World {
    if Apply(w.docs, op) == w.docs then w
    else w.(docs := Apply(w.docs, op), log := w.log + [ev])
  }

  function Goto(w: World, pc: Pc): World {
    w.(worker := w.worker.(pc := pc))
  }

  /** A Ready pump begins: it forgets an earlier failure. */
  function StartReadyPump(w: World): World {
    w.(worker := w.worker.(pc := Acquire(Ready), lookupFailed := false))
  }

  function GiveBack(w: World, pc: Pc): World {
    w.(worker := w.worker.(pc := pc, available := w.worker.available + 1))
  }

  /** The `InFlightGuard` of a finished, failed, aborted or panicked future is dropped before its permit. */
  function GuardDropped(wk: Worker, slot: Slot): Worker
    requires slot in wk.tasks
  {
    wk.(tasks := wk.tasks[slot := wk.tasks[slot].(phase := Unguarded)],
        inFlight := wk.inFlight - {wk.tasks[slot].taskId})
  }

  /** The permit of such a future is dropped, and it waits to be joined. */
  function PermitDropped(wk: Worker, slot: Slot): Worker
    requires slot in wk.tasks
  {
    wk.(tasks := wk.tasks[slot := wk.tasks[slot].(phase := Released)], available := wk.available + 1)
  }

  /** A join starts a Ready pump, unless the loop has already been told to stop. */
  function Joined(wk: Worker, slot: Slot): Worker {
    wk.(tasks := wk.tasks - {slot},
        pc := if wk.pc.Parked? then Acquire(Ready) else wk.pc,
        lookupFailed := wk.lookupFailed && !wk.pc.Parked?)
  }

  /** `spawn_claimed_task`, with its branch for a task that is already in flight. */
  function Started(wk: Worker, slot: Slot): Worker
    requires wk.pc.Start? || wk.pc.StartDue?
  {
    var pc := if wk.pc.Start? then Acquire(wk.pc.mode) else NextDue(wk.pc.due);
    if wk.pc.claimed in wk.inFlight
    then wk.(pc := pc, available := wk.available + 1)
    else wk.(pc := pc,
             inFlight := wk.inFlight + {wk.pc.claimed},
             tasks := wk.tasks[slot := Spawned(wk.pc.claimed, Active)])
  }

  /** The query of the claim the loop is about to make. */
  function Query(wk: Worker, now: int, defaultMs: nat): Filter
    requires wk.pc.HasExcluded()
  {
    match wk.pc
    case ClaimFirst(mode, excluded) => ModeFilters(wk.id, defaultMs, excluded, mode, now)[0]
    case ClaimOwn(excluded) => ModeFilters(wk.id, defaultMs, excluded, Ready, now)[1]
    case ClaimDue(next, _, excluded) => TargetFilter(next.oid, next.known, wk.id, defaultMs, excluded, now)
  }

  predicate MayClaim(w: World, t: TaskId, now: int, defaultMs: nat)
    requires w.worker.pc.HasExcluded()
  {
    && t in w.docs && Selects(Query(w.worker, now, defaultMs), w.docs[t])
    && (w.worker.pc.ClaimDue? ==> !RefusedUpFront(w.worker.pc.next.known, w.worker.pc.excluded))
  }

  ghost predicate NothingToClaim(w: World, now: int, defaultMs: nat)
    requires w.worker.pc.HasExcluded()
  {
    forall t <- w.docs :: !MayClaim(w, t, now, defaultMs)
  }

  ghost predicate Moves(w: World, a: Step, w': World) {
    var wk := w.worker;
    match a
    case Environment(op, ev) =>
      Enabled(w.docs, op) && (Apply(w.docs, op) != w.docs ==> Describes(w.docs, op, ev)) && w' == Emit(w, op, ev)
    case DropGuard(slot) =>
      slot in wk.tasks && wk.tasks[slot].phase == Active && w' == w.(worker := GuardDropped(wk, slot))
    case DropPermit(slot) =>
      slot in wk.tasks && wk.tasks[slot].phase == Unguarded && w' == w.(worker := PermitDropped(wk, slot))
    case OpenStream(reached) =>
      && wk.pc.Parked? && wk.stream.None?
      && w' == StartReadyPump(w.(worker := wk.(stream := if reached then Some(|w.log|) else None)))
    case StreamUnsupported => wk.pc.Parked? && wk.stream.None? && w' == Goto(w, Stopped)
    case Stop => wk.pc.Parked? && wk.stream.Some? && w' == Goto(w, Stopped)
    case ReadEvent =>
      && wk.pc.Parked? && wk.stream.Some? && wk.stream.value < |w.log|
      && var after := w.(worker := wk.(stream := Some(wk.stream.value + 1)));
      w' == if AnnouncesPending(w.log[wk.stream.value]) then StartReadyPump(after) else after
    case StreamBreaks =>
      wk.pc.Parked? && wk.stream.Some? && w' == w.(worker := wk.(stream := None))
    case Join(slot) =>
      && ((wk.pc.Parked? && wk.stream.Some?) || wk.pc.Stopped?)
      && slot in wk.tasks && wk.tasks[slot].phase == Released
      && w' == w.(worker := Joined(wk, slot))
    case PeriodicTick => wk.pc.Parked? && wk.stream.Some? && w' == Goto(w, Acquire(StaleRecovery))
    case ExpiryTimer(due) => wk.pc.Parked? && wk.stream.Some? && w' == Goto(w, NextDue(due))
    case TryAcquire =>
      (match wk.pc
       case Acquire(mode) =>
         w' == if wk.available == 0 then Goto(w, Parked)
               else w.(worker := wk.(available := wk.available - 1, pc := Snapshot(mode)))
       case NextDue(due) =>
         w' == if due == [] then Goto(w, Parked)
               else if RefusedUpFront(due[0].known, wk.inFlight) then Goto(w, NextDue(due[1..]))
               else if wk.available == 0 then Goto(w, Parked)
               else w.(worker := wk.(available := wk.available - 1, pc := SnapshotDue(due[0], due[1..])))
       case _ => false)
    case TakeSnapshot =>
      (match wk.pc
       case Snapshot(mode) => w' == Goto(w, ClaimFirst(mode, wk.inFlight))
       case SnapshotDue(next, due) => w' == Goto(w, ClaimDue(next, due, wk.inFlight))
       case _ => false)
    case ClaimSome(op, now, ev) =>
      && wk.pc.HasExcluded() && op.Claim? && op.workerId == wk.id && MayClaim(w, op.taskId, now, op.defaultMs)
      && op.path == Query(wk, now, op.defaultMs).path
      && (Apply(w.docs, op) != w.docs ==> Describes(w.docs, op, ev))
      && w' == Goto(Emit(w, op, ev),
                    match wk.pc
                    case ClaimFirst(mode, _) => Start(mode, op.taskId)
                    case ClaimDue(_, due, _) => StartDue(due, op.taskId)
                    case _ => Start(Ready, op.taskId))
    case ClaimNone(now, defaultMs) =>
      && wk.pc.HasExcluded() && NothingToClaim(w, now, defaultMs)
      && w' == (match wk.pc
                case ClaimFirst(Ready, excluded) => Goto(w, ClaimOwn(excluded))
                case ClaimDue(_, due, _) => GiveBack(w, NextDue(due))
                case _ => GiveBack(w, Parked))
    case ClaimError =>
      (match wk.pc
       case ClaimFirst(mode, _) =>
         w' == GiveBack(w.(worker := wk.(lookupFailed := wk.lookupFailed || mode == Ready)), Parked)
       case ClaimOwn(_) => w' == GiveBack(w, Parked)
       case ClaimDue(_, due, _) => w' == GiveBack(w, NextDue(due))
       case _ => false)
    case StartTask(slot) =>
      && slot !in wk.tasks && (wk.pc.Start? || wk.pc.StartDue?)
      && w' == w.(worker := Started(wk, slot))
  }

  /** A process that has not yet opened its stream, on any collection. */
  ghost predicate Starts(w: World) {
    var wk := w.worker;
    && wk.available == wk.capacity && wk.inFlight == {} && wk.tasks == map[]
    && wk.pc == Parked && wk.stream.None? && !wk.lookupFailed
    && WellIndexed(w.docs)
  }

  ghost predicate Run(run: seq<World>, steps: seq<Step>) {
    && |run| == |steps| + 1
    && Starts(run[0])
    && forall i | 0 <= i < |steps| :: Moves(run[i], steps[i], run[i + 1])
  }

  // ----- permits and the in-flight registry -----

  /** Futures that have not given their permit back. */
  function Holding(wk: Worker): set<Slot> {
    set s | s in wk.tasks && wk.tasks[s].phase != Released
  }

  function Handlers(wk: Worker): set<Slot> {
    set s | s in wk.tasks && wk.tasks[s].phase == Active
  }

  function PermitOf(pc: Pc): nat {
    if pc.HoldsPermit() then 1 else 0
  }

  ghost predicate PermitsInv(wk: Worker) {
    wk.available + PermitOf(wk.pc) + |Holding(wk)| == wk.capacity
  }

  /** A running handler belongs to the registered task. */
  ghost predicate Registered(wk: Worker, t: TaskId) {
    exists s :: s in wk.tasks && wk.tasks[s] == Spawned(t, Active)
  }

  /** The registry is exactly the set of tasks with a running handler, one handler each. */
  ghost predicate FlightInv(wk: Worker) {
    && OneEach(wk)
    && (forall t <- wk.inFlight :: Registered(wk, t))
    && |wk.inFlight| == |Handlers(wk)|
  }

  ghost predicate OneEach(wk: Worker) {
    && (forall s <- wk.tasks | wk.tasks[s].phase == Active :: wk.tasks[s].taskId in wk.inFlight)
    && (forall s, u | s in wk.tasks && u in wk.tasks && wk.tasks[s].phase == Active && wk.tasks[u] == wk.tasks[s] ::
          s == u)
  }

  /** Some future has left the registry and is not joined yet. */
  ghost predicate Exiting(wk: Worker) {
    exists s :: s in wk.tasks && wk.tasks[s].phase != Active
  }

  /** The snapshot still contains every task in flight; what it has too much has just left. */
  ghost predicate ExcludedInv(wk: Worker) {
    && (wk.pc.HasExcluded() ==>
          wk.inFlight <= wk.pc.excluded && (forall t <- wk.pc.excluded :: t in wk.inFlight || Exiting(wk)))
    && (wk.pc.Start? || wk.pc.StartDue? ==> wk.pc.claimed !in wk.inFlight)
  }

  // ----- wakeups -----

  /** An unread event announces the document. */
  ghost predicate Announced(w: World, t: TaskId)
    requires t in w.docs
  {
    && w.worker.stream.Some?
    && exists e ::
         w.worker.stream.value <= e < |w.log| && AnnouncesPending(w.log[e]) && EventOid(w.log[e]) == w.docs[t].oid
  }

  /** Every permit is with a future that has not begun to exit. */
  predicate Full(wk: Worker) {
    wk.available == 0 && !wk.pc.HoldsPermit()
  }

  predicate Waits(w: World, t: TaskId) {
    t in w.docs && w.docs[t].status == Some(Pending) && t !in w.worker.inFlight
  }

  ghost predicate Covered(w: World, t: TaskId)
    requires t in w.docs
  {
    w.worker.pc.Armed() || Full(w.worker) || Exiting(w.worker) || Announced(w, t)
  }

  ghost predicate WakeInv(w: World) {
    && (w.worker.stream.Some? ==> w.worker.stream.value <= |w.log|)
    && (w.worker.stream.Some? && !w.worker.lookupFailed && !w.worker.pc.Stopped? ==>
          forall t | Waits(w, t) :: Covered(w, t))
  }

  ghost predicate Inv(w: World) {
    WellIndexed(w.docs) && PermitsInv(w.worker) && FlightInv(w.worker) && ExcludedInv(w.worker) && WakeInv(w)
  }

  // ----- every step keeps the invariant -----

  predicate MovesAFuture(a: Step) {
    a.DropGuard? || a.DropPermit? || a.Join? || a.StartTask?
  }

  /** The other steps leave the futures alone and hand the loop's permit over without loss. */
  lemma LoopStepsKeepFutures(w: World, a: Step, w': World)
    requires Moves(w, a, w') && !MovesAFuture(a)
    ensures var wk, wk' := w.worker, w'.worker;
            && wk'.tasks == wk.tasks && wk'.inFlight == wk.inFlight && wk'.capacity == wk.capacity
            && wk'.available + PermitOf(wk'.pc) == wk.available + PermitOf(wk.pc)
  {
  }

  lemma DropsAndJoinsKeepPermits(wk: Worker, slot: Slot)
    requires PermitsInv(wk) && slot in wk.tasks
    ensures wk.tasks[slot].phase == Active ==> PermitsInv(GuardDropped(wk, slot))
    ensures wk.tasks[slot].phase == Unguarded ==> PermitsInv(PermitDropped(wk, slot))
    ensures wk.tasks[slot].phase == Released ==> PermitsInv(Joined(wk, slot))
  {
    match wk.tasks[slot].phase {
      case Active => assert Holding(GuardDropped(wk, slot)) == Holding(wk);
      case Unguarded => assert Holding(PermitDropped(wk, slot)) == Holding(wk) - {slot};
      case Released => assert Holding(Joined(wk, slot)) == Holding(wk);
    }
  }

  lemma StartKeepsPermits(wk: Worker, slot: Slot)
    requires PermitsInv(wk) && slot !in wk.tasks && (wk.pc.Start? || wk.pc.StartDue?)
    ensures PermitsInv(Started(wk, slot))
  {
    if wk.pc.claimed in wk.inFlight {
      assert Holding(Started(wk, slot)) == Holding(wk);
    } else {
      assert Holding(Started(wk, slot)) == Holding(wk) + {slot};
    }
  }

  lemma PermitsKept(w: World, a: Step, w': World)
    requires PermitsInv(w.worker) && Moves(w, a, w')
    ensures PermitsInv(w'.worker)
  {
    if a.StartTask? {
      StartKeepsPermits(w.worker, a.slot);
    } else if MovesAFuture(a) {
      DropsAndJoinsKeepPermits(w.worker, a.slot);
    } else {
      LoopStepsKeepFutures(w, a, w');
      assert Holding(w'.worker) == Holding(w.worker);
    }
  }

  lemma StillRegistered(wk: Worker, wk': Worker, slot: Slot, t: TaskId)
    requires Registered(wk, t)
    requires forall s | s != slot && s in wk.tasks :: s in wk'.tasks && wk'.tasks[s] == wk.tasks[s]
    requires slot in wk.tasks ==> wk.tasks[slot] != Spawned(t, Active)
    ensures Registered(wk', t)
  {
    var s :| s in wk.tasks && wk.tasks[s] == Spawned(t, Active);
    assert wk'.tasks[s] == Spawned(t, Active);
  }

  lemma GuardDropKeepsFlight(wk: Worker, slot: Slot)
    requires FlightInv(wk) && slot in wk.tasks && wk.tasks[slot].phase == Active
    ensures FlightInv(GuardDropped(wk, slot))
  {
    var wk' := GuardDropped(wk, slot);
    assert Handlers(wk') == Handlers(wk) - {slot};
    forall t <- wk'.inFlight ensures Registered(wk', t) {
      StillRegistered(wk, wk', slot, t);
    }
  }

  lemma PermitDropKeepsFlight(wk: Worker, slot: Slot)
    requires FlightInv(wk) && slot in wk.tasks && wk.tasks[slot].phase == Unguarded
    ensures FlightInv(PermitDropped(wk, slot))
  {
    var wk' := PermitDropped(wk, slot);
    assert Handlers(wk') == Handlers(wk);
    forall t <- wk'.inFlight ensures Registered(wk', t) {
      StillRegistered(wk, wk', slot, t);
    }
  }

  lemma JoinKeepsFlight(wk: Worker, slot: Slot)
    requires FlightInv(wk) && slot in wk.tasks && wk.tasks[slot].phase == Released
    ensures FlightInv(Joined(wk, slot))
  {
    var wk' := Joined(wk, slot);
    assert Handlers(wk') == Handlers(wk);
    forall t <- wk'.inFlight ensures Registered(wk', t) {
      StillRegistered(wk, wk', slot, t);
    }
  }

  lemma StartRegisters(wk: Worker, wk': Worker, slot: Slot, t: TaskId)
    requires FlightInv(wk) && t !in wk.inFlight && slot !in wk.tasks
    requires wk'.tasks == wk.tasks[slot := Spawned(t, Active)] && wk'.inFlight == wk.inFlight + {t}
    ensures forall u <- wk'.inFlight :: Registered(wk', u)
  {
    forall u <- wk'.inFlight ensures Registered(wk', u) {
      if u == t {
        assert wk'.tasks[slot] == Spawned(t, Active);
      } else {
        StillRegistered(wk, wk', slot, u);
      }
    }
  }

  lemma StartCounts(wk: Worker, wk': Worker, slot: Slot, t: TaskId)
    requires |wk.inFlight| == |Handlers(wk)| && t !in wk.inFlight && slot !in wk.tasks
    requires wk'.tasks == wk.tasks[slot := Spawned(t, Active)] && wk'.inFlight == wk.inFlight + {t}
    ensures |wk'.inFlight| == |Handlers(wk')|
  {
    assert Handlers(wk') == Handlers(wk) + {slot} && slot !in Handlers(wk);
  }

  lemma StartKeepsOneEach(wk: Worker, wk': Worker, slot: Slot, t: TaskId)
    requires OneEach(wk) && t !in wk.inFlight && slot !in wk.tasks
    requires wk'.tasks == wk.tasks[slot := Spawned(t, Active)] && wk'.inFlight == wk.inFlight + {t}
    ensures OneEach(wk')
  {
  }

  lemma StartKeepsFlight(wk: Worker, slot: Slot)
    requires FlightInv(wk) && slot !in wk.tasks
    requires (wk.pc.Start? || wk.pc.StartDue?) && wk.pc.claimed !in wk.inFlight
    ensures FlightInv(Started(wk, slot))
  {
    StartRegisters(wk, Started(wk, slot), slot, wk.pc.claimed);
    StartCounts(wk, Started(wk, slot), slot, wk.pc.claimed);
    StartKeepsOneEach(wk, Started(wk, slot), slot, wk.pc.claimed);
  }

  lemma FlightKept(w: World, a: Step, w': World)
    requires FlightInv(w.worker) && ExcludedInv(w.worker) && Moves(w, a, w')
    ensures FlightInv(w'.worker)
  {
    if a.DropGuard? {
      GuardDropKeepsFlight(w.worker, a.slot);
    } else if a.DropPermit? {
      PermitDropKeepsFlight(w.worker, a.slot);
    } else if a.Join? {
      JoinKeepsFlight(w.worker, a.slot);
    } else if a.StartTask? {
      StartKeepsFlight(w.worker, a.slot);
    } else {
      LoopStepsKeepFutures(w, a, w');
      SameFuturesSameFlight(w.worker, w'.worker);
    }
  }

  lemma SameFuturesSameFlight(wk: Worker, wk': Worker)
    requires FlightInv(wk) && wk'.tasks == wk.tasks && wk'.inFlight == wk.inFlight
    ensures FlightInv(wk')
  {
    assert Handlers(wk') == Handlers(wk);
    forall t <- wk'.inFlight ensures Registered(wk', t) {
      assert Registered(wk, t);
    }
  }

  lemma ExcludedKeptByFuture(w: World, a: Step, w': World)
    requires ExcludedInv(w.worker) && Moves(w, a, w') && MovesAFuture(a)
    ensures ExcludedInv(w'.worker)
  {
    match a {
      case DropGuard(slot) => assert w'.worker.tasks[slot].phase != Active;
      case DropPermit(slot) => assert w'.worker.tasks[slot].phase != Active;
      case Join(_) =>
      case StartTask(_) =>
    }
  }

  /** Whatever the filter, a claim returns a task outside the snapshot, hence one that is not in flight. */
  lemma ClaimedIsNotInFlight(w: World, a: Step, w': World)
    requires WellIndexed(w.docs) && ExcludedInv(w.worker) && Moves(w, a, w') && a.ClaimSome?
    ensures a.op.taskId !in w.worker.pc.excluded
    ensures ExcludedInv(w'.worker)
  {
    var f := Query(w.worker, a.now, a.op.defaultMs);
    assert Selects(f, w.docs[a.op.taskId]) && f.excluded == w.worker.pc.excluded;
    assert w'.worker.inFlight == w.worker.inFlight;
  }

  lemma ExcludedKept(w: World, a: Step, w': World)
    requires WellIndexed(w.docs) && ExcludedInv(w.worker) && Moves(w, a, w')
    ensures ExcludedInv(w'.worker)
  {
    if MovesAFuture(a) {
      ExcludedKeptByFuture(w, a, w');
    } else if a.ClaimSome? {
      ClaimedIsNotInFlight(w, a, w');
    } else {
      LoopStepsKeepFutures(w, a, w');
      assert Exiting(w'.worker) <==> Exiting(w.worker);
    }
  }

  /** The collection changed by one operation: what newly waits is announced, what waited before still is. */
  lemma WakeKeptByOp(w: World, op: Op, ev: Event, w': World)
    requires WakeInv(w) && Enabled(w.docs, op) && (Apply(w.docs, op) != w.docs ==> Describes(w.docs, op, ev))
    requires w' == Emit(w, op, ev)
    ensures WakeInv(w')
  {
    if w' != w && w.worker.stream.Some? && !w.worker.lookupFailed && !w.worker.pc.Stopped? {
      forall t | Waits(w', t) ensures Covered(w', t) {
        if Find(w.docs, t) == Find(w'.docs, t) {
          assert Waits(w, t) && Covered(w, t);
          if Announced(w, t) {
            var e :| w.worker.stream.value <= e < |w.log| && AnnouncesPending(w.log[e])
                     && EventOid(w.log[e]) == w.docs[t].oid;
            assert w'.log[e] == w.log[e];
          }
        } else {
          EveryPendingDocumentIsAnnounced(w.docs, op, ev, t);
          assert w'.log[|w.log|] == ev;
        }
      }
    }
  }

  lemma WakeKeptByClaim(w: World, a: Step, w': World)
    requires WakeInv(w) && Moves(w, a, w') && a.ClaimSome?
    ensures WakeInv(w')
  {
    WakeKeptByOp(w, a.op, a.ev, Emit(w, a.op, a.ev));
    var mid := Emit(w, a.op, a.ev);
    if w'.worker.stream.Some? && !w'.worker.lookupFailed && !w'.worker.pc.Stopped? {
      forall t | Waits(w', t) ensures Covered(w', t) {
        assert Waits(mid, t) && Covered(mid, t);
      }
    }
  }

  /** A future that begins to exit, or goes on exiting, is itself the coming wakeup; a join starts a Ready pump. */
  lemma WakeKeptByFuture(w: World, a: Step, w': World)
    requires WakeInv(w) && PermitsInv(w.worker) && Moves(w, a, w') && MovesAFuture(a)
    ensures WakeInv(w')
  {
    if w'.worker.stream.Some? && !w'.worker.lookupFailed && !w'.worker.pc.Stopped? {
      forall t | Waits(w', t) ensures Covered(w', t) {
        match a {
          case DropGuard(slot) => assert w'.worker.tasks[slot].phase != Active;
          case DropPermit(slot) => assert w'.worker.tasks[slot].phase != Active;
          case Join(_) =>
          case StartTask(slot) =>
            assert Waits(w, t) && Covered(w, t);
            if Exiting(w.worker) {
              var s :| s in w.worker.tasks && w.worker.tasks[s].phase != Active;
              assert w'.worker.tasks[s].phase != Active;
            }
        }
      }
    }
  }

  /** Finding no pending document outside the snapshot leaves only tasks whose future is exiting. */
  lemma WakeKeptByClaimNone(w: World, a: Step, w': World)
    requires WellIndexed(w.docs) && WakeInv(w) && ExcludedInv(w.worker) && Moves(w, a, w') && a.ClaimNone?
    ensures WakeInv(w')
  {
    var wk := w.worker;
    LoopStepsKeepFutures(w, a, w');
    if w'.worker.stream.Some? && !w'.worker.lookupFailed && !w'.worker.pc.Stopped? {
      forall t | Waits(w', t) ensures Covered(w', t) {
        if wk.pc.ClaimFirst? && wk.pc.mode == Ready {
          assert !MayClaim(w, t, a.now, a.defaultMs);
          assert t in wk.pc.excluded;
          assert Exiting(wk);
        } else {
          assert Waits(w, t) && Covered(w, t);
        }
      }
    }
  }

  lemma WakeKeptByReadEvent(w: World, a: Step, w': World)
    requires WakeInv(w) && Moves(w, a, w') && a.ReadEvent?
    ensures WakeInv(w')
  {
    if w'.worker.stream.Some? && !w'.worker.lookupFailed && !w'.worker.pc.Stopped? && !w'.worker.pc.Armed() {
      forall t | Waits(w', t) ensures Covered(w', t) {
        assert Waits(w, t) && Covered(w, t);
      }
    }
  }

  /** The other steps of the loop. */
  lemma WakeKeptByLoop(w: World, a: Step, w': World)
    requires WakeInv(w) && Moves(w, a, w')
    requires !MovesAFuture(a) && !a.Environment? && !a.ClaimSome? && !a.ClaimNone? && !a.ReadEvent?
    ensures WakeInv(w')
  {
    LoopStepsKeepFutures(w, a, w');
    if w'.worker.stream.Some? && !w'.worker.lookupFailed && !w'.worker.pc.Stopped? && !w'.worker.pc.Armed() {
      forall t | Waits(w', t) ensures Covered(w', t) {
        assert Waits(w, t) && Covered(w, t);
      }
    }
  }

  lemma WakeKept(w: World, a: Step, w': World)
    requires WellIndexed(w.docs) && WakeInv(w) && PermitsInv(w.worker) && ExcludedInv(w.worker) && Moves(w, a, w')
    ensures WakeInv(w')
  {
    if a.Environment? {
      WakeKeptByOp(w, a.op, a.ev, w');
    } else if a.ClaimSome? {
      WakeKeptByClaim(w, a, w');
    } else if MovesAFuture(a) {
      WakeKeptByFuture(w, a, w');
    } else if a.ClaimNone? {
      WakeKeptByClaimNone(w, a, w');
    } else if a.ReadEvent? {
      WakeKeptByReadEvent(w, a, w');
    } else {
      WakeKeptByLoop(w, a, w');
    }
  }

  lemma WellIndexedKept(w: World, a: Step, w': World)
    requires WellIndexed(w.docs) && Moves(w, a, w')
    ensures WellIndexed(w'.docs)
  {
    if a.Environment? || a.ClaimSome? {
      ApplyKeepsWellIndexed(w.docs, a.op);
    }
  }

  lemma MoveKeepsInv(w: World, a: Step, w': World)
    requires Inv(w) && Moves(w, a, w')
    ensures Inv(w')
  {
    WellIndexedKept(w, a, w');
    PermitsKept(w, a, w');
    FlightKept(w, a, w');
    ExcludedKept(w, a, w');
    WakeKept(w, a, w');
  }

  lemma {:induction false} RunKeepsInv(run: seq<World>, steps: seq<Step>, i: nat)
    requires Run(run, steps) && i < |run|
    ensures Inv(run[i])
  {
    if i == 0 {
      assert Holding(run[0].worker) == {} && Handlers(run[0].worker) == {};
    } else {
      RunKeepsInv(run, steps, i - 1);
      MoveKeepsInv(run[i - 1], steps[i - 1], run[i]);
    }
  }

  // ----- the results -----

  /**
   No lost wakeup. When the loop is parked with a free permit, every pending
   document that is not in flight is announced by an unread event, or a future is
   on its way to being joined, which starts a Ready pump. The only exception is
   that the last Ready pump's lookup of pending documents returned an error.
   */
  lemma NoLostWakeup(run: seq<World>, steps: seq<Step>, i: nat, t: TaskId)
    requires Run(run, steps) && i < |run|
    requires var wk := run[i].worker;
             wk.pc.Parked? && wk.stream.Some? && wk.available > 0 && !wk.lookupFailed
    requires Waits(run[i], t)
    ensures Announced(run[i], t) || Exiting(run[i].worker)
  {
    RunKeepsInv(run, steps, i);
    assert Covered(run[i], t);
  }

  /**
   A worker that has read every event and joined every future leaves pending work
   only to its full set of handlers.
   */
  lemma QuiescentMeansBusy(run: seq<World>, steps: seq<Step>, i: nat, t: TaskId)
    requires Run(run, steps) && i < |run|
    requires var wk := run[i].worker;
             wk.pc.Parked? && wk.stream == Some(|run[i].log|) && !wk.lookupFailed && !Exiting(wk)
    requires Waits(run[i], t)
    ensures |run[i].worker.inFlight| == run[i].worker.capacity
  {
    RunKeepsInv(run, steps, i);
    var wk := run[i].worker;
    assert Covered(run[i], t);
    assert forall s <- wk.tasks :: wk.tasks[s].phase == Active;
    assert Holding(wk) == Handlers(wk);
  }

  /** Permits are conserved, and every registered task holds one. */
  lemma PermitsAreConserved(run: seq<World>, steps: seq<Step>, i: nat)
    requires Run(run, steps) && i < |run|
    ensures var wk := run[i].worker;
            && wk.available + PermitOf(wk.pc) + |Holding(wk)| == wk.capacity
            && |wk.inFlight| <= |Holding(wk)|
  {
    RunKeepsInv(run, steps, i);
    var wk := run[i].worker;
    assert Handlers(wk) <= Holding(wk);
    SubsetIsSmaller(Handlers(wk), Holding(wk));
  }

  /** One handler per task in one process, and each is in the registry. */
  lemma OneHandlerPerTask(run: seq<World>, steps: seq<Step>, i: nat, s: Slot, u: Slot)
    requires Run(run, steps) && i < |run|
    requires s in Handlers(run[i].worker) && u in Handlers(run[i].worker)
    requires run[i].worker.tasks[s].taskId == run[i].worker.tasks[u].taskId
    ensures s == u && run[i].worker.tasks[s].taskId in run[i].worker.inFlight
  {
    RunKeepsInv(run, steps, i);
  }

  /** The "already locally in flight" branch of `spawn_claimed_task` is never taken, from any of the claim paths. */
  lemma NeverAlreadyInFlight(run: seq<World>, steps: seq<Step>, i: nat)
    requires Run(run, steps) && i < |run|
    requires run[i].worker.pc.Start? || run[i].worker.pc.StartDue?
    ensures run[i].worker.pc.claimed !in run[i].worker.inFlight
  {
    RunKeepsInv(run, steps, i);
  }
}
