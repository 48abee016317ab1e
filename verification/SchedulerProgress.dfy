/**
 What the scheduler can always do. Its safety laws would hold of a loop that never
 moves; this module shows that a pump, once begun, comes to its end by steps of its
 own, and that on its way it claims what there is to claim and starts its handler.
 */
module SchedulerProgress {
  import opened Prelude
  import opened Documents
  import opened Store
  import opened Scheduler

  /** The steps of the loop itself, other than a claim that ends in an error, a stop, and the loss of the stream. */
  predicate OwnStep(a: Step) {
    && !a.Environment? && !a.DropGuard? && !a.DropPermit?
    && !a.ClaimError? && !a.Stop? && !a.StreamBreaks? && !a.StreamUnsupported?
  }

  predicate Resting(pc: Pc) {
    pc.Parked? || pc.Stopped?
  }

  /** How far a pump is from its end: in permits or due entries that are left, then within its turn. */
  function Distance(wk: Worker): nat {
    var permits := wk.available + PermitOf(wk.pc);
    match wk.pc
    case Parked => 0
    case Stopped => 0
    case Acquire(_) => 6 * permits + 5
    case Snapshot(_) => 6 * permits + 4
    case ClaimFirst(_, _) => 6 * permits + 3
    case ClaimOwn(_) => 6 * permits + 2
    case Start(_, _) => 6 * permits + 1
    case NextDue(due) => 6 * |due| + 5
    case SnapshotDue(_, due) => 6 * |due| + 9
    case ClaimDue(_, due, _) => 6 * |due| + 8
    case StartDue(due, _) => 6 * |due| + 6
  }

  lemma FreshSlot(slots: set<Slot>) returns (slot: Slot)
    ensures slot !in slots
  {
    var bound := SlotBound(slots);
    slot := Slot(bound);
  }

  lemma {:induction false} SlotBound(slots: set<Slot>) returns (bound: nat)
    ensures forall s <- slots :: s.number < bound
  {
    if slots == {} {
      bound := 0;
    } else {
      var s :| s in slots;
      var b := SlotBound(slots - {s});
      bound := if s.number < b then b else s.number + 1;
      assert forall x <- slots :: x == s || x in slots - {s};
    }
  }

  // ----- what may happen -----

  /** A worker can start with any collection. */
  lemma AnyWorkerCanStart(docs: Docs, log: seq<Event>, id: WorkerId, capacity: nat)
    requires WellIndexed(docs)
    ensures Starts(World(docs, log, Worker(id, capacity, capacity, {}, map[], Parked, None, false)))
  {
  }

  /** Everyone else can do any operation, whatever the worker is doing. */
  lemma OthersCanAct(w: World, op: Op) returns (ev: Event, w': World)
    requires Enabled(w.docs, op) && Apply(w.docs, op) != w.docs
    ensures Moves(w, Environment(op, ev), w')
    ensures w'.docs == Apply(w.docs, op) && w'.log == w.log + [ev] && w'.worker == w.worker
  {
    ev := EveryOperationIsReported(w.docs, op);
    w' := Emit(w, op, ev);
  }

  /** Only an error of the lookup of pending documents makes a lookup count as failed. */
  lemma OnlyErrorsFailLookups(w: World, a: Step, w': World)
    requires Moves(w, a, w')
    ensures w'.worker.lookupFailed && !w.worker.lookupFailed ==>
              a.ClaimError? && w.worker.pc.ClaimFirst? && w.worker.pc.mode == Ready
    ensures w'.worker.pc == Acquire(Ready) && w.worker.pc.Parked? ==> !w'.worker.lookupFailed
  {
  }

  // ----- every pump ends -----

  /** Every step of the loop, an error included, brings a pump nearer to its end. */
  lemma PumpStepsDescend(w: World, a: Step, w': World)
    requires ExcludedInv(w.worker) && Moves(w, a, w') && !Resting(w.worker.pc)
    requires OwnStep(a) || a.ClaimError?
    ensures Distance(w'.worker) < Distance(w.worker)
  {
    match a
    case TryAcquire => assert w.worker.pc.Acquire? || w.worker.pc.NextDue?;
    case TakeSnapshot => assert w.worker.pc.Snapshot? || w.worker.pc.SnapshotDue?;
    case ClaimSome(_, _, _) => ClaimsDescend(w, a, w');
    case ClaimNone(_, _) => ClaimsDescend(w, a, w');
    case ClaimError => ClaimsDescend(w, a, w');
    case StartTask(_) => assert w.worker.pc.claimed !in w.worker.inFlight;
    case _ =>
  }

  lemma ClaimsDescend(w: World, a: Step, w': World)
    requires Moves(w, a, w') && (a.ClaimSome? || a.ClaimNone? || a.ClaimError?)
    ensures Distance(w'.worker) < Distance(w.worker)
  {
    assert w.worker.pc.HasExcluded();
    assert w'.worker.available == w.worker.available || w'.worker.available == w.worker.available + 1;
  }

  /** A pump is never stuck: whatever the clock says, it has a step of its own that is not an error. */
  lemma PumpCanStep(w: World, now: int, defaultMs: nat) returns (a: Step, w': World)
    requires !Resting(w.worker.pc)
    ensures OwnStep(a) && Moves(w, a, w')
  {
    var wk := w.worker;
    match wk.pc
    case Acquire(mode) =>
      a, w' := TryAcquire, if wk.available == 0 then Goto(w, Parked)
                           else w.(worker := wk.(available := wk.available - 1, pc := Snapshot(mode)));
    case NextDue(due) =>
      a, w' := TryAcquire, if due == [] then Goto(w, Parked)
                           else if RefusedUpFront(due[0].known, wk.inFlight) then Goto(w, NextDue(due[1..]))
                           else if wk.available == 0 then Goto(w, Parked)
                           else w.(worker := wk.(available := wk.available - 1, pc := SnapshotDue(due[0], due[1..])));
    case Snapshot(mode) => a, w' := TakeSnapshot, Goto(w, ClaimFirst(mode, wk.inFlight));
    case SnapshotDue(next, due) => a, w' := TakeSnapshot, Goto(w, ClaimDue(next, due, wk.inFlight));
    case Start(_, _) =>
      var slot := FreshSlot(wk.tasks.Keys);
      a, w' := StartTask(slot), w.(worker := Started(wk, slot));
    case StartDue(_, _) =>
      var slot := FreshSlot(wk.tasks.Keys);
      a, w' := StartTask(slot), w.(worker := Started(wk, slot));
    case _ => a, w' := LookupCanStep(w, now, defaultMs);
  }

  lemma LookupCanStep(w: World, now: int, defaultMs: nat) returns (a: Step, w': World)
    requires w.worker.pc.HasExcluded()
    ensures OwnStep(a) && Moves(w, a, w')
  {
    if t :| t in w.docs && MayClaim(w, t, now, defaultMs) {
      a, w' := ClaimOf(w, t, ClaimToken(""), now, defaultMs);
    } else {
      a := ClaimNone(now, defaultMs);
      w' := match w.worker.pc
            case ClaimFirst(Ready, excluded) => Goto(w, ClaimOwn(excluded))
            case ClaimDue(_, due, _) => GiveBack(w, NextDue(due))
            case _ => GiveBack(w, Parked);
    }
  }

  /** Where the loop goes with a claimed task. */
  function AfterClaim(pc: Pc, t: TaskId): Pc
    requires pc.HasExcluded()
  {
    match pc
    case ClaimFirst(mode, _) => Start(mode, t)
    case ClaimOwn(_) => Start(Ready, t)
    case ClaimDue(_, due, _) => StartDue(due, t)
  }

  lemma ClaimOf(w: World, t: TaskId, k: ClaimToken, now: int, defaultMs: nat) returns (a: Step, w': World)
    requires w.worker.pc.HasExcluded() && MayClaim(w, t, now, defaultMs)
    ensures a.ClaimSome? && Moves(w, a, w')
    ensures w'.worker == w.worker.(pc := AfterClaim(w.worker.pc, t))
    ensures t in w'.docs && w'.docs == w.docs[t := w'.docs[t]] && RunningFor(w'.docs[t], w.worker.id, k)
  {
    var op := Claim(t, w.worker.id, k, now, defaultMs, Query(w.worker, now, defaultMs).path);
    var ev := EveryOperationIsReported(w.docs, op);
    ClaimContract(w.docs, t, w.worker.id, k, now, defaultMs, op.path);
    a, w' := ClaimSome(op, now, ev), Goto(Emit(w, op, ev), AfterClaim(w.worker.pc, t));
  }

  predicate RunningFor(d: Doc, id: WorkerId, k: ClaimToken) {
    && d.status == Some(Running) && d.workerState.Some?
    && d.workerState.value.workerId == id && d.workerState.value.claimToken == Some(k)
  }

  /** A step of the loop, not an error, or of a future that has left the registry. */
  ghost predicate Goes(w: World, a: Step, w': World) {
    (OwnStep(a) || a.DropPermit?) && Moves(w, a, w')
  }

  /** A way through some states. */
  datatype Route = Arrived | Via(step: Step, world: World, rest: Route)
  {
    function Length(): nat {
      if Arrived? then 0 else 1 + rest.Length()
    }

    function Then(next: Route): Route {
      if Arrived? then next else Via(step, world, rest.Then(next))
    }
  }

  /** The route goes from `w` to `w'` by steps of the loop and of futures that exit, without an error. */
  ghost predicate Leads(w: World, route: Route, w': World)
    decreases route
  {
    match route
    case Arrived => w == w'
    case Via(a, v, rest) => Goes(w, a, v) && Leads(v, rest, w')
  }

  lemma {:induction false} LeadsThrough(w: World, route: Route, v: World, next: Route, w': World)
    requires Leads(w, route, v) && Leads(v, next, w')
    ensures Leads(w, route.Then(next), w')
    decreases route
  {
    match route
    case Arrived =>
    case Via(_, u, rest) => LeadsThrough(u, rest, v, next, w');
  }

  /** Every pump comes to its end, in as many steps as its distance says at most. */
  lemma {:induction false} EveryPumpEnds(w: World, now: int, defaultMs: nat) returns (w': World, route: Route)
    requires Inv(w)
    ensures Leads(w, route, w') && Resting(w'.worker.pc) && route.Length() <= Distance(w.worker)
    decreases Distance(w.worker)
  {
    if Resting(w.worker.pc) {
      w', route := w, Arrived;
    } else {
      var a, v := PumpCanStep(w, now, defaultMs);
      PumpStepsDescend(w, a, v);
      MoveKeepsInv(w, a, v);
      var rest;
      w', rest := EveryPumpEnds(v, now, defaultMs);
      route := Via(a, v, rest);
    }
  }

  // ----- lookups find what there is, and nothing else -----

  /** A document the loop is looking for, in terms of its fields. */
  predicate Wanted(pc: Pc, id: WorkerId, d: Doc, now: int, defaultMs: nat)
    requires pc.HasExcluded()
  {
    && d.taskId !in pc.excluded
    && match pc
       case ClaimFirst(Ready, _) => d.status == Some(Pending)
       case ClaimFirst(StaleRecovery, _) => StaleAt(d, now, defaultMs)
       case ClaimOwn(_) =>
         d.status == Some(Running) && d.workerState.Some? && d.workerState.value.workerId == id
       case ClaimDue(next, _, _) =>
         && StaleAt(d, now, defaultMs) && d.oid == next.oid
         && (next.known.Some? ==> d.taskId == next.known.value)
  }

  /**
   A lookup can claim any document the loop is looking for, which is then running
   for this worker, and goes on to start its handler; it cannot come back empty-handed.
   */
  lemma LookupClaims(w: World, t: TaskId, k: ClaimToken, now: int, defaultMs: nat) returns (a: Step, w': World)
    requires WellIndexed(w.docs) && w.worker.pc.HasExcluded()
    requires t in w.docs && Wanted(w.worker.pc, w.worker.id, w.docs[t], now, defaultMs)
    ensures a.ClaimSome? && Moves(w, a, w')
    ensures w'.worker == w.worker.(pc := AfterClaim(w.worker.pc, t))
    ensures t in w'.docs && w'.docs == w.docs[t := w'.docs[t]] && RunningFor(w'.docs[t], w.worker.id, k)
    ensures forall v :: !Moves(w, ClaimNone(now, defaultMs), v)
  {
    assert MayClaim(w, t, now, defaultMs);
    a, w' := ClaimOf(w, t, k, now, defaultMs);
  }

  /** What a lookup claims is a document the loop was looking for. */
  lemma LookupClaimsOnlyWanted(w: World, a: Step, w': World)
    requires WellIndexed(w.docs) && Moves(w, a, w') && a.ClaimSome?
    ensures w.worker.pc.HasExcluded() && a.op.taskId in w.docs
    ensures Wanted(w.worker.pc, w.worker.id, w.docs[a.op.taskId], a.now, a.op.defaultMs)
    ensures w'.worker == w.worker.(pc := AfterClaim(w.worker.pc, a.op.taskId))
    ensures a.op.taskId in w'.docs && RunningFor(w'.docs[a.op.taskId], w.worker.id, a.op.token)
  {
    var t := a.op.taskId;
    assert MayClaim(w, t, a.now, a.op.defaultMs);
    ClaimContract(w.docs, t, a.op.workerId, a.op.token, a.op.startedAt, a.op.defaultMs, a.op.path);
  }

  /** A claimed task gets a running handler that holds the loop's permit and is registered. */
  lemma ClaimedTaskIsStarted(w: World, slot: Slot, w': World)
    requires ExcludedInv(w.worker) && Moves(w, StartTask(slot), w')
    ensures slot !in w.worker.tasks
    ensures w'.worker == w.worker.(
              tasks := w.worker.tasks[slot := Spawned(w.worker.pc.claimed, Active)],
              inFlight := w.worker.inFlight + {w.worker.pc.claimed},
              pc := if w.worker.pc.Start? then Acquire(w.worker.pc.mode) else NextDue(w.worker.pc.due))
    ensures w'.docs == w.docs && w'.log == w.log
  {
  }

  // ----- every wakeup starts its pump -----

  /**
   What a parked loop can do with an open stream: read the next event, which starts
   a Ready pump if it announces a pending document; join a future that has finished,
   which does too; and answer its tickers.
   */
  lemma WakeupsStartPumps(w: World, slot: Slot, due: seq<Target>)
    requires w.worker.pc.Parked? && w.worker.stream.Some?
    ensures w.worker.stream.value < |w.log| ==>
              exists w' :: Moves(w, ReadEvent, w') && w'.docs == w.docs && w'.log == w.log
                           && w'.worker.stream == Some(w.worker.stream.value + 1)
                           && w'.worker.available == w.worker.available && w'.worker.inFlight == w.worker.inFlight
                           && w'.worker.tasks == w.worker.tasks
                           && (if AnnouncesPending(w.log[w.worker.stream.value])
                               then w'.worker.pc == Acquire(Ready)
                               else w'.worker == w.worker.(stream := w'.worker.stream))
    ensures slot in w.worker.tasks && w.worker.tasks[slot].phase == Released ==>
              exists w' :: Moves(w, Join(slot), w') && w'.docs == w.docs && w'.worker.pc == Acquire(Ready)
                           && w'.worker.available == w.worker.available && w'.worker.inFlight == w.worker.inFlight
                           && w'.worker.tasks == w.worker.tasks - {slot}
    ensures Moves(w, PeriodicTick, w.(worker := w.worker.(pc := Acquire(StaleRecovery))))
    ensures Moves(w, ExpiryTimer(due), w.(worker := w.worker.(pc := NextDue(due))))
  {
    if w.worker.stream.value < |w.log| {
      var read := w.(worker := w.worker.(stream := Some(w.worker.stream.value + 1)));
      var w' := if AnnouncesPending(w.log[w.worker.stream.value]) then StartReadyPump(read) else read;
      assert Moves(w, ReadEvent, w');
    }
    if slot in w.worker.tasks && w.worker.tasks[slot].phase == Released {
      assert Moves(w, Join(slot), w.(worker := Joined(w.worker, slot)));
    }
  }

  /** A stream that is not open is opened at the end of the log before a Ready pump begins. */
  lemma ReopeningStartsAPump(w: World)
    requires w.worker.pc.Parked? && w.worker.stream.None?
    ensures exists w' :: Moves(w, OpenStream(true), w') && w'.docs == w.docs && w'.log == w.log
                         && w'.worker.stream == Some(|w.log|) && w'.worker.pc == Acquire(Ready)
                         && w'.worker.available == w.worker.available
  {
    var w' := StartReadyPump(w.(worker := w.worker.(stream := Some(|w.log|))));
    assert Moves(w, OpenStream(true), w');
  }

  /** A handler that ends, at any time, leaves the registry, gives its permit back, and can then be joined. */
  lemma FuturesExit(w: World, slot: Slot)
    requires slot in w.worker.tasks
    ensures w.worker.tasks[slot].phase == Active ==>
              Moves(w, DropGuard(slot),
                    w.(worker := w.worker.(
                         tasks := w.worker.tasks[slot := Spawned(w.worker.tasks[slot].taskId, Unguarded)],
                         inFlight := w.worker.inFlight - {w.worker.tasks[slot].taskId})))
    ensures w.worker.tasks[slot].phase == Unguarded ==>
              Moves(w, DropPermit(slot),
                    w.(worker := w.worker.(
                         tasks := w.worker.tasks[slot := Spawned(w.worker.tasks[slot].taskId, Released)],
                         available := w.worker.available + 1)))
  {
  }

  // ----- a waiting task is started -----

  ghost predicate IsHandled(w: World, t: TaskId) {
    && Registered(w.worker, t) && t in w.worker.inFlight && t in w.docs
    && w.docs[t].status == Some(Running) && w.docs[t].workerState.Some?
    && w.docs[t].workerState.value.workerId == w.worker.id
  }

  /** The state of a pump of available tasks that is about to look for the first time. */
  function Looking(w: World, mode: Mode): World {
    w.(worker := w.worker.(available := if w.worker.available > 0 then w.worker.available - 1 else 0,
                           pc := ClaimFirst(mode, w.worker.inFlight)))
  }

  /** A pump with a permit takes it, takes its snapshot, and looks. */
  lemma PumpLooks(w: World, mode: Mode) returns (route: Route)
    requires w.worker.pc == Acquire(mode) && w.worker.available > 0
    ensures Leads(w, route, Looking(w, mode))
  {
    var w1 := w.(worker := w.worker.(available := w.worker.available - 1, pc := Snapshot(mode)));
    assert Goes(w, TryAcquire, w1) && Goes(w1, TakeSnapshot, Looking(w, mode));
    route := Via(TryAcquire, w1, Via(TakeSnapshot, Looking(w, mode), Arrived));
  }

  /** What a lookup has claimed is started. */
  lemma LookupStarts(w: World, t: TaskId, now: int, defaultMs: nat) returns (w': World, route: Route)
    requires WellIndexed(w.docs) && w.worker.pc.HasExcluded() && w.worker.inFlight <= w.worker.pc.excluded
    requires t in w.docs && Wanted(w.worker.pc, w.worker.id, w.docs[t], now, defaultMs)
    ensures Leads(w, route, w') && IsHandled(w', t)
  {
    var a, v := LookupClaims(w, t, ClaimToken(""), now, defaultMs);
    var slot := FreshSlot(v.worker.tasks.Keys);
    w' := v.(worker := Started(v.worker, slot));
    assert w'.worker.tasks[slot] == Spawned(t, Active);
    assert Goes(v, StartTask(slot), w');
    route := Via(a, v, Via(StartTask(slot), w', Arrived));
  }

  /** A Ready pump with a permit can claim any waiting task and start its handler. */
  lemma PumpStartsWaitingTask(w: World, t: TaskId, now: int, defaultMs: nat) returns (w': World, route: Route)
    requires Inv(w) && w.worker.pc == Acquire(Ready) && w.worker.available > 0 && Waits(w, t)
    ensures Leads(w, route, w') && IsHandled(w', t)
  {
    var v := Looking(w, Ready);
    var first := PumpLooks(w, Ready);
    var next;
    w', next := LookupStarts(v, t, now, defaultMs);
    LeadsThrough(w, first, v, next, w');
    route := first.Then(next);
  }

  /** A Ready pump has begun, with nothing else changed but a permit that may have come back. */
  ghost predicate Woken(w: World, w': World) {
    && Inv(w') && w'.docs == w.docs && w'.worker.inFlight == w.worker.inFlight
    && w'.worker.pc == Acquire(Ready) && w.worker.available <= w'.worker.available
  }

  /** A future that has given its permit back can be joined, and starts a Ready pump. */
  lemma JoinWakes(w: World, slot: Slot) returns (w': World)
    requires Inv(w) && w.worker.pc.Parked? && w.worker.stream.Some?
    requires slot in w.worker.tasks && w.worker.tasks[slot].phase == Released
    ensures Goes(w, Join(slot), w') && Woken(w, w')
  {
    w' := w.(worker := Joined(w.worker, slot));
    assert Moves(w, Join(slot), w');
    MoveKeepsInv(w, Join(slot), w');
  }

  /** A future that has left the registry can be joined, and starts a Ready pump. */
  lemma ExitWakes(w: World) returns (w': World, route: Route)
    requires Inv(w) && w.worker.pc.Parked? && w.worker.stream.Some? && Exiting(w.worker)
    ensures Leads(w, route, w') && Woken(w, w')
  {
    var slot :| slot in w.worker.tasks && w.worker.tasks[slot].phase != Active;
    if w.worker.tasks[slot].phase == Unguarded {
      var v := w.(worker := PermitDropped(w.worker, slot));
      assert Goes(w, DropPermit(slot), v);
      MoveKeepsInv(w, DropPermit(slot), v);
      w' := JoinWakes(v, slot);
      route := Via(DropPermit(slot), v, Via(Join(slot), w', Arrived));
    } else {
      w' := JoinWakes(w, slot);
      route := Via(Join(slot), w', Arrived);
    }
  }

  /** Reading an event moves on in the stream, and starts a Ready pump if it announces pending work. */
  lemma EventIsRead(w: World) returns (w': World)
    requires Inv(w) && w.worker.pc.Parked? && w.worker.stream.Some? && w.worker.stream.value < |w.log|
    ensures Goes(w, ReadEvent, w') && Inv(w') && w'.docs == w.docs && w'.log == w.log
    ensures var announced := AnnouncesPending(w.log[w.worker.stream.value]);
            w'.worker == w.worker.(
              stream := Some(w.worker.stream.value + 1),
              pc := if announced then Acquire(Ready) else Parked,
              lookupFailed := w.worker.lookupFailed && !announced)
  {
    var read := w.(worker := w.worker.(stream := Some(w.worker.stream.value + 1)));
    w' := if AnnouncesPending(w.log[w.worker.stream.value]) then StartReadyPump(read) else read;
    assert Moves(w, ReadEvent, w');
    MoveKeepsInv(w, ReadEvent, w');
  }

  /** Reading on to an event that announces pending work starts a Ready pump. */
  lemma {:induction false} EventWakes(w: World, e: nat) returns (w': World, route: Route)
    requires Inv(w) && w.worker.pc.Parked? && w.worker.stream.Some?
    requires w.worker.stream.value <= e < |w.log| && AnnouncesPending(w.log[e])
    ensures Leads(w, route, w') && Woken(w, w')
    decreases e - w.worker.stream.value
  {
    var read := EventIsRead(w);
    if AnnouncesPending(w.log[w.worker.stream.value]) {
      w', route := read, Via(ReadEvent, read, Arrived);
    } else {
      var rest;
      w', rest := EventWakes(read, e);
      route := Via(ReadEvent, read, rest);
    }
  }

  /** A document that an unread event announces wakes the loop. */
  lemma AnnouncementWakes(w: World, t: TaskId) returns (w': World, route: Route)
    requires Inv(w) && w.worker.pc.Parked? && t in w.docs && Announced(w, t)
    ensures Leads(w, route, w') && Woken(w, w')
  {
    var e :| w.worker.stream.value <= e < |w.log| && AnnouncesPending(w.log[e])
             && EventOid(w.log[e]) == w.docs[t].oid;
    w', route := EventWakes(w, e);
  }

  lemma WokenWorkerStarts(w: World, first: Route, v: World, t: TaskId, now: int, defaultMs: nat)
    returns (w': World, route: Route)
    requires Leads(w, first, v) && Woken(w, v) && w.worker.available > 0 && Waits(w, t)
    ensures Leads(w, route, w') && IsHandled(w', t)
  {
    var next;
    w', next := PumpStartsWaitingTask(v, t, now, defaultMs);
    LeadsThrough(w, first, v, next, w');
    route := first.Then(next);
  }

  /**
   From every reachable state in which the loop is parked with an open stream and a
   free permit, a pending document that is not in flight can get its handler by
   steps of this worker alone, whether or not anyone else ever acts again; unless the
   last lookup of pending documents failed.
   */
  lemma WaitingTaskCanBeStarted(
    run: seq<World>, steps: seq<Step>, i: nat, t: TaskId, now: int, defaultMs: nat) returns (w': World, route: Route)
    requires Run(run, steps) && i < |run|
    requires var wk := run[i].worker;
             wk.pc.Parked? && wk.stream.Some? && wk.available > 0 && !wk.lookupFailed
    requires Waits(run[i], t)
    ensures Leads(run[i], route, w') && IsHandled(w', t)
  {
    NoLostWakeup(run, steps, i, t);
    RunKeepsInv(run, steps, i);
    w', route := CoveredTaskCanBeStarted(run[i], t, now, defaultMs);
  }

  lemma CoveredTaskCanBeStarted(w: World, t: TaskId, now: int, defaultMs: nat) returns (w': World, route: Route)
    requires Inv(w) && w.worker.pc.Parked? && w.worker.stream.Some? && w.worker.available > 0
    requires Waits(w, t) && (Announced(w, t) || Exiting(w.worker))
    ensures Leads(w, route, w') && IsHandled(w', t)
  {
    var v, first;
    if Exiting(w.worker) {
      v, first := ExitWakes(w);
    } else {
      v, first := AnnouncementWakes(w, t);
    }
    w', route := WokenWorkerStarts(w, first, v, t, now, defaultMs);
  }

  // ----- running tasks that nobody handles -----

  /**
   A Ready pump with a permit that finds no pending task outside its registry looks
   for tasks that run under its own id, and can start one that is not in flight.
   */
  lemma AbandonedTaskCanBeStarted(w: World, t: TaskId, now: int, defaultMs: nat) returns (w': World, route: Route)
    requires Inv(w) && w.worker.pc == Acquire(Ready) && w.worker.available > 0
    requires forall u <- w.docs | w.docs[u].status == Some(Pending) :: u in w.worker.inFlight
    requires t in w.docs && t !in w.worker.inFlight && w.docs[t].status == Some(Running)
    requires w.docs[t].workerState.Some? && w.docs[t].workerState.value.workerId == w.worker.id
    ensures Leads(w, route, w') && IsHandled(w', t)
  {
    var v := Looking(w, Ready);
    var first := PumpLooks(w, Ready);
    var u := Goto(v, ClaimOwn(w.worker.inFlight));
    assert Goes(v, ClaimNone(now, defaultMs), u);
    var next;
    w', next := LookupStarts(u, t, now, defaultMs);
    LeadsThrough(w, first, v, Via(ClaimNone(now, defaultMs), u, next), w');
    route := first.Then(Via(ClaimNone(now, defaultMs), u, next));
  }

  /** The rare tick of a parked loop with a permit can start any task whose lease is over and that is not in flight. */
  lemma StaleTaskCanBeStarted(w: World, t: TaskId, now: int, defaultMs: nat) returns (w': World, route: Route)
    requires Inv(w) && w.worker.pc.Parked? && w.worker.stream.Some? && w.worker.available > 0
    requires t in w.docs && t !in w.worker.inFlight && StaleAt(w.docs[t], now, defaultMs)
    ensures Leads(w, route, w') && IsHandled(w', t)
  {
    var v := Goto(w, Acquire(StaleRecovery));
    assert Goes(w, PeriodicTick, v);
    var first := PumpLooks(v, StaleRecovery);
    var next;
    w', next := LookupStarts(Looking(v, StaleRecovery), t, now, defaultMs);
    LeadsThrough(v, first, Looking(v, StaleRecovery), next, w');
    route := Via(PeriodicTick, v, first.Then(next));
  }

  /** So can the expiry timer, when the task's entry is due and its task id, if known, is right. */
  lemma DueTaskCanBeStarted(w: World, t: TaskId, known: Option<TaskId>, rest: seq<Target>, now: int, defaultMs: nat)
    returns (w': World, route: Route)
    requires Inv(w) && w.worker.pc.Parked? && w.worker.stream.Some? && w.worker.available > 0
    requires t in w.docs && t !in w.worker.inFlight && StaleAt(w.docs[t], now, defaultMs)
    requires known.None? || known == Some(t)
    ensures Leads(w, route, w') && IsHandled(w', t)
    ensures route.Via? && route.step == ExpiryTimer([Target(w.docs[t].oid, known)] + rest)
  {
    var next := Target(w.docs[t].oid, known);
    var due := [next] + rest;
    var w1 := Goto(w, NextDue(due));
    var w2 := w1.(worker := w1.worker.(available := w.worker.available - 1, pc := SnapshotDue(next, rest)));
    var w3 := Goto(w2, ClaimDue(next, rest, w.worker.inFlight));
    assert due[1..] == rest;
    assert Goes(w, ExpiryTimer(due), w1) && Goes(w1, TryAcquire, w2) && Goes(w2, TakeSnapshot, w3);
    var last;
    w', last := LookupStarts(w3, t, now, defaultMs);
    route := Via(ExpiryTimer(due), w1, Via(TryAcquire, w2, Via(TakeSnapshot, w3, last)));
  }
}
