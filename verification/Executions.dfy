/**
 How often one accepted enqueue is executed. The promise is once; the module has
 runs in which it is twice, and says exactly when it is not.
 */
module Executions {
  import opened Prelude
  import opened Documents
  import opened Store
  import opened Protocol
  import opened LeaseTime
  import L = Lifecycle

  /** Action `a` is an accepted enqueue of task `t`. */
  predicate Enqueues(s: System, a: Action, t: TaskId) {
    a.Call? && a.req.taskId == t && EnqueueAnswer(s.docs, a.req).Ok?
  }

  predicate Takes(a: Action, t: TaskId) {
    a.Take? && a.taskId == t
  }

  /** A claim of a task that is already running. */
  predicate Reclaims(s: System, a: Action, t: TaskId) {
    Takes(a, t) && t in s.docs && s.docs[t].status == Some(Running)
  }

  function CountTakes(actions: seq<Action>, t: TaskId, i: nat, j: nat): nat
    requires i <= j <= |actions|
  {
    if i == j then 0 else CountTakes(actions, t, i, j - 1) + if Takes(actions[j - 1], t) then 1 else 0
  }

  function CountReclaims(states: seq<System>, actions: seq<Action>, t: TaskId, i: nat, j: nat): nat
    requires i <= j <= |actions| < |states|
  {
    if i == j then 0
    else CountReclaims(states, actions, t, i, j - 1) + if Reclaims(states[j - 1], actions[j - 1], t) then 1 else 0
  }

  lemma {:induction false} NoReclaims(states: seq<System>, actions: seq<Action>, t: TaskId, i: nat, j: nat)
    requires i <= j <= |actions| < |states|
    ensures CountReclaims(states, actions, t, i, j) == 0 <==>
            forall m | i <= m < j :: !Reclaims(states[m], actions[m], t)
  {
    if i == j {
    } else {
      NoReclaims(states, actions, t, i, j - 1);
    }
  }

  /** A task waits until its first claim, and never waits again before the next accepted enqueue. */
  predicate Tallied(docs: Docs, t: TaskId, takes: nat, reclaims: nat) {
    && takes == reclaims + (if takes > 0 then 1 else 0)
    && (t in docs && docs[t].status == Some(Pending) ==> takes == 0)
    && (t in docs && docs[t].status == Some(Running) ==> takes > 0)
  }

  lemma StepIsTallied(h: L.Handler, s: System, a: Action, s': System, t: TaskId, takes: nat, reclaims: nat)
    requires Inv(h, s) && Step(h, s, a, s') && !Enqueues(s, a, t) && Tallied(s.docs, t, takes, reclaims)
    ensures Tallied(s'.docs, t, takes + (if Takes(a, t) then 1 else 0), reclaims + (if Reclaims(s, a, t) then 1 else 0))
  {
    if a.Take? && a.taskId == t {
      assert Shaped(s.docs[t]);
    } else if a.Land? || a.Answer? || a.FirstBeat? {
      LandIsTallied(h, s, if a.FirstBeat? then BeatOf(s, a.token, a.at) else a.write, t, takes, reclaims);
    }
  }

  lemma LandIsTallied(h: L.Handler, s: System, wr: Write, t: TaskId, takes: nat, reclaims: nat)
    requires Tallied(s.docs, t, takes, reclaims)
    ensures Tallied(Apply(s.docs, Update(wr)), t, takes, reclaims)
  {
  }

  lemma AcceptedWaits(h: L.Handler, s: System, a: Action, s': System, t: TaskId)
    requires Step(h, s, a, s') && Enqueues(s, a, t)
    ensures Tallied(s'.docs, t, 0, 0)
  {
  }

  /** After an accepted enqueue and before the next one, claims are reclaims plus the first. */
  lemma {:induction false} TakesAreTallied(
    h: L.Handler, states: seq<System>, actions: seq<Action>, i: nat, j: nat, t: TaskId)
    requires Run(h, states, actions) && i < j <= |actions|
    requires Enqueues(states[i], actions[i], t)
    requires forall m | i < m < j :: !Enqueues(states[m], actions[m], t)
    ensures Tallied(states[j].docs, t, CountTakes(actions, t, i + 1, j), CountReclaims(states, actions, t, i + 1, j))
  {
    if j == i + 1 {
      StepOfRun(h, states, actions, i);
      AcceptedWaits(h, states[i], actions[i], states[j], t);
    } else {
      TakesAreTallied(h, states, actions, i, j - 1, t);
      StepOfRun(h, states, actions, j - 1);
      StepIsTallied(h, states[j - 1], actions[j - 1], states[j], t,
                    CountTakes(actions, t, i + 1, j - 1), CountReclaims(states, actions, t, i + 1, j - 1));
    }
  }

  /**
   Between an accepted enqueue and the next one a task is claimed at most once
   exactly if no claim is made on it while it is running.
   */
  lemma ClaimedOnceIff(h: L.Handler, states: seq<System>, actions: seq<Action>, i: nat, j: nat, t: TaskId)
    requires Run(h, states, actions) && i < j <= |actions|
    requires Enqueues(states[i], actions[i], t)
    requires forall m | i < m < j :: !Enqueues(states[m], actions[m], t)
    ensures CountTakes(actions, t, i + 1, j) <= 1 <==>
            forall m | i < m < j :: !Reclaims(states[m], actions[m], t)
  {
    TakesAreTallied(h, states, actions, i, j, t);
    NoReclaims(states, actions, t, i + 1, j);
  }

  /**
   And a claim on a running task is open exactly to a process with the worker id
   that holds it, looking for its own abandoned tasks, and to anyone once the
   lease has run out.
   */
  lemma ReclaimIsOpenIff(h: L.Handler, s: System, a: Action)
    requires Inv(h, s) && a.Take? && a.taskId in s.docs && s.docs[a.taskId].status == Some(Running)
    requires a.token !in s.claims && 0 <= a.startedAt <= s.clock && (a.path.StalePath? ==> a.path.now <= s.clock)
    ensures Protocol.Enabled(h, s, a) <==>
            match a.path
            case PendingPath => false
            case OwnPath => RunningFor(s.docs, a.taskId, a.workerId)
            case StalePath(now) => LeaseEnd(s.docs[a.taskId]) <= now
  {
    assert Shaped(s.docs[a.taskId]);
  }

  // ----- handlers started -----

  /** A claim of task `t` finds itself in possession of it with its first heartbeat, and starts the handler. */
  predicate Starts(s: System, a: Action, t: TaskId) {
    && a.FirstBeat? && a.token in s.claims && s.claims[a.token].doc.taskId == t
    && Matches(s.docs, BeatOf(s, a.token, a.at))
  }

  function CountStarts(states: seq<System>, actions: seq<Action>, t: TaskId, i: nat, j: nat): nat
    requires i <= j <= |actions| < |states|
  {
    if i == j then 0
    else CountStarts(states, actions, t, i, j - 1) + if Starts(states[j - 1], actions[j - 1], t) then 1 else 0
  }

  predicate IsPending(docs: Docs, t: TaskId) {
    t in docs && docs[t].status == Some(Pending)
  }

  /** The task is held by a claim that has yet to start its handler. */
  predicate Startable(s: System, t: TaskId) {
    && t in s.docs && s.docs[t].status == Some(Running)
    && s.docs[t].workerState.Some? && s.docs[t].workerState.value.claimToken.Some?
    && var k := s.docs[t].workerState.value.claimToken.value; k in s.claims && s.claims[k].phase.Setup?
  }

  lemma StartUsesUpTheClaim(h: L.Handler, s: System, a: Action, s': System, t: TaskId)
    requires Inv(h, s) && Step(h, s, a, s') && Starts(s, a, t)
    ensures Startable(s, t) && !Startable(s', t) && !IsPending(s'.docs, t)
  {
    assert CapturedToken(s.claims[a.token].doc) == a.token;
  }

  /** The phase of a claim never goes back to its setup. */
  lemma SetupIsLeftForGood(h: L.Handler, s: System, a: Action, s': System, k: ClaimToken)
    requires Step(h, s, a, s') && k in s.claims
    ensures k in s'.claims && (s'.claims[k].phase.Setup? ==> s.claims[k].phase.Setup?)
  {
  }

  /** `docs'` has `t` pending or running only if `docs` has, and running for the same claim. */
  predicate NothingNew(docs: Docs, docs': Docs, t: TaskId) {
    && (IsPending(docs', t) ==> IsPending(docs, t))
    && (t in docs' && docs'[t].status == Some(Running) ==>
          && t in docs && docs[t].status == Some(Running)
          && docs'[t].workerState.Some? == docs[t].workerState.Some?
          && (docs[t].workerState.Some? ==>
                docs'[t].workerState.value.claimToken == docs[t].workerState.value.claimToken))
  }

  lemma LandBringsNothingNew(docs: Docs, wr: Write, t: TaskId)
    ensures NothingNew(docs, Apply(docs, Update(wr)), t)
  {
  }

  lemma OnlyTakesBringSomethingNew(h: L.Handler, s: System, a: Action, s': System, t: TaskId)
    requires Step(h, s, a, s') && !Enqueues(s, a, t) && !Takes(a, t)
    ensures NothingNew(s.docs, s'.docs, t)
  {
    if a.Land? || a.Answer? || a.FirstBeat? {
      LandBringsNothingNew(s.docs, if a.FirstBeat? then BeatOf(s, a.token, a.at) else a.write, t);
    }
  }

  /** Without an enqueue a task does not become pending, and only a claim of it makes it startable. */
  lemma OnlyTakesMakeStartable(h: L.Handler, s: System, a: Action, s': System, t: TaskId)
    requires Inv(h, s) && Step(h, s, a, s') && !Enqueues(s, a, t) && !Takes(a, t)
    ensures IsPending(s'.docs, t) ==> IsPending(s.docs, t)
    ensures Startable(s', t) ==> Startable(s, t)
  {
    OnlyTakesBringSomethingNew(h, s, a, s', t);
    if Startable(s', t) {
      assert ClaimsMatch(s.docs, s.claims);
      SetupIsLeftForGood(h, s, a, s', s'.docs[t].workerState.value.claimToken.value);
    }
  }

  /** A claim finds its task pending, or running. */
  lemma TakeIsFirstOrReclaim(h: L.Handler, s: System, a: Action, s': System, t: TaskId)
    requires Inv(h, s) && Step(h, s, a, s') && Takes(a, t)
    ensures IsPending(s.docs, t) || Reclaims(s, a, t)
    ensures !IsPending(s'.docs, t)
  {
    assert Shaped(s.docs[t]);
  }

  /** Action `m` claims the running task `t` after a handler was started. */
  predicate Resumes(states: seq<System>, actions: seq<Action>, t: TaskId, i: nat, m: nat)
    requires i < m < |actions| < |states|
  {
    Reclaims(states[m], actions[m], t) && CountStarts(states, actions, t, i + 1, m) >= 1
  }

  /** Once a handler was started, another can only be after a claim on the running task. */
  lemma {:induction false} StartedOrResumed(
    h: L.Handler, states: seq<System>, actions: seq<Action>, i: nat, j: nat, t: TaskId)
    requires Run(h, states, actions) && i < j <= |actions|
    requires forall m | i < m < j :: !Enqueues(states[m], actions[m], t)
    requires CountStarts(states, actions, t, i + 1, j) >= 1
    ensures !IsPending(states[j].docs, t)
    ensures !Startable(states[j], t) || exists m :: i < m < j && Resumes(states, actions, t, i, m)
  {
    if j == i + 1 {
    } else {
      var s, a, s' := states[j - 1], actions[j - 1], states[j];
      StepOfRun(h, states, actions, j - 1);
      if Starts(s, a, t) {
        StartUsesUpTheClaim(h, s, a, s', t);
      } else {
        StartedOrResumed(h, states, actions, i, j - 1, t);
        if Takes(a, t) {
          TakeIsFirstOrReclaim(h, s, a, s', t);
          assert Resumes(states, actions, t, i, j - 1);
        } else {
          OnlyTakesMakeStartable(h, s, a, s', t);
        }
      }
    }
  }

  lemma {:induction false} StartsAddUp(
    states: seq<System>, actions: seq<Action>, t: TaskId, i: nat, m: nat, j: nat)
    requires i <= m <= j <= |actions| < |states|
    ensures CountStarts(states, actions, t, i, j) ==
            CountStarts(states, actions, t, i, m) + CountStarts(states, actions, t, m, j)
  {
    if j == m {
    } else {
      StartsAddUp(states, actions, t, i, m, j - 1);
    }
  }

  lemma StartWasOpen(h: L.Handler, states: seq<System>, actions: seq<Action>, i: nat, t: TaskId)
    requires Run(h, states, actions) && i < |actions| && Starts(states[i], actions[i], t)
    ensures Startable(states[i], t)
  {
    StepOfRun(h, states, actions, i);
    StartUsesUpTheClaim(h, states[i], actions[i], states[i + 1], t);
  }

  /** Two starts have a claim on the running task between them. */
  lemma {:induction false} SecondStartIsResumed(
    h: L.Handler, states: seq<System>, actions: seq<Action>, i: nat, j: nat, t: TaskId)
    returns (m: nat)
    requires Run(h, states, actions) && i < j <= |actions|
    requires forall n | i < n < j :: !Enqueues(states[n], actions[n], t)
    requires CountStarts(states, actions, t, i + 1, j) >= 2
    ensures i < m < j && Resumes(states, actions, t, i, m) && CountStarts(states, actions, t, m + 1, j) >= 1
  {
    if CountStarts(states, actions, t, i + 1, j - 1) >= 2 {
      m := SecondStartIsResumed(h, states, actions, i, j - 1, t);
    } else {
      StartWasOpen(h, states, actions, j - 1, t);
      StartedOrResumed(h, states, actions, i, j - 1, t);
      m :| i < m < j - 1 && Resumes(states, actions, t, i, m);
    }
  }

  /**
   Between an accepted enqueue and the next one the handler is started at most
   once exactly if no claim on the running task falls between a start and another:
   each one comes before any handler was started, or none is started after it.
   */
  lemma StartedOnceIff(h: L.Handler, states: seq<System>, actions: seq<Action>, i: nat, j: nat, t: TaskId)
    requires Run(h, states, actions) && i < j <= |actions|
    requires Enqueues(states[i], actions[i], t)
    requires forall m | i < m < j :: !Enqueues(states[m], actions[m], t)
    ensures CountStarts(states, actions, t, i + 1, j) <= 1 <==>
            forall m | i < m < j && Reclaims(states[m], actions[m], t) ::
              CountStarts(states, actions, t, i + 1, m) == 0 || CountStarts(states, actions, t, m + 1, j) == 0
  {
    if CountStarts(states, actions, t, i + 1, j) >= 2 {
      var m := SecondStartIsResumed(h, states, actions, i, j, t);
    } else {
      forall m | i < m < j && Reclaims(states[m], actions[m], t)
        ensures CountStarts(states, actions, t, i + 1, m) == 0 || CountStarts(states, actions, t, m + 1, j) == 0
      {
        StartsAddUp(states, actions, t, i + 1, m, j);
        StartsAddUp(states, actions, t, m, m + 1, j);
      }
    }
  }

  // ----- beating in time -----

  lemma {:induction false} NoTakes(actions: seq<Action>, t: TaskId, i: nat, j: nat)
    requires i <= j <= |actions| && forall m | i <= m < j :: !Takes(actions[m], t)
    ensures CountTakes(actions, t, i, j) == 0
  {
    if i == j {
    } else {
      NoTakes(actions, t, i, j - 1);
    }
  }

  /** The first claim after an accepted enqueue is not one of a running task. */
  lemma FirstTakeIsNoReclaim(
    h: L.Handler, states: seq<System>, actions: seq<Action>, i: nat, first: nat, t: TaskId)
    requires Run(h, states, actions) && i < first < |actions|
    requires Enqueues(states[i], actions[i], t)
    requires forall m | i < m < first :: !Enqueues(states[m], actions[m], t) && !Takes(actions[m], t)
    ensures !Reclaims(states[first], actions[first], t)
  {
    NoTakes(actions, t, i + 1, first);
    TakesAreTallied(h, states, actions, i, first, t);
  }

  /**
   A task whose first claim beats in time, and does not give up, is claimed once and
   its handler started at most once.
   */
  lemma BeatenTaskRunsOnce(
    h: L.Handler, states: seq<System>, actions: seq<Action>, i: nat, first: nat, j: nat, c: Claimant, b: Beats)
    requires Run(h, states, actions) && i < first < j <= |actions|
    requires Enqueues(states[i], actions[i], c.taskId)
    requires forall m | i < m < j :: !Enqueues(states[m], actions[m], c.taskId)
    requires forall m | i < m < first :: !Takes(actions[m], c.taskId)
    requires HasTask(states[first + 1].docs, c)
    requires states[first + 1].docs[c.taskId].switchTimeoutMs == Some(b.timeoutMs)
    requires BeatsInTime(states, actions, first + 1, j, c, b)
    requires Heartbeat(states[first + 1].docs[c.taskId]) == Some(b.times[0])
    requires 3 * (b.jitter + b.latency) < 2 * b.timeoutMs
    requires forall m | first < m < j :: !GivesUp(actions[m], c)
    ensures CountTakes(actions, c.taskId, i + 1, j) <= 1
    ensures CountStarts(states, actions, c.taskId, i + 1, j) <= 1
    ensures HasTask(states[j].docs, c)
  {
    BeatingKeepsTheTask(h, states, actions, first + 1, j, c, b, j);
    forall m | i < m < j ensures !Reclaims(states[m], actions[m], c.taskId) {
      if m == first {
        FirstTakeIsNoReclaim(h, states, actions, i, first, c.taskId);
      }
    }
    UnreclaimedRunsOnce(h, states, actions, i, j, c.taskId);
  }

  lemma UnreclaimedRunsOnce(h: L.Handler, states: seq<System>, actions: seq<Action>, i: nat, j: nat, t: TaskId)
    requires Run(h, states, actions) && i < j <= |actions|
    requires Enqueues(states[i], actions[i], t)
    requires forall m | i < m < j :: !Enqueues(states[m], actions[m], t)
    requires forall m | i < m < j :: !Reclaims(states[m], actions[m], t)
    ensures CountTakes(actions, t, i + 1, j) <= 1 && CountStarts(states, actions, t, i + 1, j) <= 1
  {
    ClaimedOnceIff(h, states, actions, i, j, t);
    StartedOnceIff(h, states, actions, i, j, t);
  }

  // ----- two executions -----

  /** The system while one claim handles the only task. */
  function HandlingOnce(d: Doc, w: WorkerId, k: ClaimToken): System {
    System(map[d.taskId := d], 0, map[k := ClaimRecord(w, d, Handling, Idle(0))], {},
           [L.Inserted(d.taskId, if d.input.Some? then d.input.value else Null), L.Claimed(d.taskId, k)])
  }

  /** The document after an enqueue and a claim at time 0. */
  function ClaimedAtOnce(req: EnqueueRequest, oid: ObjectId, w: WorkerId, k: ClaimToken, defaultMs: nat): Doc {
    ClaimedDoc(EnqueuedDoc(None, req, oid, 0), w, k, 0, defaultMs)
  }

  /** Enqueue, claim, first heartbeat. */
  lemma FirstExecution(
    h: L.Handler, req: EnqueueRequest, oid: ObjectId, w: WorkerId, k: ClaimToken, defaultMs: nat)
    returns (states: seq<System>, actions: seq<Action>)
    requires h.decodes(req.input)
    ensures Run(h, states, actions) && |actions| == 3
    ensures actions[0] == Call(req, oid, 0) && Enqueues(states[0], actions[0], req.taskId)
    ensures !actions[1].Call? && actions[2] == FirstBeat(k, 0)
    ensures states[2].docs == map[req.taskId := ClaimedAtOnce(req, oid, w, k, defaultMs)] && states[2].clock == 0
    ensures states[3] == HandlingOnce(ClaimedAtOnce(req, oid, w, k, defaultMs), w, k)
  {
    var d := ClaimedAtOnce(req, oid, w, k, defaultMs);
    actions := [Call(req, oid, 0), Take(req.taskId, w, k, 0, defaultMs, PendingPath), FirstBeat(k, 0)];
    var s1 := Next(INITIAL, actions[0]);
    assert s1 == System(map[req.taskId := EnqueuedDoc(None, req, oid, 0)], 0, map[], {},
                        [L.Inserted(req.taskId, req.input)]);
    var s2 := Next(s1, actions[1]);
    assert s2.docs == map[req.taskId := d];
    var s3 := Next(s2, actions[2]);
    assert s3.docs == map[req.taskId := d];
    states := [INITIAL, s1, s2, s3];
  }

  /** Beats can be in time: those of a claim with any positive timeout up to its first heartbeat. */
  lemma BeatsCanBeInTime(
    h: L.Handler, req: EnqueueRequest, oid: ObjectId, w: WorkerId, k: ClaimToken, defaultMs: nat)
    returns (states: seq<System>, actions: seq<Action>, b: Beats)
    requires h.decodes(req.input) && 0 < req.switchTimeoutMs <= I64_MAX
    ensures Run(h, states, actions) && |actions| == 3
    ensures var c := Claimant(req.taskId, w, k);
            && HasTask(states[2].docs, c) && states[2].docs[req.taskId].switchTimeoutMs == Some(b.timeoutMs)
            && BeatsInTime(states, actions, 2, 3, c, b) && |b.landed| == 1
            && Heartbeat(states[2].docs[req.taskId]) == Some(b.times[0])
            && 3 * (b.jitter + b.latency) < 2 * b.timeoutMs && !GivesUp(actions[2], c)
  {
    TruncationIsExact(req.switchTimeoutMs);
    states, actions := FirstExecution(h, req, oid, w, k, defaultMs);
    b := Beats([0, 0], [2], req.switchTimeoutMs, 0, 0);
    assert states[3].clock == 0;
  }

  lemma OneMoreStep(h: L.Handler, states: seq<System>, actions: seq<Action>, a: Action)
    requires Run(h, states, actions) && Protocol.Enabled(h, states[|actions|], a)
    ensures Run(h, states + [Next(states[|actions|], a)], actions + [a])
  {
    var states', actions' := states + [Next(states[|actions|], a)], actions + [a];
    forall i | 0 <= i < |actions'| ensures StepAt(h, states', actions', i) {
      if i < |actions| {
        assert StepAt(h, states, actions, i);
      }
    }
  }

  /** Claims `k` and `l` of task `t` both get to the handler, with the same input and one accepted enqueue. */
  ghost predicate ExecutesTwice(
    states: seq<System>, actions: seq<Action>, t: TaskId, input: Bson, k: ClaimToken, l: ClaimToken, m: nat, n: nat)
    requires |states| == |actions| + 1
  {
    && k != l && m <= n < |states| && actions != []
    && InPhase(states[m], k, Handling) && InPhase(states[n], l, Handling)
    && states[m].claims[k].doc.taskId == t == states[n].claims[l].doc.taskId
    && states[m].claims[k].doc.input == Some(input) == states[n].claims[l].doc.input
    && Enqueues(states[0], actions[0], t)
    && forall i | 0 < i < |actions| :: !actions[i].Call?
  }

  /** An output that does not serialize leaves the task running, and the same worker executes it again. */
  lemma FailedOutputIsExecutedTwice(
    h: L.Handler, req: EnqueueRequest, oid: ObjectId, w: WorkerId, k: ClaimToken, l: ClaimToken, defaultMs: nat)
    returns (states: seq<System>, actions: seq<Action>)
    requires h.decodes(req.input) && h.produces(req.taskId, req.input, None) && k != l
    ensures Run(h, states, actions) && ExecutesTwice(states, actions, req.taskId, req.input, k, l, 3, |actions|)
  {
    states, actions := FirstExecution(h, req, oid, w, k, defaultMs);
    var a := Return(k, 0, None);
    OneMoreStep(h, states, actions, a);
    states, actions := states + [Next(states[|actions|], a)], actions + [a];
    states, actions := SecondExecution(h, states, actions, req, l, Take(req.taskId, w, l, 0, defaultMs, OwnPath));
  }

  /** A lease that runs out lets another worker execute the task while the first handler is still at work. */
  lemma ExpiredLeaseIsExecutedTwice(
    h: L.Handler, req: EnqueueRequest, oid: ObjectId, w: WorkerId, v: WorkerId, k: ClaimToken, l: ClaimToken,
    defaultMs: nat)
    returns (states: seq<System>, actions: seq<Action>)
    requires h.decodes(req.input) && k != l
    ensures Run(h, states, actions)
    ensures ExecutesTwice(states, actions, req.taskId, req.input, k, l, |actions|, |actions|)
  {
    states, actions := FirstExecution(h, req, oid, w, k, defaultMs);
    TruncationIsExact(req.switchTimeoutMs);
    var later := Tick(I64_MAX);
    OneMoreStep(h, states, actions, later);
    states, actions := states + [Next(states[|actions|], later)], actions + [later];
    var steal := Take(req.taskId, v, l, I64_MAX, defaultMs, StalePath(I64_MAX));
    states, actions := SecondExecution(h, states, actions, req, l, steal);
  }

  /** A reclaim and its first heartbeat. */
  lemma SecondExecution(
    h: L.Handler, before: seq<System>, past: seq<Action>, req: EnqueueRequest, l: ClaimToken, take: Action)
    returns (states: seq<System>, actions: seq<Action>)
    requires Run(h, before, past) && h.decodes(req.input)
    requires take.Take? && take.taskId == req.taskId && take.token == l
    requires before[|past|].clock >= 0
    requires Protocol.Enabled(h, before[|past|], take)
    requires before[|past|].docs[req.taskId].taskId == req.taskId
    requires before[|past|].docs[req.taskId].input == Some(req.input)
    ensures Run(h, states, actions) && |actions| == |past| + 2
    ensures before <= states && past <= actions && !actions[|past|].Call? && !actions[|past| + 1].Call?
    ensures var s, s' := before[|past|], states[|actions|];
            && s'.claims.Keys == s.claims.Keys + {l} && (forall c <- s.claims :: s'.claims[c] == s.claims[c])
            && InPhase(s', l, Handling)
            && s'.claims[l].doc.taskId == req.taskId && s'.claims[l].doc.input == Some(req.input)
  {
    var s := before[|past|];
    OneMoreStep(h, before, past, take);
    var s1 := Next(s, take);
    states, actions := before + [s1], past + [take];
    assert s1.claims[l].doc.workerState.value.claimToken == Some(l);
    var beat := FirstBeat(l, s.clock);
    OneMoreStep(h, states, actions, beat);
    states, actions := states + [Next(s1, beat)], actions + [beat];
  }
}
