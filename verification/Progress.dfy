/**
 What claims can do in every reachable state. The safety laws would hold of a system
 in which nothing ever succeeds; this module shows that a claim starts a lease of the
 requested length, that a claim that holds its task gets its result stored, and that
 no task is ever beyond finishing.
 */
module Progress {
  import opened Prelude
  import opened Documents
  import opened Store
  import opened Protocol
  import opened LeaseTime
  import BeatOrder
  import Executions
  import L = Lifecycle

  // ----- the lease a claim starts -----

  /** A claim makes its task running for the claimant, with a lease that ends the task's timeout after the claim. */
  lemma ClaimStartsTheLease(h: L.Handler, states: seq<System>, actions: seq<Action>, i: nat)
    requires Run(h, states, actions) && i < |actions| && actions[i].Take?
    ensures var a := actions[i];
            && a.taskId in states[i].docs && a.taskId in states[i + 1].docs
            && var d, d' := states[i].docs[a.taskId], states[i + 1].docs[a.taskId];
               && SameRequest(d, d') && d.switchTimeoutMs.Some? && Shaped(d')
               && HasTask(states[i + 1].docs, Claimant(a.taskId, a.workerId, a.token))
               && Heartbeat(d') == Some(a.startedAt) && LeaseEnd(d') == a.startedAt + d.switchTimeoutMs.value
  {
    StepOfRun(h, states, actions, i);
    RunKeepsInv(h, states, actions, i + 1, i + 1);
    var a := actions[i];
    assert Shaped(states[i].docs[a.taskId]);
    ClaimContract(states[i].docs, a.taskId, a.workerId, a.token, a.startedAt, a.defaultMs, a.path);
    assert Shaped(states[i + 1].docs[a.taskId]);
  }

  /** So nobody can take the task as stale before that, whatever the clock says. */
  lemma NoStealDuringTheLease(h: L.Handler, states: seq<System>, actions: seq<Action>, i: nat, steal: Action)
    requires Run(h, states, actions) && i < |actions| && actions[i].Take?
    requires steal.Take? && steal.path.StalePath? && steal.taskId == actions[i].taskId
    requires Protocol.Enabled(h, states[i + 1], steal)
    ensures steal.taskId in states[i].docs && states[i].docs[steal.taskId].switchTimeoutMs.Some?
    ensures actions[i].startedAt + states[i].docs[steal.taskId].switchTimeoutMs.value <= steal.path.now
  {
    ClaimStartsTheLease(h, states, actions, i);
  }

  /** The document still carries the request of the enqueue. */
  predicate Carries(docs: Docs, req: EnqueueRequest) {
    && req.taskId in docs && docs[req.taskId].input == Some(req.input)
    && docs[req.taskId].switchTimeoutMs == Some(TruncateToI64(req.switchTimeoutMs))
  }

  lemma StepKeepsRequest(h: L.Handler, s: System, a: Action, s': System, req: EnqueueRequest)
    requires Step(h, s, a, s') && Carries(s.docs, req)
    requires !Executions.Enqueues(s, a, req.taskId) && !(a.Remove? && a.taskId == req.taskId)
    ensures Carries(s'.docs, req)
  {
    if a.Take? {
      ClaimContract(s.docs, a.taskId, a.workerId, a.token, a.startedAt, a.defaultMs, a.path);
    } else if a.Land? || a.Answer? || a.FirstBeat? {
      WriteContract(s.docs, if a.FirstBeat? then BeatOf(s, a.token, a.at) else a.write);
    }
  }

  /**
   From an accepted enqueue until the next one, or a removal, the task has the input
   and the timeout of that enqueue: claims, heartbeats and results leave them alone.
   */
  lemma {:induction false} RequestIsKept(h: L.Handler, states: seq<System>, actions: seq<Action>, i: nat, j: nat)
    requires Run(h, states, actions) && i < j <= |actions|
    requires actions[i].Call? && Executions.Enqueues(states[i], actions[i], actions[i].req.taskId)
    requires forall m | i < m < j ::
               && !Executions.Enqueues(states[m], actions[m], actions[i].req.taskId)
               && !(actions[m].Remove? && actions[m].taskId == actions[i].req.taskId)
    ensures Carries(states[j].docs, actions[i].req)
  {
    if j == i + 1 {
      StepOfRun(h, states, actions, i);
      AcceptedIsCarried(h, states[i], actions[i], states[j]);
    } else {
      RequestIsKept(h, states, actions, i, j - 1);
      StepOfRun(h, states, actions, j - 1);
      StepKeepsRequest(h, states[j - 1], actions[j - 1], states[j], actions[i].req);
    }
  }

  lemma AcceptedIsCarried(h: L.Handler, s: System, a: Action, s': System)
    requires Step(h, s, a, s') && a.Call? && Executions.Enqueues(s, a, a.req.taskId)
    ensures Carries(s'.docs, a.req)
  {
    EnqueueContract(s.docs, a.req, a.oid, a.now, a.req.resetWhen, false);
  }

  /** A claim's lease has the length the caller asked for: no stale claim can be made before it is over. */
  lemma LeaseIsTheRequested(
    h: L.Handler, states: seq<System>, actions: seq<Action>, i: nat, m: nat, steal: Action)
    requires Run(h, states, actions) && i < m < |actions|
    requires actions[i].Call? && Executions.Enqueues(states[i], actions[i], actions[i].req.taskId)
    requires actions[m].Take? && actions[m].taskId == actions[i].req.taskId
    requires forall n | i < n < m ::
               && !Executions.Enqueues(states[n], actions[n], actions[i].req.taskId)
               && !(actions[n].Remove? && actions[n].taskId == actions[i].req.taskId)
    requires actions[i].req.switchTimeoutMs <= I64_MAX
    requires steal.Take? && steal.path.StalePath? && steal.taskId == actions[m].taskId
    requires Protocol.Enabled(h, states[m + 1], steal)
    ensures actions[m].startedAt + actions[i].req.switchTimeoutMs <= steal.path.now
  {
    RequestIsKept(h, states, actions, i, m);
    TruncationIsExact(actions[i].req.switchTimeoutMs);
    NoStealDuringTheLease(h, states, actions, m, steal);
  }

  // ----- what anyone can do -----

  /**
   The clock can go on, callers can enqueue, documents can be removed, processes can
   crash, and a write that was sent can land, in any state.
   */
  lemma AnythingCanHappen(
    h: L.Handler, s: System, to: int, req: EnqueueRequest, oid: ObjectId, t: TaskId, k: ClaimToken, wr: Write)
    ensures s.clock <= to ==> Protocol.Enabled(h, s, Tick(to)) && Next(s, Tick(to)).clock == to
    ensures (forall u <- s.docs :: s.docs[u].oid != oid) ==>
              && Protocol.Enabled(h, s, Call(req, oid, s.clock))
              && Next(s, Call(req, oid, s.clock)).docs == Apply(s.docs, Enqueue(req, oid, s.clock))
    ensures t in s.docs ==> Protocol.Enabled(h, s, Remove(t)) && Next(s, Remove(t)).docs == s.docs - {t}
    ensures k in s.claims ==>
              && Protocol.Enabled(h, s, Vanish(k))
              && InPhase(Next(s, Vanish(k)), k, Exited) && Next(s, Vanish(k)).docs == s.docs
    ensures wr in s.sent ==>
              Protocol.Enabled(h, s, Land(wr)) && Next(s, Land(wr)).docs == Apply(s.docs, Update(wr))
  {
  }

  // ----- what a claim can do -----

  /** A pending task can be claimed by anyone with a new token. */
  lemma PendingCanBeClaimed(h: L.Handler, s: System, t: TaskId, w: WorkerId, k: ClaimToken, defaultMs: nat)
    requires Inv(h, s) && 0 <= s.clock && t in s.docs && s.docs[t].status == Some(Pending) && k !in s.claims
    ensures Protocol.Enabled(h, s, Take(t, w, k, s.clock, defaultMs, PendingPath))
  {
  }

  /**
   A new claim whose input decodes can send its first heartbeat, which starts the
   handler exactly if the claim still holds its task.
   */
  lemma HolderStarts(h: L.Handler, s: System, k: ClaimToken)
    requires Inv(h, s) && InPhase(s, k, Setup) && BeatOrder.InOrder(s, k) && 0 <= s.clock
    requires Decodes(h, s.claims[k].doc)
    ensures var a, c := FirstBeat(k, s.clock), Claimant(s.claims[k].doc.taskId, s.claims[k].workerId, k);
            && Protocol.Enabled(h, s, a)
            && InPhase(Next(s, a), k, if HasTask(s.docs, c) then Handling else Exited)
            && (HasTask(s.docs, c) ==>
                  HasTask(Next(s, a).docs, c) && Heartbeat(Next(s, a).docs[c.taskId]) == Some(s.clock))
            && (!HasTask(s.docs, c) ==> Next(s, a).docs == s.docs)
  {
    WriteContract(s.docs, BeatOf(s, k, s.clock));
  }

  /**
   A claim that is handling its task can send a heartbeat unless one is outstanding;
   an answer that matched renews the lease.
   */
  lemma HandlingClaimCanBeat(h: L.Handler, s: System, k: ClaimToken)
    requires Inv(h, s) && InPhase(s, k, Handling) && BeatOrder.InOrder(s, k) && 0 <= s.clock
    requires s.claims[k].loop.Idle?
    ensures var c := Claimant(s.claims[k].doc.taskId, s.claims[k].workerId, k);
            var beat := BeatWrite(c.taskId, c.workerId, k, s.clock);
            && Protocol.Enabled(h, s, Beat(k, s.clock))
            && var s1 := Next(s, Beat(k, s.clock));
               && s1.docs == s.docs && beat in s1.sent && Protocol.Enabled(h, s1, Answer(beat))
               && var s2 := Next(s1, Answer(beat));
                  && (HasTask(s.docs, c) ==>
                        && s2.claims[k].loop.Idle? && HasTask(s2.docs, c)
                        && Heartbeat(s2.docs[c.taskId]) == Some(s.clock))
                  && (!HasTask(s.docs, c) ==> s2.claims[k].loop.Ended? && s2.docs == s.docs)
  {
    assert CapturedToken(s.claims[k].doc) == k;
    WriteContract(s.docs, BeatOf(s, k, s.clock));
  }

  /** How a claim can end with a terminal write: the action and the write it sends. */
  datatype Ending = Ending(action: Action, write: Write)

  /** The endings of a claim at time `at`: a bad input, an unanswered first heartbeat, a result, a handler error. */
  ghost predicate IsEnding(h: L.Handler, s: System, k: ClaimToken, at: int, e: Ending)
    requires k in s.claims && s.claims[k].doc.input.Some?
  {
    var c, input := s.claims[k], s.claims[k].doc.input.value;
    var t := c.doc.taskId;
    || (&& c.phase.Setup? && !h.decodes(input) && e.action == RejectInput(k, at)
        && e.write == FailureWrite(t, c.workerId, k, at, "infrastructure error: payload format mismatch in task_input"))
    || (&& c.phase.Setup? && h.decodes(input) && e.action.FirstBeatError?
        && e.action == FirstBeatError(k, at, e.action.message)
        && e.write == FailureWrite(t, c.workerId, k, at, "infrastructure error: database error: " + e.action.message))
    || (&& c.phase.Handling? && e.action.Return? && e.action.output.Some?
        && e.action == Return(k, at, e.action.output) && h.produces(t, input, e.action.output)
        && e.write == SuccessWrite(t, c.workerId, k, at, e.action.output.value))
    || (&& c.phase.Handling? && e.action.Raise?
        && e.action == Raise(k, at, e.action.message) && h.fails(t, input, e.action.message)
        && e.write == FailureWrite(t, c.workerId, k, at, "handler error: " + e.action.message))
  }

  /** The write's outcome is stored. */
  predicate Stored(docs: Docs, wr: Write) {
    && wr.taskId in docs
    && match wr
       case BeatWrite(_, _, _, _) => false
       case SuccessWrite(_, _, _, _, output) =>
         docs[wr.taskId].status == Some(Succeeded) && docs[wr.taskId].output == Some(output)
       case FailureWrite(_, _, _, _, reason) =>
         docs[wr.taskId].status == Some(Failed) && docs[wr.taskId].error == Some(reason)
  }

  /**
   Every ending is open to its claim, sends its write, and the write can land; if
   the claim holds its task when it lands, its outcome is stored.
   */
  lemma EndingIsStored(h: L.Handler, s: System, k: ClaimToken, e: Ending)
    requires Inv(h, s) && 0 <= s.clock && k in s.claims && BeatOrder.InOrder(s, k)
    requires s.claims[k].doc.input.Some? && IsEnding(h, s, k, s.clock, e)
    ensures Protocol.Enabled(h, s, e.action)
    ensures var s1 := Next(s, e.action);
            && s1.docs == s.docs && e.write in s1.sent && InPhase(s1, k, Exited)
            && Protocol.Enabled(h, s1, Land(e.write))
            && (HasTask(s.docs, Claimant(s.claims[k].doc.taskId, s.claims[k].workerId, k)) ==>
                  Stored(Next(s1, Land(e.write)).docs, e.write))
  {
    assert CapturedToken(s.claims[k].doc) == k;
    WriteContract(s.docs, e.write);
  }

  /** The claim that holds a running task has its input and its task id. */
  lemma HolderHasTheInput(h: L.Handler, s: System, c: Claimant)
    requires Inv(h, s) && HasTask(s.docs, c)
    ensures c.token in s.claims && s.claims[c.token].doc.taskId == c.taskId
    ensures s.claims[c.token].workerId == c.workerId && s.claims[c.token].doc.input == s.docs[c.taskId].input
    ensures s.docs[c.taskId].input.Some?
  {
    assert Shaped(s.docs[c.taskId]);
  }

  // ----- no task is beyond finishing -----

  /** The actions lead from `s` to `s'`. */
  ghost predicate Leads(h: L.Handler, s: System, actions: seq<Action>, s': System)
    decreases |actions|
  {
    if actions == [] then s == s'
    else Protocol.Enabled(h, s, actions[0]) && Leads(h, Next(s, actions[0]), actions[1..], s')
  }

  lemma {:induction false} LeadsThrough(
    h: L.Handler, s: System, first: seq<Action>, v: System, next: seq<Action>, s': System)
    requires Leads(h, s, first, v) && Leads(h, v, next, s')
    ensures Leads(h, s, first + next, s')
    decreases |first|
  {
    if first == [] {
      assert first + next == next;
    } else {
      LeadsThrough(h, Next(s, first[0]), first[1..], v, next, s');
      assert (first + next)[0] == first[0] && (first + next)[1..] == first[1..] + next;
    }
  }

  lemma LeadsByTwo(h: L.Handler, s: System, a: Action, b: Action)
    requires Protocol.Enabled(h, s, a) && Protocol.Enabled(h, Next(s, a), b)
    ensures Leads(h, s, [a, b], Next(Next(s, a), b))
  {
    assert [a, b][1..] == [b] && [b][1..] == [];
    assert Leads(h, Next(s, a), [b], Next(Next(s, a), b));
  }

  /** What every reachable state has. */
  ghost predicate Sound(h: L.Handler, s: System) {
    Inv(h, s) && 0 <= s.clock && forall k <- s.claims :: BeatOrder.InOrder(s, k)
  }

  lemma ReachableIsSound(h: L.Handler, states: seq<System>, actions: seq<Action>, i: nat)
    requires Run(h, states, actions) && i < |states|
    ensures Sound(h, states[i])
  {
    RunKeepsInv(h, states, actions, 0, i);
    BeatOrder.RunKeepsOrder(h, states, actions, i);
  }

  lemma StepIsSound(h: L.Handler, s: System, a: Action)
    requires Sound(h, s) && Protocol.Enabled(h, s, a)
    ensures Sound(h, Next(s, a))
  {
    StepKeepsInv(h, s, a, Next(s, a));
    BeatOrder.StepKeepsOrder(h, s, a, Next(s, a));
    StepGrows(h, s, a, Next(s, a));
  }

  /** An unfinished task can be claimed: at once while it is pending, when its lease is over while it is running. */
  lemma UnfinishedCanBeClaimed(
    h: L.Handler, s: System, t: TaskId, w: WorkerId, k: ClaimToken, defaultMs: nat) returns (later: int, a: Action)
    requires Inv(h, s) && 0 <= s.clock && t in s.docs && k !in s.claims
    requires s.docs[t].status == Some(Pending) || s.docs[t].status == Some(Running)
    ensures s.clock <= later && a.Take? && a.taskId == t && a.workerId == w && a.token == k && a.startedAt == later
    ensures Protocol.Enabled(h, Next(s, Tick(later)), a)
  {
    assert Shaped(s.docs[t]);
    if s.docs[t].status == Some(Pending) {
      later, a := s.clock, Take(t, w, k, s.clock, defaultMs, PendingPath);
    } else {
      var end := LeaseEnd(s.docs[t]);
      later := if s.clock < end then end else s.clock;
      a := Take(t, w, k, later, defaultMs, StalePath(later));
    }
  }

  /** Claim `c` has task `c.taskId` with this input, in this phase. */
  ghost predicate Works(s: System, c: Claimant, input: Bson, phase: Phase) {
    HasTask(s.docs, c) && s.docs[c.taskId].input == Some(input) && InPhase(s, c.token, phase)
  }

  lemma CanGetClaimed(h: L.Handler, s: System, c: Claimant, input: Bson, defaultMs: nat)
    returns (actions: seq<Action>, s': System)
    requires Sound(h, s) && c.taskId in s.docs && c.token !in s.claims
    requires s.docs[c.taskId].status == Some(Pending) || s.docs[c.taskId].status == Some(Running)
    requires s.docs[c.taskId].input == Some(input)
    ensures Leads(h, s, actions, s') && Sound(h, s') && Works(s', c, input, Setup)
  {
    var later, take := UnfinishedCanBeClaimed(h, s, c.taskId, c.workerId, c.token, defaultMs);
    var s1 := Next(s, Tick(later));
    StepIsSound(h, s, Tick(later));
    StepIsSound(h, s1, take);
    ClaimContract(s1.docs, c.taskId, c.workerId, c.token, later, take.defaultMs, take.path);
    LeadsByTwo(h, s, Tick(later), take);
    actions, s' := [Tick(later), take], Next(s1, take);
  }

  lemma CanStart(h: L.Handler, s: System, c: Claimant, input: Bson) returns (actions: seq<Action>, s': System)
    requires Sound(h, s) && Works(s, c, input, Setup) && h.decodes(input)
    ensures Leads(h, s, actions, s') && Sound(h, s') && Works(s', c, input, Handling)
  {
    var beat := FirstBeat(c.token, s.clock);
    HolderHasTheInput(h, s, c);
    HolderStarts(h, s, c.token);
    StepIsSound(h, s, beat);
    WriteContract(s.docs, BeatOf(s, c.token, s.clock));
    actions, s' := [beat], Next(s, beat);
    assert [beat][1..] == [];
  }

  lemma CanFinish(h: L.Handler, s: System, c: Claimant, input: Bson, output: Bson)
    returns (actions: seq<Action>, s': System)
    requires Sound(h, s) && Works(s, c, input, Handling) && h.produces(c.taskId, input, Some(output))
    ensures Leads(h, s, actions, s')
    ensures Stored(s'.docs, SuccessWrite(c.taskId, c.workerId, c.token, s.clock, output))
    ensures s'.docs[c.taskId].input == Some(input)
  {
    HolderHasTheInput(h, s, c);
    var e := Ending(Return(c.token, s.clock, Some(output)),
                    SuccessWrite(c.taskId, c.workerId, c.token, s.clock, output));
    EndingIsStored(h, s, c.token, e);
    WriteContract(s.docs, e.write);
    LeadsByTwo(h, s, e.action, Land(e.write));
    actions, s' := [e.action, Land(e.write)], Next(Next(s, e.action), Land(e.write));
  }

  /**
   No task is beyond finishing. From every reachable state every unfinished task whose
   input decodes can still succeed, with any result of the handler for the input it
   has now: wait for the lease, claim, beat, return, and the write lands.
   */
  lemma EveryTaskCanSucceed(
    h: L.Handler, states: seq<System>, actions: seq<Action>, i: nat, c: Claimant,
    input: Bson, defaultMs: nat, output: Bson)
    returns (more: seq<Action>, s': System)
    requires Run(h, states, actions) && i < |states| && c.taskId in states[i].docs && c.token !in states[i].claims
    requires states[i].docs[c.taskId].status == Some(Pending) || states[i].docs[c.taskId].status == Some(Running)
    requires states[i].docs[c.taskId].input == Some(input) && h.decodes(input)
    requires h.produces(c.taskId, input, Some(output))
    ensures Leads(h, states[i], more, s') && c.taskId in s'.docs
    ensures s'.docs[c.taskId].status == Some(Succeeded) && s'.docs[c.taskId].output == Some(output)
    ensures s'.docs[c.taskId].input == Some(input)
  {
    ReachableIsSound(h, states, actions, i);
    more, s' := SoundTaskCanSucceed(h, states[i], c, input, defaultMs, output);
  }

  lemma SoundTaskCanSucceed(h: L.Handler, s: System, c: Claimant, input: Bson, defaultMs: nat, output: Bson)
    returns (actions: seq<Action>, s': System)
    requires Sound(h, s) && c.taskId in s.docs && c.token !in s.claims
    requires s.docs[c.taskId].status == Some(Pending) || s.docs[c.taskId].status == Some(Running)
    requires s.docs[c.taskId].input == Some(input) && h.decodes(input) && h.produces(c.taskId, input, Some(output))
    ensures Leads(h, s, actions, s') && c.taskId in s'.docs
    ensures s'.docs[c.taskId].status == Some(Succeeded) && s'.docs[c.taskId].output == Some(output)
    ensures s'.docs[c.taskId].input == Some(input)
  {
    var first, s1 := CanGetClaimed(h, s, c, input, defaultMs);
    var second, s2 := CanStart(h, s1, c, input);
    var third, s3 := CanFinish(h, s2, c, input, output);
    LeadsThrough(h, s1, second, s2, third, s3);
    LeadsThrough(h, s, first, s1, second + third, s3);
    actions, s' := first + (second + third), s3;
  }
}
