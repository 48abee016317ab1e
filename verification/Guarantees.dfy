/** What every run of the protocol guarantees, for any number of callers and workers. */
module Guarantees {
  import opened Prelude
  import opened Documents
  import opened Store
  import opened Protocol
  import L = Lifecycle

  ghost predicate Current(s: System, k: ClaimToken) {
    exists t <- s.docs :: Holds(s.docs[t], k)
  }

  ghost predicate InRun(h: L.Handler, states: seq<System>, actions: seq<Action>, i: int) {
    Run(h, states, actions) && 0 <= i < |states|
  }

  /** The real system follows the simple machine: every history is legal and the documents replay it. */
  lemma HistoryIsLegal(h: L.Handler, states: seq<System>, actions: seq<Action>, i: nat, t: TaskId)
    requires InRun(h, states, actions, i)
    ensures L.Legal(h, states[i].history)
    ensures t in states[i].docs <==> !L.Replay(states[i].history, t).Gone?
    ensures t in states[i].docs ==>
              && Shaped(states[i].docs[t])
              && ViewOf(states[i].docs, t) == L.Replay(states[i].history, t)
  {
    RunKeepsInv(h, states, actions, i, i);
    assert ViewOf(states[i].docs, t) == L.Replay(states[i].history, t);
  }

  /**
   A succeeded document's output is a handler result for the input stored in
   that document, which is the input of the last accepted enqueue.
   */
  lemma OutputMatchesInput(h: L.Handler, states: seq<System>, actions: seq<Action>, i: nat, t: TaskId)
    requires InRun(h, states, actions, i) && t in states[i].docs
    ensures var d := states[i].docs[t];
            && d.input.Some? && d.input == L.LastInput(states[i].history, t)
            && (d.status == Some(Succeeded) ==>
                  d.output.Some? && h.produces(t, d.input.value, Some(d.output.value)))
  {
    HistoryIsLegal(h, states, actions, i, t);
    L.ReplayShowsTheLatest(h, states[i].history, t);
  }

  /** A claim is current exactly when it holds the document of its own task, and then it is that task's latest claim. */
  lemma CurrentIsTheLatestClaim(h: L.Handler, states: seq<System>, actions: seq<Action>, i: nat, k: ClaimToken)
    requires InRun(h, states, actions, i) && k in states[i].claims
    ensures var t := states[i].claims[k].doc.taskId;
            && (Current(states[i], k) <==> t in states[i].docs && Holds(states[i].docs[t], k))
            && (Current(states[i], k) ==> L.LastClaim(states[i].history, t) == Some(k))
  {
    RunKeepsInv(h, states, actions, i, i);
    var t := states[i].claims[k].doc.taskId;
    if Current(states[i], k) {
      HistoryIsLegal(h, states, actions, i, t);
      L.ReplayShowsTheLatest(h, states[i].history, t);
    }
  }

  /**
   Fencing. Once an issued claim does not hold its task (another claim took it,
   it finished, was reset or removed), no write with its token changes any
   document, however late it lands.
   */
  lemma Fencing(
    h: L.Handler, states: seq<System>, actions: seq<Action>, i: nat, j: nat, k: ClaimToken, wr: Write)
    requires InRun(h, states, actions, j) && i <= j
    requires k in states[i].claims && !Current(states[i], k)
    requires wr.token == k
    ensures !Current(states[j], k)
    ensures Apply(states[j].docs, Update(wr)) == states[j].docs
  {
    RunKeepsInv(h, states, actions, i, j);
    var past, history := states[i].history, states[j].history;
    assert history[..|past|] == past && history[..|history|] == history;
    forall t <- states[j].docs ensures !Holds(states[j].docs[t], k) {
      assert ViewOf(states[i].docs, t) == L.Replay(past, t);
      assert ViewOf(states[j].docs, t) == L.Replay(history, t);
      L.LostTokenStaysLost(h, history, t, k, |past|, |history|);
    }
  }

  /** A write that changes a document comes from that task's most recent claim. */
  lemma OnlyTheLatestClaimWrites(h: L.Handler, states: seq<System>, actions: seq<Action>, i: nat, wr: Write)
    requires InRun(h, states, actions, i)
    requires Apply(states[i].docs, Update(wr)) != states[i].docs
    ensures wr.taskId in states[i].docs && Holds(states[i].docs[wr.taskId], wr.token)
    ensures L.LastClaim(states[i].history, wr.taskId) == Some(wr.token)
  {
    HistoryIsLegal(h, states, actions, i, wr.taskId);
    L.ReplayShowsTheLatest(h, states[i].history, wr.taskId);
  }

  /** The document is pending or running. */
  predicate Unfinished(docs: Docs, t: TaskId) {
    t in docs && (docs[t].status == Some(Pending) || docs[t].status == Some(Running))
  }

  /**
   Conservation per task: accepted enqueues equal terminal writes, plus removals
   of an unfinished task, plus one while the task is unfinished; and insertions
   equal removals plus one while the document exists.
   */
  lemma EnqueuesAreConserved(h: L.Handler, states: seq<System>, actions: seq<Action>, i: nat, t: TaskId)
    requires InRun(h, states, actions, i)
    ensures var c := L.Count(states[i].history, t);
            && c.inserted + c.resets == c.finished + c.cancelled + (if Unfinished(states[i].docs, t) then 1 else 0)
            && c.inserted == c.removed + (if t in states[i].docs then 1 else 0)
  {
    HistoryIsLegal(h, states, actions, i, t);
    L.Conservation(h, states[i].history, t);
  }

  /** Between two resets of a task, or an insertion and a reset, the task finished. */
  lemma ResetsNeedATerminalWrite(
    h: L.Handler, states: seq<System>, actions: seq<Action>, i: nat, t: TaskId, a: nat, b: nat)
    requires InRun(h, states, actions, i)
    requires a < b < |states[i].history|
    requires L.Accepts(states[i].history[a], t) && L.Accepts(states[i].history[b], t)
    requires L.Count(states[i].history, t).removed == 0
    ensures exists m :: a < m < b && states[i].history[m].Finished? && states[i].history[m].taskId == t
  {
    HistoryIsLegal(h, states, actions, i, t);
    L.AcceptedEnqueuesAlternate(h, states[i].history, t, a, b);
    var m :| a < m < b && L.Ends(states[i].history[m], t);
    if states[i].history[m].Removed? {
      RemovalIsCounted(states[i].history, t, m);
    }
  }

  lemma {:induction false} RemovalIsCounted(history: seq<L.Entry>, t: TaskId, m: nat)
    requires m < |history| && history[m] == L.Removed(t)
    ensures L.Count(history, t).removed > 0
  {
    if m < |history| - 1 {
      assert history[..|history| - 1][m] == history[m];
      RemovalIsCounted(history[..|history| - 1], t, m);
    } else {
      RemovalsAreNotNegative(history[..m], t);
    }
  }

  lemma {:induction false} RemovalsAreNotNegative(history: seq<L.Entry>, t: TaskId)
    ensures L.Count(history, t).removed >= 0
  {
    if history == [] {
    } else {
      RemovalsAreNotNegative(history[..|history| - 1], t);
    }
  }

  // ----- one verdict per claim -----

  /** A claim that has sent a terminal write has exited, and has sent no other one. */
  ghost predicate OneVerdict(s: System) {
    && (forall wr <- s.sent | !wr.BeatWrite? :: InPhase(s, wr.token, Exited))
    && (forall x, y | x in s.sent && y in s.sent && !x.BeatWrite? && !y.BeatWrite? && x.token == y.token :: x == y)
  }

  lemma ProceedKeepsOneVerdict(s: System, k: ClaimToken, phase: Phase, loop: Loop)
    requires OneVerdict(s) && k in s.claims && (s.claims[k].phase == Exited ==> phase == Exited)
    ensures OneVerdict(Proceed(s, k, phase, loop))
  {
  }

  /** Dropping writes, or sending a heartbeat, changes nothing about verdicts. */
  lemma BeatsKeepOneVerdict(s: System, s': System)
    requires OneVerdict(s) && s'.claims == s.claims && forall wr <- s'.sent | !wr.BeatWrite? :: wr in s.sent
    ensures OneVerdict(s')
  {
  }

  /** A claim that has not exited has sent no verdict, so this one is its only one. */
  lemma VerdictKeepsOneVerdict(s: System, wr: Write, loop: Loop)
    requires OneVerdict(s) && wr.token in s.claims && !wr.BeatWrite? && s.claims[wr.token].phase != Exited
    ensures OneVerdict(Proceed(Send(s, wr), wr.token, Exited, loop))
  {
    assert forall x <- s.sent | !x.BeatWrite? :: InPhase(s, x.token, Exited);
  }

  lemma StepKeepsOneVerdict(h: L.Handler, s: System, a: Action, s': System)
    requires Inv(h, s) && OneVerdict(s) && Step(h, s, a, s')
    ensures OneVerdict(s')
  {
    if a.Tick? || a.Call? || a.Take? || a.Land? || a.Remove? {
      assert s'.sent == s.sent;
      assert forall k <- s.claims :: k in s'.claims && s'.claims[k] == s.claims[k];
    } else if a.Answer? {
      var c := s.claims[a.write.token];
      BeatsKeepOneVerdict(s, LandAnswered(s, a.write));
      ProceedKeepsOneVerdict(LandAnswered(s, a.write), a.write.token, c.phase, s'.claims[a.write.token].loop);
    } else {
      OwnStepKeepsOneVerdict(h, s, a, s');
    }
  }

  /** The steps of a claim's own process. */
  lemma OwnStepKeepsOneVerdict(h: L.Handler, s: System, a: Action, s': System)
    requires Inv(h, s) && OneVerdict(s) && Step(h, s, a, s')
    requires !(a.Tick? || a.Call? || a.Take? || a.Land? || a.Remove? || a.Answer?)
    ensures OneVerdict(s')
  {
    var k, c', left := a.token, s'.claims[a.token], Exit(s, a.token).claims[a.token].loop;
    if a.Vanish? || (a.Return? && a.output.None?) {
      ProceedKeepsOneVerdict(s, k, Exited, left);
    } else if a.FirstBeat? {
      var beat := BeatOf(s, k, a.at);
      if Matches(s.docs, beat) {
        BeatsKeepOneVerdict(s, LandWrite(s, beat));
        ProceedKeepsOneVerdict(LandWrite(s, beat), k, Handling, Idle(s.clock));
      } else {
        ProceedKeepsOneVerdict(s, k, Exited, Ended);
      }
    } else if a.Beat? {
      BeatsKeepOneVerdict(s, Send(s, BeatOf(s, k, a.at)));
      ProceedKeepsOneVerdict(Send(s, BeatOf(s, k, a.at)), k, c'.phase, c'.loop);
    } else if a.FirstBeatError? {
      var sent := Send(s, BeatOf(s, k, a.at));
      BeatsKeepOneVerdict(s, sent);
      VerdictKeepsOneVerdict(sent, FailureOf(s, k, a.at, UNREACHABLE + a.message), c'.loop);
    } else {
      VerdictKeepsOneVerdict(s, VerdictOf(s, a), left);
    }
  }

  /** The terminal write of an action that exits with one. */
  function VerdictOf(s: System, a: Action): Write
    requires (a.RejectInput? || a.Return? || a.Raise?) && a.token in s.claims && (a.Return? ==> a.output.Some?)
  {
    match a
    case RejectInput(k, at) => FailureOf(s, k, at, REJECTED)
    case Return(k, at, output) => SuccessOf(s, k, at, output.value)
    case Raise(k, at, message) => FailureOf(s, k, at, "handler error: " + message)
  }

  /** Whatever happens, a claim sends at most one terminal write: never two verdicts on one execution. */
  lemma {:induction false} OneTerminalWritePerClaim(h: L.Handler, states: seq<System>, actions: seq<Action>, i: nat)
    requires InRun(h, states, actions, i)
    ensures OneVerdict(states[i])
  {
    if i == 0 {
      assert states[i].sent == {};
    } else {
      OneTerminalWritePerClaim(h, states, actions, i - 1);
      StepOfRun(h, states, actions, i - 1);
      StepKeepsOneVerdict(h, states[i - 1], actions[i - 1], states[i]);
    }
  }

  // ----- an exit without a verdict -----

  /** Claim `k` has exited, and no terminal write of it can ever land. */
  ghost predicate Abandoned(s: System, k: ClaimToken) {
    InPhase(s, k, Exited) && forall wr <- s.sent | wr.token == k :: wr.BeatWrite?
  }

  lemma StepKeepsAbandoned(h: L.Handler, s: System, a: Action, s': System, k: ClaimToken)
    requires Inv(h, s) && Step(h, s, a, s') && Abandoned(s, k)
    ensures Abandoned(s', k)
  {
    if !(a.Tick? || a.Call? || a.Take? || a.Land? || a.Remove? || a.Answer?) {
      assert CapturedToken(s.claims[a.token].doc) == a.token;
    }
  }

  lemma LandLeavesHeld(docs: Docs, wr: Write, k: ClaimToken, t: TaskId)
    requires t in docs && Holds(docs[t], k) && (wr.token == k ==> wr.BeatWrite?)
    ensures t in Apply(docs, Update(wr)) && Holds(Apply(docs, Update(wr))[t], k)
  {
  }

  lemma StepKeepsAbandonedTask(h: L.Handler, s: System, a: Action, s': System, k: ClaimToken, t: TaskId)
    requires Step(h, s, a, s') && Abandoned(s, k)
    requires t in s.docs && Holds(s.docs[t], k)
    requires !(a.Take? && a.taskId == t) && !(a.Remove? && a.taskId == t)
    ensures t in s'.docs && Holds(s'.docs[t], k)
  {
    if a.Land? || a.Answer? || a.FirstBeat? {
      LandLeavesHeld(s.docs, if a.FirstBeat? then BeatOf(s, a.token, a.at) else a.write, k, t);
    }
  }

  /**
   A claim that exits without sending a terminal write, as when its output does
   not serialize, leaves its task running for as long as nobody claims or removes it.
   */
  lemma {:induction false} AbandonedStaysRunning(
    h: L.Handler, states: seq<System>, actions: seq<Action>, i: nat, j: nat, k: ClaimToken, t: TaskId)
    requires InRun(h, states, actions, j) && i <= j
    requires Abandoned(states[i], k) && t in states[i].docs && Holds(states[i].docs[t], k)
    requires forall m | i <= m < j ::
               !(actions[m].Take? && actions[m].taskId == t) && !(actions[m].Remove? && actions[m].taskId == t)
    ensures Abandoned(states[j], k) && t in states[j].docs && Holds(states[j].docs[t], k)
  {
    if i == j {
    } else {
      AbandonedStaysRunning(h, states, actions, i, j - 1, k, t);
      StepOfRun(h, states, actions, j - 1);
      StepKeepsAbandoned(h, states[j - 1], actions[j - 1], states[j], k);
      StepKeepsAbandonedTask(h, states[j - 1], actions[j - 1], states[j], k, t);
    }
  }

  /** Such an exit is the return of an output that does not serialize. */
  lemma FailedOutputIsAbandoned(h: L.Handler, states: seq<System>, actions: seq<Action>, i: nat)
    requires InRun(h, states, actions, i) && i < |actions|
    requires actions[i].Return? && actions[i].output.None?
    ensures Abandoned(states[i + 1], actions[i].token) && states[i + 1].docs == states[i].docs
  {
    StepOfRun(h, states, actions, i);
    OneTerminalWritePerClaim(h, states, actions, i);
  }
}
