/**
 The heartbeats of one claim reach the database in the order of their times. The
 claim sends one at a time and none after an unanswered one, and an answered one
 does not land again; the order follows.
 */
module BeatOrder {
  import opened Prelude
  import opened Documents
  import opened Store
  import opened Protocol
  import L = Lifecycle

  /** Documents held by claim `k` have a heartbeat of `at` or earlier. */
  predicate HeartbeatUpTo(docs: Docs, k: ClaimToken, at: int) {
    forall t <- docs | Holds(docs[t], k) && Heartbeat(docs[t]).Some? :: Heartbeat(docs[t]).value <= at
  }

  /** Every heartbeat of claim `k` that can still land is `only`. */
  predicate OutstandingBeat(sent: set<Write>, k: ClaimToken, only: Option<Write>) {
    forall wr <- sent | wr.BeatWrite? && wr.token == k :: Some(wr) == only
  }

  /** Where the loop of claim `k` stands, what can still land, and what is stored. */
  predicate InOrder(s: System, k: ClaimToken)
    requires k in s.claims
  {
    && (s.claims[k].phase.Setup? ==> s.claims[k].loop.Idle?)
    && match s.claims[k].loop
       case Idle(since) =>
         since <= s.clock && OutstandingBeat(s.sent, k, None) && HeartbeatUpTo(s.docs, k, since)
       case Waiting(beat) =>
         && beat.BeatWrite? && beat.token == k && beat.at <= s.clock
         && OutstandingBeat(s.sent, k, Some(beat)) && HeartbeatUpTo(s.docs, k, beat.at)
       case Ended => OutstandingBeat(s.sent, k, None)
  }

  /** A write of another claim, or one that does not match, leaves the heartbeats of claim `k` alone. */
  lemma LandKeepsHeartbeats(docs: Docs, wr: Write, k: ClaimToken, at: int)
    requires HeartbeatUpTo(docs, k, at)
    requires wr.token == k && wr.BeatWrite? ==> wr.at <= at
    ensures HeartbeatUpTo(Apply(docs, Update(wr)), k, at)
  {
  }

  lemma TakeIsInOrder(h: L.Handler, s: System, a: Action)
    requires Inv(h, s) && Protocol.Enabled(h, s, a) && a.Take?
    ensures InOrder(Next(s, a), a.token)
  {
    var s' := Next(s, a);
    forall wr <- s.sent ensures wr.token != a.token {
      assert SentOk(h, s.claims, wr);
    }
    forall t <- s'.docs | t != a.taskId ensures !Holds(s'.docs[t], a.token) {
      assert s'.docs[t] == s.docs[t];
    }
  }

  lemma TakeKeepsOrder(h: L.Handler, s: System, a: Action, k: ClaimToken)
    requires Inv(h, s) && Protocol.Enabled(h, s, a) && a.Take? && k in s.claims && InOrder(s, k)
    ensures InOrder(Next(s, a), k)
  {
    var s' := Next(s, a);
    forall t <- s'.docs | Holds(s'.docs[t], k) ensures t in s.docs && s'.docs[t] == s.docs[t] {
    }
  }

  /** Enqueues and removals leave no document of claim `k` with a later heartbeat. */
  lemma OthersKeepOrder(h: L.Handler, s: System, a: Action, k: ClaimToken)
    requires Inv(h, s) && Protocol.Enabled(h, s, a) && (a.Call? || a.Remove? || a.Tick?)
    requires k in s.claims && InOrder(s, k)
    ensures InOrder(Next(s, a), k)
  {
    var s' := Next(s, a);
    forall t <- s'.docs | Holds(s'.docs[t], k) ensures t in s.docs && s'.docs[t] == s.docs[t] {
    }
  }

  lemma LandKeepsOrder(h: L.Handler, s: System, wr: Write, k: ClaimToken)
    requires Inv(h, s) && wr in s.sent && k in s.claims && InOrder(s, k)
    ensures InOrder(LandWrite(s, wr), k)
  {
    match s.claims[k].loop
    case Idle(since) => LandKeepsHeartbeats(s.docs, wr, k, since);
    case Waiting(beat) => LandKeepsHeartbeats(s.docs, wr, k, beat.at);
    case Ended =>
  }

  lemma AnswerKeepsOrder(h: L.Handler, s: System, wr: Write, k: ClaimToken)
    requires Inv(h, s) && Protocol.Enabled(h, s, Answer(wr)) && k in s.claims && InOrder(s, k) && InOrder(s, wr.token)
    ensures InOrder(Next(s, Answer(wr)), k)
  {
    LandKeepsOrder(h, s, wr, k);
    if k == wr.token {
      LandKeepsHeartbeats(s.docs, wr, k, s.clock);
    }
  }

  lemma FirstBeatKeepsOrder(h: L.Handler, s: System, a: Action, k: ClaimToken)
    requires Inv(h, s) && Protocol.Enabled(h, s, a) && a.FirstBeat? && k in s.claims && InOrder(s, k)
    ensures InOrder(Next(s, a), k)
  {
    var wr := BeatOf(s, a.token, a.at);
    match s.claims[k].loop
    case Idle(since) =>
      LandKeepsHeartbeats(s.docs, wr, k, if k == a.token then s.clock else since);
    case Waiting(beat) => LandKeepsHeartbeats(s.docs, wr, k, beat.at);
    case Ended =>
  }

  /** The claim's only heartbeat is the one it sends now. */
  lemma BeatKeepsOrder(h: L.Handler, s: System, a: Action, k: ClaimToken)
    requires Inv(h, s) && Protocol.Enabled(h, s, a) && k in s.claims && InOrder(s, k)
    requires a.FirstBeatError? || a.Beat?
    ensures InOrder(Next(s, a), k)
  {
    assert BeatOf(s, a.token, a.at).token == a.token;
  }

  lemma ExitKeepsOrder(h: L.Handler, s: System, a: Action, k: ClaimToken)
    requires Inv(h, s) && Protocol.Enabled(h, s, a) && k in s.claims && InOrder(s, k)
    requires a.RejectInput? || a.Return? || a.Raise? || a.Vanish?
    ensures InOrder(Next(s, a), k)
  {
    var s' := Next(s, a);
    SameOrder(s, s', k, a.token);
  }

  /** No heartbeat is sent, and the loop of claim `k` goes on or ends with its setup. */
  lemma SameOrder(s: System, s': System, k: ClaimToken, exiting: ClaimToken)
    requires k in s.claims && InOrder(s, k) && exiting in s.claims
    requires s'.docs == s.docs && s'.clock == s.clock && forall wr <- s'.sent | wr.BeatWrite? :: wr in s.sent
    requires s'.claims == Exit(s, exiting).claims
    ensures InOrder(s', k)
  {
  }

  lemma StepKeepsOneOrder(h: L.Handler, s: System, a: Action, s': System, k: ClaimToken)
    requires Inv(h, s) && Step(h, s, a, s') && k in s.claims && InOrder(s, k)
    requires a.Answer? && a.write.token in s.claims ==> InOrder(s, a.write.token)
    ensures InOrder(s', k)
  {
    if a.Take? {
      TakeKeepsOrder(h, s, a, k);
    } else if a.Land? {
      LandKeepsOrder(h, s, a.write, k);
    } else if a.Answer? {
      AnswerKeepsOrder(h, s, a.write, k);
    } else if a.FirstBeat? {
      FirstBeatKeepsOrder(h, s, a, k);
    } else if a.Call? || a.Remove? || a.Tick? {
      OthersKeepOrder(h, s, a, k);
    } else if a.Beat? || a.FirstBeatError? {
      BeatKeepsOrder(h, s, a, k);
    } else {
      ExitKeepsOrder(h, s, a, k);
    }
  }

  lemma StepKeepsOrder(h: L.Handler, s: System, a: Action, s': System)
    requires Inv(h, s) && Step(h, s, a, s') && forall k <- s.claims :: InOrder(s, k)
    ensures forall k <- s'.claims :: InOrder(s', k)
  {
    forall k <- s'.claims ensures InOrder(s', k) {
      if k in s.claims {
        StepKeepsOneOrder(h, s, a, s', k);
      } else {
        TakeIsInOrder(h, s, a);
      }
    }
  }

  /** In every state of every run each claim has at most one heartbeat that can still land, and it is the newest. */
  lemma {:induction false} RunKeepsOrder(h: L.Handler, states: seq<System>, actions: seq<Action>, i: nat)
    requires Run(h, states, actions) && i < |states|
    ensures forall k <- states[i].claims :: InOrder(states[i], k)
  {
    if i == 0 {
      assert states[0].claims == map[];
    } else {
      RunKeepsOrder(h, states, actions, i - 1);
      StepOfRun(h, states, actions, i - 1);
      StepKeepsOrder(h, states[i - 1], actions[i - 1], states[i]);
    }
  }

  /** The heartbeat that an action brings to the database, if any. */
  function BeatIn(s: System, a: Action): Option<Write>
    requires a.FirstBeat? ==> a.token in s.claims
  {
    match a
    case FirstBeat(k, at) => Some(BeatOf(s, k, at))
    case Land(wr) => if wr.BeatWrite? then Some(wr) else None
    case Answer(wr) => if wr.BeatWrite? then Some(wr) else None
    case _ => None
  }

  /**
   A heartbeat that matches is never older than the stored one: while a claim holds
   its task, the heartbeat never goes back.
   */
  lemma BeatsAreInOrder(h: L.Handler, states: seq<System>, actions: seq<Action>, i: nat)
    requires Run(h, states, actions) && i < |actions|
    requires actions[i].FirstBeat? ==> actions[i].token in states[i].claims
    ensures var beat := BeatIn(states[i], actions[i]);
            beat.Some? && Matches(states[i].docs, beat.value) ==>
              Heartbeat(states[i].docs[beat.value.taskId]).Some?
              && Heartbeat(states[i].docs[beat.value.taskId]).value <= beat.value.at
  {
    StepOfRun(h, states, actions, i);
    RunKeepsOrder(h, states, actions, i);
    var s, beat := states[i], BeatIn(states[i], actions[i]);
    if beat.Some? && Matches(s.docs, beat.value) {
      assert Shaped(s.docs[beat.value.taskId]);
      if actions[i].Land? {
        assert SentOk(h, s.claims, beat.value);
      }
      assert InOrder(s, beat.value.token);
    }
  }
}
