/** The heartbeat loop of one claim, and when it makes `process_task` abort the handler. */
module Heartbeats {
  import opened Prelude
  import opened Documents
  import opened Store
  import opened Collection
  import P = Protocol

  type Answer = Result<bool, string>

  datatype Outcome = Alive | Superseded | TransientError

  /** `classify_heartbeat_result`: the write's answer is whether it matched, or an error. */
  function Classify(answer: Answer): Outcome {
    match answer
    case Ok(true) => Alive
    case Ok(false) => Superseded
    case Err(_) => TransientError
  }

  /** The lost-ownership channel, seen from the handler's side. */
  datatype Channel = Quiet | Signalled | Closed

  /** The select arm fires on a message, and just as well on a closed channel. */
  predicate Aborts(c: Channel) {
    c != Quiet
  }

  /** The number of answers before the first that is not "matched". */
  function FirstBad(answers: seq<Answer>): (n: nat)
    ensures n <= |answers| && forall i | 0 <= i < n :: answers[i] == Ok(true)
    ensures n < |answers| ==> answers[n] != Ok(true)
  {
    if answers == [] || answers[0] != Ok(true) then 0 else 1 + FirstBad(answers[1..])
  }

  /** A period of zero panics in `time::interval`: the loop never begins. */
  predicate Begins(timeoutNs: nat) {
    HeartbeatInterval(timeoutNs) > 0
  }

  /** Of the answers the database would give, those that the loop gets: up to the first that is not "matched". */
  function Received(timeoutNs: nat, answers: seq<Answer>): seq<Answer> {
    if !Begins(timeoutNs) then []
    else if FirstBad(answers) < |answers| then answers[..FirstBad(answers) + 1]
    else answers
  }

  /** The channel the loop leaves behind; a panic drops the sender like any other end of the loop. */
  function ChannelAfter(timeoutNs: nat, answers: seq<Answer>): Channel {
    var n := FirstBad(answers);
    if !Begins(timeoutNs) then Closed
    else if n == |answers| then Quiet
    else if Classify(answers[n]) == Superseded then Signalled
    else Closed
  }

  /** The heartbeat that the claim which returned `d` to worker `w` sends at `at`. */
  function BeatBy(d: Doc, w: WorkerId, at: int): Write {
    BeatWrite(d.taskId, w, P.CapturedToken(d), at)
  }

  /** The answers of some exchanges. */
  function AnswersOf(log: seq<Exchange>): (answers: seq<Answer>)
    ensures |answers| == |log| && forall i | 0 <= i < |log| :: answers[i] == log[i].Answer()
  {
    seq(|log|, i requires 0 <= i < |log| => log[i].Answer())
  }

  /** The exchanges are the commands numbered from `first` on. */
  ghost predicate Numbered(log: seq<Exchange>, outcomes: nat -> Collection.Outcome, first: nat) {
    forall i | 0 <= i < |log| :: log[i].outcome == outcomes(first + i)
  }

  /** The exchanges are heartbeats at the first ticks. */
  ghost predicate BeatsAt(log: seq<Exchange>, d: Doc, w: WorkerId, ticks: seq<int>) {
    && |log| <= |ticks|
    && forall i | 0 <= i < |log| :: log[i].write == BeatWrite(d.taskId, w, P.CapturedToken(d), ticks[i])
  }

  /** One tick of the loop, after others have acted. */
  method BeatOnce(collection: TaskCollection, d: Doc, w: WorkerId, at: int)
    returns (outcome: Outcome, ghost e: Exchange)
    requires WellIndexed(collection.docs)
    modifies collection
    ensures WellIndexed(collection.docs)
    ensures collection.journal == old(collection.journal) + [e]
    ensures collection.commands == old(collection.commands) + 1
    ensures e.write == BeatBy(d, w, at) && e.outcome == collection.outcomes(old(collection.commands))
    ensures outcome == Classify(e.Answer())
    ensures outcome == Superseded ==> !Matches(collection.docs, e.write)
  {
    Await(collection);
    e := Exchange(BeatBy(d, w, at), collection.docs, collection.outcomes(collection.commands));
    var answer := collection.UpdateOne(BeatBy(d, w, at));
    outcome := Classify(answer);
  }

  /**
   The loop over the ticks that complete while the handler runs, with everyone
   else acting in between: it sends one heartbeat a tick until an answer is not
   "matched". Leaving the loop drops the sender; a message is sent only if the claim
   has really lost the task.
   */
  method RunLoop(collection: TaskCollection, d: Doc, w: WorkerId, timeoutNs: nat, ticks: seq<int>)
    returns (channel: Channel, ghost log: seq<Exchange>)
    requires WellIndexed(collection.docs)
    modifies collection
    ensures WellIndexed(collection.docs)
    ensures collection.journal == old(collection.journal) + log
    ensures collection.commands == old(collection.commands) + |log|
    ensures Numbered(log, collection.outcomes, old(collection.commands)) && BeatsAt(log, d, w, ticks)
    ensures channel == ChannelAfter(timeoutNs, AnswersOf(log)) && AnswersOf(log) == Received(timeoutNs, AnswersOf(log))
    ensures channel == Quiet ==> |log| == |ticks|
    ensures channel == Signalled ==> log != [] && !Matches(collection.docs, log[|log| - 1].write)
  {
    channel, log := Quiet, [];
    if HeartbeatInterval(timeoutNs) == 0 {
      return Closed, [];
    }
    var sent := 0;
    while sent < |ticks|
      invariant WellIndexed(collection.docs) && channel == Quiet
      invariant sent == |log| && AllMatched(log) && BeatsAt(log, d, w, ticks)
      invariant collection.journal == old(collection.journal) + log
      invariant collection.commands == old(collection.commands) + |log|
      invariant Numbered(log, collection.outcomes, old(collection.commands))
    {
      var outcome;
      ghost var e;
      outcome, e := BeatOnce(collection, d, w, ticks[sent]);
      LoopEndsWith(timeoutNs, log, e);
      OneMoreBeat(log, e, d, w, ticks, collection.outcomes, old(collection.commands));
      log := log + [e];
      sent := sent + 1;
      match outcome {
        case Alive =>
        case Superseded =>
          return Signalled, log;
        case TransientError =>
          return Closed, log;
      }
    }
    FirstBadIs(AnswersOf(log), |log|);
  }

  lemma OneMoreBeat(
    log: seq<Exchange>, e: Exchange, d: Doc, w: WorkerId, ticks: seq<int>,
    outcomes: nat -> Collection.Outcome, first: nat)
    requires BeatsAt(log, d, w, ticks) && Numbered(log, outcomes, first) && |log| < |ticks|
    requires e.write == BeatBy(d, w, ticks[|log|]) && e.outcome == outcomes(first + |log|)
    ensures BeatsAt(log + [e], d, w, ticks) && Numbered(log + [e], outcomes, first)
  {
  }

  ghost predicate AllMatched(log: seq<Exchange>) {
    forall i | 0 <= i < |log| :: log[i].Answer() == Ok(true)
  }

  /** The first answer that is not "matched" decides what the loop leaves behind. */
  lemma LoopEndsWith(timeoutNs: nat, log: seq<Exchange>, e: Exchange)
    requires Begins(timeoutNs) && AllMatched(log)
    ensures e.Answer() == Ok(true) ==> AllMatched(log + [e])
    ensures e.Answer() != Ok(true) ==>
              && ChannelAfter(timeoutNs, AnswersOf(log + [e])) ==
                 (if Classify(e.Answer()) == Superseded then Signalled else Closed)
              && Received(timeoutNs, AnswersOf(log + [e])) == AnswersOf(log + [e])
  {
    if e.Answer() != Ok(true) {
      FirstBadIs(AnswersOf(log + [e]), |log|);
    }
  }

  lemma FirstBadIs(answers: seq<Answer>, n: nat)
    requires n <= |answers| && forall i | 0 <= i < n :: answers[i] == Ok(true)
    requires n < |answers| ==> answers[n] != Ok(true)
    ensures FirstBad(answers) == n
  {
  }

  /** The documented rule: the handler is aborted only if a heartbeat found the claim superseded. */
  predicate AbortsOnlyIfSuperseded(timeoutNs: nat, answers: seq<Answer>) {
    Aborts(ChannelAfter(timeoutNs, answers)) ==>
      exists i | 0 <= i < |Received(timeoutNs, answers)| :: Classify(Received(timeoutNs, answers)[i]) == Superseded
  }

  /** The documented rule fails for one heartbeat that the database did not answer. */
  lemma TransientErrorAborts(timeoutNs: nat)
    requires Begins(timeoutNs)
    ensures !AbortsOnlyIfSuperseded(timeoutNs, [Err("timeout")])
  {
  }

  /** It also fails for a timeout of zero, before any heartbeat is sent, whatever the database would answer. */
  lemma ZeroTimeoutAborts(answers: seq<Answer>)
    ensures Received(0, answers) == [] && ChannelAfter(0, answers) == Closed
    ensures !AbortsOnlyIfSuperseded(0, answers)
  {
  }

  /**
   What the code does: the handler is aborted exactly if the interval is zero or
   some answer is not "matched". The documented rule holds exactly if the interval
   is not zero and no heartbeat the loop gets an answer for ends in an error.
   */
  lemma AbortsExactly(timeoutNs: nat, answers: seq<Answer>)
    ensures Aborts(ChannelAfter(timeoutNs, answers)) <==>
            timeoutNs < 3 || exists i :: 0 <= i < |answers| && answers[i] != Ok(true)
    ensures AbortsOnlyIfSuperseded(timeoutNs, answers) <==>
            timeoutNs >= 3 && forall i | 0 <= i < |Received(timeoutNs, answers)| :: Received(timeoutNs, answers)[i].Ok?
  {
    var got, n := Received(timeoutNs, answers), FirstBad(answers);
    if Begins(timeoutNs) && n < |answers| {
      assert got[n] == answers[n];
    }
  }

  /** A stored timeout that is not negative gives a zero interval exactly if it is zero. */
  lemma ZeroIntervalIff(d: Doc, fallbackNs: nat)
    ensures Begins(HandlerTimeoutNs(d, fallbackNs)) <==>
            if StoredTimeout(d).Some? && StoredTimeout(d).value >= 0
            then StoredTimeout(d).value > 0 else fallbackNs >= 3
  {
  }
}
