/**
 `process_task` as it runs: one claimed document, from its input to its terminal
 write, while everyone else goes on changing the collection in between.
 */
module Processing {
  import opened Prelude
  import opened Documents
  import opened Store
  import opened Collection
  import opened Heartbeats
  import P = Protocol

  ghost predicate AllFenced(log: seq<Exchange>, d: Doc, w: WorkerId) {
    forall i | 0 <= i < |log| :: Fenced(log[i].write, d, w)
  }

  /** How the handler ends if it is not aborted: an output (`None` if it does not serialize), or an error. */
  datatype HandlerEnd = Returned(output: Option<Bson>) | Raised(message: string)

  datatype TaskEnd =
    | Completed
    | WorkerGone
    | BadPayload(field: string)
    | HandlerError(message: string)
    | DatabaseError(message: string)

  /** The write belongs to the claim that returned `d` to worker `w`. */
  predicate Fenced(wr: Write, d: Doc, w: WorkerId) {
    wr.taskId == d.taskId && wr.workerId == w && wr.token == P.CapturedToken(d)
  }

  /** The reason that is stored when a task ends in this way. */
  function FailureReason(end: TaskEnd): string {
    match end
    case BadPayload(_) => P.REJECTED
    case DatabaseError(m) => P.UNREACHABLE + m
    case HandlerError(m) => "handler error: " + m
    case _ => ""
  }

  /** `mark_task_failed`; its own errors are only logged. */
  method MarkTaskFailed(collection: TaskCollection, d: Doc, w: WorkerId, reason: string, now: int)
    returns (ghost log: seq<Exchange>)
    requires WellIndexed(collection.docs)
    modifies collection
    ensures WellIndexed(collection.docs)
    ensures collection.journal == old(collection.journal) + log
    ensures collection.commands == old(collection.commands) + 1
    ensures log == [Exchange(FailureWrite(d.taskId, w, P.CapturedToken(d), now, reason), old(collection.docs),
                             collection.outcomes(old(collection.commands)))]
    ensures collection.docs == log[0].After()
  {
    var wr := FailureWrite(d.taskId, w, P.CapturedToken(d), now, reason);
    log := [Exchange(wr, collection.docs, collection.outcomes(collection.commands))];
    var _ := collection.UpdateOne(wr);
  }

  /**
   The handler's result is stored with one write: a success or a failure, or
   neither if the output does not serialize. The answer to the write decides how
   the task ends for a success, and is only logged for a failure.
   */
  method FinishTask(collection: TaskCollection, d: Doc, w: WorkerId, handler: HandlerEnd, now: int)
    returns (end: TaskEnd, ghost log: seq<Exchange>)
    requires WellIndexed(collection.docs)
    modifies collection
    ensures WellIndexed(collection.docs)
    ensures collection.journal == old(collection.journal) + log
    ensures collection.commands == old(collection.commands) + |log|
    ensures Numbered(log, collection.outcomes, old(collection.commands))
    ensures match handler
            case Raised(m) =>
              && end == HandlerError(m) && |log| == 1
              && log[0].write == FailureWrite(d.taskId, w, P.CapturedToken(d), now, "handler error: " + m)
            case Returned(None) => end == BadPayload("task_output") && log == []
            case Returned(Some(output)) =>
              && |log| == 1 && log[0].write == SuccessWrite(d.taskId, w, P.CapturedToken(d), now, output)
              && end == (match log[0].Answer()
                         case Ok(true) => Completed
                         case Ok(false) => WorkerGone
                         case Err(m) => DatabaseError(m))
    ensures log != [] ==> log[0].before == old(collection.docs) && collection.docs == log[0].After()
    ensures log == [] ==> collection.docs == old(collection.docs)
  {
    match handler {
      case Raised(m) =>
        end := HandlerError(m);
        log := MarkTaskFailed(collection, d, w, "handler error: " + m, now);
      case Returned(None) =>
        end, log := BadPayload("task_output"), [];
      case Returned(Some(output)) =>
        var success := SuccessWrite(d.taskId, w, P.CapturedToken(d), now, output);
        log := [Exchange(success, collection.docs, collection.outcomes(collection.commands))];
        var matched := collection.UpdateOne(success);
        match matched {
          case Ok(true) => end := Completed;
          case Ok(false) => end := WorkerGone;
          case Err(m) => end := DatabaseError(m);
        }
    }
  }

  /**
   The setup up to the first heartbeat. It fails if the input is missing or does
   not decode, if the claim no longer holds the task, or if the heartbeat is not
   answered; and only then.
   */
  method SetUp(collection: TaskCollection, d: Doc, w: WorkerId, decodes: bool, now: int)
    returns (failure: Option<TaskEnd>, ghost log: seq<Exchange>)
    requires WellIndexed(collection.docs)
    modifies collection
    ensures WellIndexed(collection.docs)
    ensures collection.journal == old(collection.journal) + log
    ensures collection.commands == old(collection.commands) + |log|
    ensures d.input.None? || !decodes ==>
              failure == Some(BadPayload("task_input")) && log == [] && collection.docs == old(collection.docs)
    ensures d.input.Some? && decodes ==>
              && log == [Exchange(BeatWrite(d.taskId, w, P.CapturedToken(d), now), old(collection.docs),
                                  collection.outcomes(old(collection.commands)))]
              && failure == (match log[0].Answer()
                             case Ok(true) => None
                             case Ok(false) => Some(WorkerGone)
                             case Err(m) => Some(DatabaseError(m)))
  {
    if d.input.None? || !decodes {
      return Some(BadPayload("task_input")), [];
    }
    log := [Exchange(BeatBy(d, w, now), collection.docs, collection.outcomes(collection.commands))];
    var alive := collection.UpdateOne(BeatBy(d, w, now));
    match alive {
      case Ok(true) => failure := None;
      case Ok(false) => failure := Some(WorkerGone);
      case Err(m) => failure := Some(DatabaseError(m));
    }
  }

  /**
   The handler beside its heartbeat loop. `finishedFirst` says that its result is
   ready when the channel fires, and that the select takes it. The handler is given
   up exactly if the channel fires first; otherwise its result decides.
   */
  method RunHandler(
    collection: TaskCollection, d: Doc, w: WorkerId, handler: HandlerEnd, finishedFirst: bool,
    fallbackNs: nat, ticks: seq<int>, now: int)
    returns (end: TaskEnd, channel: Channel, ghost beats: seq<Exchange>, ghost last: seq<Exchange>)
    requires WellIndexed(collection.docs)
    modifies collection
    ensures WellIndexed(collection.docs)
    ensures collection.journal == old(collection.journal) + beats + last
    ensures Numbered(beats, collection.outcomes, old(collection.commands))
    ensures Numbered(last, collection.outcomes, old(collection.commands) + |beats|)
    ensures BeatsAt(beats, d, w, ticks)
    ensures channel == ChannelAfter(HandlerTimeoutNs(d, fallbackNs), AnswersOf(beats))
    ensures channel == Quiet ==> |beats| == |ticks|
    ensures if Aborts(channel) && !finishedFirst then end == WorkerGone && last == []
            else EndsWith(end, last, d, w, handler, now)
    ensures AllFenced(beats, d, w) && AllFenced(last, d, w)
    ensures last != [] ==> collection.docs == last[0].After()
  {
    channel, beats := RunLoop(collection, d, w, HandlerTimeoutNs(d, fallbackNs), ticks);
    BeatsAreFenced(beats, d, w, ticks);
    Await(collection);
    if Aborts(channel) && !finishedFirst {
      return WorkerGone, channel, beats, [];
    }
    end, last := FinishTask(collection, d, w, handler, now);
  }

  lemma BeatsAreFenced(log: seq<Exchange>, d: Doc, w: WorkerId, ticks: seq<int>)
    requires BeatsAt(log, d, w, ticks)
    ensures AllFenced(log, d, w)
  {
  }

  /** How a task ends with its handler's result, and the write that stores it. */
  ghost predicate EndsWith(
    end: TaskEnd, last: seq<Exchange>, d: Doc, w: WorkerId, handler: HandlerEnd, now: int)
  {
    match handler
    case Raised(m) =>
      && end == HandlerError(m) && |last| == 1
      && last[0].write == FailureWrite(d.taskId, w, P.CapturedToken(d), now, "handler error: " + m)
    case Returned(None) => end == BadPayload("task_output") && last == []
    case Returned(Some(output)) =>
      && |last| == 1 && last[0].write == SuccessWrite(d.taskId, w, P.CapturedToken(d), now, output)
      && (end.Completed? <==> last[0].Answer() == Ok(true))
      && (end.WorkerGone? <==> last[0].Answer() == Ok(false))
      && (end.DatabaseError? <==> last[0].Answer().Err?)
  }

  /**
   What one claimed document comes to, in terms of what the database answers. An
   input that is missing or does not decode is rejected with one failure write.
   Otherwise the first heartbeat decides: matched, and the handler runs; not matched,
   and the claim is gone without another write; not answered, and one failure write
   says so. A handler that runs ends as `RunHandler` says. `channel` is `None` if it
   was never started. Every write is fenced by the claim's own token.
   */
  method ProcessTask(
    collection: TaskCollection, d: Doc, w: WorkerId, decodes: bool, handler: HandlerEnd, finishedFirst: bool,
    fallbackNs: nat, ticks: seq<int>, now: int)
    returns (end: TaskEnd, channel: Option<Channel>,
             ghost first: seq<Exchange>, ghost beats: seq<Exchange>, ghost last: seq<Exchange>)
    requires WellIndexed(collection.docs)
    modifies collection
    ensures WellIndexed(collection.docs)
    ensures collection.journal == old(collection.journal) + first + beats + last
    ensures AllFenced(first, d, w) && AllFenced(beats, d, w) && AllFenced(last, d, w)
    ensures d.input.None? || !decodes ==>
              && channel.None? && end == BadPayload("task_input") && first == [] && beats == [] && |last| == 1
              && last[0].write == FailureWrite(d.taskId, w, P.CapturedToken(d), now, P.REJECTED)
    ensures d.input.Some? && decodes ==>
              && first == [Exchange(BeatWrite(d.taskId, w, P.CapturedToken(d), now), old(collection.docs),
                                    collection.outcomes(old(collection.commands)))]
              && match first[0].Answer()
                 case Ok(true) =>
                   && channel.Some?
                   && channel.value == ChannelAfter(HandlerTimeoutNs(d, fallbackNs), AnswersOf(beats))
                   && BeatsAt(beats, d, w, ticks) && (channel.value == Quiet ==> |beats| == |ticks|)
                   && if Aborts(channel.value) && !finishedFirst then end == WorkerGone && last == []
                      else EndsWith(end, last, d, w, handler, now)
                 case Ok(false) => channel.None? && end == WorkerGone && beats == [] && last == []
                 case Err(m) =>
                   && channel.None? && end == DatabaseError(m) && beats == [] && |last| == 1
                   && last[0].write == FailureWrite(d.taskId, w, P.CapturedToken(d), now, P.UNREACHABLE + m)
    ensures last != [] ==> collection.docs == last[0].After()
  {
    var failure;
    channel, beats, last := None, [], [];
    failure, first := SetUp(collection, d, w, decodes, now);
    if failure == Some(WorkerGone) {
      return WorkerGone, None, first, [], [];
    }
    if failure.Some? {
      Await(collection);
      end := failure.value;
      last := MarkTaskFailed(collection, d, w, FailureReason(end), now);
      return;
    }
    var left;
    end, left, beats, last := RunHandler(collection, d, w, handler, finishedFirst, fallbackNs, ticks, now);
    channel := Some(left);
  }

  /**
   What that means for the stored task: a claim that holds its task at its first
   heartbeat, an answered one, starts the handler; and an answered success of a claim
   that still holds it ends with the output stored.
   */
  lemma AnswersTellTheTruth(e: Exchange, d: Doc, w: WorkerId)
    requires Fenced(e.write, d, w)
    ensures e.Answer() == Ok(true) <==>
            && e.outcome == Answered && d.taskId in e.before && e.before[d.taskId].status == Some(Running)
            && e.before[d.taskId].workerState.Some? && e.before[d.taskId].workerState.value.workerId == w
            && e.before[d.taskId].workerState.value.claimToken == Some(P.CapturedToken(d))
    ensures e.Answer().Err? <==> e.outcome != Answered
    ensures e.Answer() == Ok(true) && e.write.SuccessWrite? ==>
              && d.taskId in e.After() && e.After()[d.taskId].status == Some(Succeeded)
              && e.After()[d.taskId].output == Some(e.write.output)
    ensures e.Answer() == Ok(true) && e.write.FailureWrite? ==>
              && d.taskId in e.After() && e.After()[d.taskId].status == Some(Failed)
              && e.After()[d.taskId].error == Some(e.write.reason)
  {
    WriteContract(e.before, e.write);
  }
}
