/** How a caller reads results: inspect the document once, then follow its change events. */
module CallerWait {
  import opened Prelude
  import opened Documents
  import opened Store
  import opened Protocol
  import L = Lifecycle
  import Guarantees

  datatype RequestError =
    | PayloadFormat(field: string)
    | TaskFailed(reason: string)
    | DatabaseError(message: string)

  /** What `evaluate_document` makes of a document: no answer yet, a value, or an error. */
  function Evaluate<V>(d: Doc, decode: Bson -> Option<V>): Option<Result<V, RequestError>> {
    match d.status
    case None => Some(Err(PayloadFormat("status")))
    case Some(Pending) => None
    case Some(Succeeded) =>
      if d.output.None? then Some(Err(PayloadFormat("task_output")))
      else (match decode(d.output.value)
            case Some(v) => Some(Ok(v))
            case None => Some(Err(PayloadFormat("task_output"))))
    case Some(Failed) => Some(Err(TaskFailed(if d.error.Some? then d.error.value else "worker failed")))
    case Some(_) => None
  }

  /** An event of the caller's stream; a lookup after deletion carries no document. */
  datatype Delivery = FullDocument(doc: Doc) | NoDocument | StreamError(message: string)

  function Verdict<V>(e: Delivery, decode: Bson -> Option<V>): Option<Result<V, RequestError>> {
    match e
    case FullDocument(d) => Evaluate(d, decode)
    case NoDocument => None
    case StreamError(m) => Some(Err(DatabaseError(m)))
  }

  /** The first event with a verdict decides. */
  function StreamAnswer<V>(stream: seq<Delivery>, decode: Bson -> Option<V>): Result<V, RequestError> {
    if stream == [] then Err(DatabaseError("change stream closed"))
    else match Verdict(stream[0], decode)
      case Some(answer) => answer
      case None => StreamAnswer(stream[1..], decode)
  }

  lemma {:induction false} StreamAnswerIsFirstVerdict<V>(stream: seq<Delivery>, decode: Bson -> Option<V>, at: nat)
    requires at <= |stream| && forall i | 0 <= i < at :: Verdict(stream[i], decode) == None
    requires at < |stream| ==> Verdict(stream[at], decode).Some?
    ensures StreamAnswer(stream, decode) ==
            if at < |stream| then Verdict(stream[at], decode).value else Err(DatabaseError("change stream closed"))
  {
    if at == 0 {
    } else {
      StreamAnswerIsFirstVerdict(stream[1..], decode, at - 1);
    }
  }

  // ----- what an answer means, in terms of documents -----

  /** A document that has not come to an end. */
  predicate Undecided(d: Doc) {
    d.status.Some? && d.status != Some(Succeeded) && d.status != Some(Failed)
  }

  /** What a caller is told about a document that has come to an end. */
  ghost predicate Reports<V>(d: Doc, decode: Bson -> Option<V>, answer: Result<V, RequestError>) {
    match answer
    case Ok(v) => d.status == Some(Succeeded) && d.output.Some? && decode(d.output.value) == Some(v)
    case Err(TaskFailed(reason)) =>
      d.status == Some(Failed) && reason == if d.error.Some? then d.error.value else "worker failed"
    case Err(PayloadFormat(field)) =>
      || (field == "status" && d.status.None?)
      || (field == "task_output" && d.status == Some(Succeeded) && (d.output.Some? ==> decode(d.output.value).None?))
    case Err(DatabaseError(_)) => false
  }

  /** An event that ends the wait. */
  predicate Decisive(e: Delivery) {
    e.StreamError? || (e.FullDocument? && !Undecided(e.doc))
  }

  /** The events before the first decisive one. */
  function QuietEvents(stream: seq<Delivery>): (n: nat)
    ensures n <= |stream| && (n < |stream| ==> Decisive(stream[n]))
    ensures forall i | 0 <= i < n :: !Decisive(stream[i])
  {
    if stream == [] || Decisive(stream[0]) then 0 else 1 + QuietEvents(stream[1..])
  }

  /** The stream brings a document that has come to an end before it fails or closes. */
  predicate Delivers(stream: seq<Delivery>) {
    QuietEvents(stream) < |stream| && stream[QuietEvents(stream)].FullDocument?
  }

  /** A document gets an answer exactly if it has come to an end, and then the one that reports it. */
  lemma EvaluateReports<V>(d: Doc, decode: Bson -> Option<V>)
    ensures Evaluate(d, decode).None? <==> Undecided(d)
    ensures Evaluate(d, decode).Some? ==> Reports(d, decode, Evaluate(d, decode).value)
  {
  }

  /** The stream's answer reports the first document that has come to an end, or the failure before it. */
  lemma {:induction false} StreamReports<V>(stream: seq<Delivery>, decode: Bson -> Option<V>)
    ensures var n, answer := QuietEvents(stream), StreamAnswer(stream, decode);
            if n == |stream| then answer == Err(DatabaseError("change stream closed"))
            else match stream[n]
              case FullDocument(d) => Reports(d, decode, answer)
              case StreamError(m) => answer == Err(DatabaseError(m))
              case NoDocument => false
  {
    if stream == [] {
    } else {
      if stream[0].FullDocument? {
        EvaluateReports(stream[0].doc, decode);
      }
      if !Decisive(stream[0]) {
        StreamReports(stream[1..], decode);
      }
    }
  }

  method WatchForResult<V>(stream: seq<Delivery>, decode: Bson -> Option<V>) returns (answer: Result<V, RequestError>)
    ensures answer == StreamAnswer(stream, decode)
    ensures answer.Err? && answer.error.DatabaseError? <==> !Delivers(stream)
    ensures Delivers(stream) ==> Reports(stream[QuietEvents(stream)].doc, decode, answer)
  {
    StreamReports(stream, decode);
    for i := 0 to |stream|
      invariant forall j | 0 <= j < i :: Verdict(stream[j], decode) == None
    {
      var v := Verdict(stream[i], decode);
      if v.Some? {
        StreamAnswerIsFirstVerdict(stream, decode, i);
        return v.value;
      }
    }
    StreamAnswerIsFirstVerdict(stream, decode, |stream|);
    answer := Err(DatabaseError("change stream closed"));
  }

  /** The answer a wait gives, as a function of what the inspection and the stream showed. */
  function WaitAnswer<V>(
    t: TaskId, inspected: Result<Option<Doc>, string>, stream: seq<Delivery>, decode: Bson -> Option<V>)
    : Result<V, RequestError>
  {
    match inspected
    case Err(m) => Err(DatabaseError(m))
    case Ok(None) => Err(TaskFailed("task " + t.name + " missing"))
    case Ok(Some(d)) =>
      match Evaluate(d, decode)
      case Some(answer) => answer
      case None => StreamAnswer(stream, decode)
  }

  /**
   The wait, in terms of the inspected document and the events. A failed inspection
   is its error; a missing document is a failure; a document that has come to an end
   is reported. Otherwise the stream is followed, and the first event's document that
   has come to an end is reported. The answer is a database error exactly if the
   inspection failed, or it saw an undecided document and the stream failed or closed
   before it brought one that has come to an end.
   */
  method WaitForResult<V>(
    t: TaskId, inspected: Result<Option<Doc>, string>, stream: seq<Delivery>, decode: Bson -> Option<V>)
    returns (answer: Result<V, RequestError>)
    ensures answer == WaitAnswer(t, inspected, stream, decode)
    ensures inspected.Err? ==> answer == Err(DatabaseError(inspected.error))
    ensures inspected == Ok(None) ==> answer == Err(TaskFailed("task " + t.name + " missing"))
    ensures inspected.Ok? && inspected.value.Some? ==>
              var d := inspected.value.value;
              && (!Undecided(d) ==> Reports(d, decode, answer))
              && (Undecided(d) && Delivers(stream) ==> Reports(stream[QuietEvents(stream)].doc, decode, answer))
    ensures answer.Err? && answer.error.DatabaseError? <==>
            || inspected.Err?
            || (inspected.value.Some? && Undecided(inspected.value.value) && !Delivers(stream))
  {
    WaitReports(t, inspected, stream, decode);
    match inspected {
      case Err(m) => answer := Err(DatabaseError(m));
      case Ok(None) => answer := Err(TaskFailed("task " + t.name + " missing"));
      case Ok(Some(d)) =>
        var early := Evaluate(d, decode);
        if early.Some? {
          answer := early.value;
        } else {
          answer := WatchForResult(stream, decode);
        }
    }
  }

  lemma WaitReports<V>(
    t: TaskId, inspected: Result<Option<Doc>, string>, stream: seq<Delivery>, decode: Bson -> Option<V>)
    ensures var answer := WaitAnswer(t, inspected, stream, decode);
            match inspected
            case Err(m) => answer == Err(DatabaseError(m))
            case Ok(None) => answer == Err(TaskFailed("task " + t.name + " missing"))
            case Ok(Some(d)) =>
              if !Undecided(d) then Reports(d, decode, answer)
              else if Delivers(stream) then Reports(stream[QuietEvents(stream)].doc, decode, answer)
              else answer.Err? && answer.error.DatabaseError?
  {
    if inspected.Ok? && inspected.value.Some? {
      EvaluateReports(inspected.value.value, decode);
      StreamReports(stream, decode);
    }
  }

  // ----- safety -----

  /** The history of `s` records that `t` finished with `outcome`. */
  ghost predicate Recorded(s: System, t: TaskId, outcome: L.Outcome) {
    exists i :: 0 <= i < |s.history| && s.history[i].Finished? && s.history[i].taskId == t
                && s.history[i].outcome == outcome
  }

  /** The answer reports an outcome the task really reached. */
  ghost predicate Truthful<V>(s: System, t: TaskId, answer: Result<V, RequestError>, decode: Bson -> Option<V>) {
    match answer
    case Ok(v) => exists out :: Recorded(s, t, L.Success(out)) && decode(out) == Some(v)
    case Err(TaskFailed(reason)) => Recorded(s, t, L.Failure(reason))
    case Err(PayloadFormat(field)) =>
      field == "task_output" && exists out :: Recorded(s, t, L.Success(out)) && decode(out) == None
    case Err(DatabaseError(_)) => false
  }

  /** On every reachable document: no answer exactly while unfinished, otherwise a truthful one. */
  lemma EvaluateIsTruthful<V>(
    h: L.Handler, states: seq<System>, actions: seq<Action>, i: nat, t: TaskId, decode: Bson -> Option<V>)
    requires Guarantees.InRun(h, states, actions, i) && t in states[i].docs
    ensures Evaluate(states[i].docs[t], decode) == None <==> Guarantees.Unfinished(states[i].docs, t)
    ensures Evaluate(states[i].docs[t], decode).Some? ==>
              Truthful(states[i], t, Evaluate(states[i].docs[t], decode).value, decode)
  {
    Guarantees.HistoryIsLegal(h, states, actions, i, t);
    L.ReplayShowsTheLatest(h, states[i].history, t);
    L.LastOutcomeIsRecorded(states[i].history, t);
    var d := states[i].docs[t];
    if d.status == Some(Succeeded) {
      assert Recorded(states[i], t, L.Success(d.output.value));
    }
  }

  /** `d` is the document of `t` in some state of the run. */
  ghost predicate Seen(states: seq<System>, t: TaskId, d: Doc) {
    exists m :: 0 <= m < |states| && t in states[m].docs && states[m].docs[t] == d
  }

  lemma {:induction false} SeenDocumentsAreTruthful<V>(
    h: L.Handler, states: seq<System>, actions: seq<Action>, t: TaskId, d: Doc, decode: Bson -> Option<V>)
    requires Run(h, states, actions) && Seen(states, t, d) && Evaluate(d, decode).Some?
    ensures Truthful(states[|states| - 1], t, Evaluate(d, decode).value, decode)
  {
    var m :| 0 <= m < |states| && t in states[m].docs && states[m].docs[t] == d;
    EvaluateIsTruthful(h, states, actions, m, t, decode);
    RunKeepsInv(h, states, actions, m, |states| - 1);
    var last := states[|states| - 1];
    forall outcome | Recorded(states[m], t, outcome) ensures Recorded(last, t, outcome) {
      var i :| 0 <= i < |states[m].history| && states[m].history[i].Finished? && states[m].history[i].taskId == t
               && states[m].history[i].outcome == outcome;
      assert last.history[i] == states[m].history[i];
    }
  }

  /**
   Caller safety. Whatever states of the run the inspection and the events'
   lookups read, in any order, the wait reports an outcome the task reached; or, and
   only if neither the inspection nor the stream brought a document that has come to
   an end, that the stream failed or closed.
   */
  lemma {:induction false} WaitIsTruthful<V>(
    h: L.Handler, states: seq<System>, actions: seq<Action>, t: TaskId,
    first: Doc, stream: seq<Delivery>, decode: Bson -> Option<V>)
    requires Run(h, states, actions) && Seen(states, t, first)
    requires forall e <- stream | e.FullDocument? :: Seen(states, t, e.doc)
    ensures var answer := WaitAnswer(t, Ok(Some(first)), stream, decode);
            if !Undecided(first) || Delivers(stream)
            then Truthful(states[|states| - 1], t, answer, decode)
            else answer.Err? && answer.error.DatabaseError?
    decreases |stream|
  {
    EvaluateReports(first, decode);
    if Evaluate(first, decode).Some? {
      SeenDocumentsAreTruthful(h, states, actions, t, first, decode);
    } else if stream != [] {
      if stream[0].FullDocument? {
        EvaluateReports(stream[0].doc, decode);
      }
      if stream[0].FullDocument? && Verdict(stream[0], decode).Some? {
        SeenDocumentsAreTruthful(h, states, actions, t, stream[0].doc, decode);
      } else if stream[0].StreamError? {
      } else {
        WaitIsTruthful(h, states, actions, t, first, stream[1..], decode);
      }
    }
  }
}
