/**
 The lease-and-fencing protocol: any number of callers and workers around one
 task collection. A worker's claim is a small process of its own that sends
 writes; a sent write may land at any later time, more than once, or never, but a
 heartbeat does not land again once it was answered.
 */
module Protocol {
  import opened Prelude
  import opened Documents
  import opened Store
  import L = Lifecycle

  /** Where `process_task` stands for one claim. */
  datatype Phase = Setup | Handling | Exited

  /**
   A claim sends its heartbeats one at a time: idle since the last answer, waiting
   for an answer, or through after an answer that was not "matched".
   */
  datatype Loop = Idle(since: int) | Waiting(beat: Write) | Ended

  /** The document is the one the claim returned; `process_task` works on this copy only. */
  datatype ClaimRecord = ClaimRecord(workerId: WorkerId, doc: Doc, phase: Phase, loop: Loop)

  datatype System = System(
    docs: Docs,
    clock: int,
    claims: map<ClaimToken, ClaimRecord>,
    sent: set<Write>,
    history: seq<L.Entry>)

  const INITIAL := System(map[], 0, map[], {}, [])

  datatype Action =
    | Tick(to: int)
    | Call(req: EnqueueRequest, oid: ObjectId, now: int)
    | Take(taskId: TaskId, workerId: WorkerId, token: ClaimToken, startedAt: int, defaultMs: nat, path: ClaimPath)
    | RejectInput(token: ClaimToken, at: int)
    | FirstBeat(token: ClaimToken, at: int)
    | FirstBeatError(token: ClaimToken, at: int, message: string)
    | Beat(token: ClaimToken, at: int)
    | Answer(write: Write)
    | Return(token: ClaimToken, at: int, output: Option<Bson>)
    | Raise(token: ClaimToken, at: int, message: string)
    | Vanish(token: ClaimToken)
    | Land(write: Write)
    | Remove(taskId: TaskId)

  /** `claim_token` as `process_task` reads it off its copy. */
  function CapturedToken(d: Doc): ClaimToken {
    if d.workerState.Some? && d.workerState.value.claimToken.Some?
    then d.workerState.value.claimToken.value else ClaimToken("")
  }

  /** Missing or undecodable input: the setup fails before the first heartbeat. */
  ghost predicate Decodes(h: L.Handler, d: Doc) {
    d.input.Some? && h.decodes(d.input.value)
  }

  ghost predicate InPhase(s: System, k: ClaimToken, phase: Phase) {
    k in s.claims && s.claims[k].phase == phase
  }

  /** The claim can send a heartbeat with a time read since the last answer; an error so far has ended its loop. */
  ghost predicate CanBeat(s: System, k: ClaimToken, at: int) {
    k in s.claims && s.claims[k].loop.Idle? && s.claims[k].loop.since <= at && 0 <= at <= s.clock
  }

  /**
   A heartbeat that nobody answers blocks its claim's loop for good; it may still
   land. A claim that has exited may send one more before its loop notices.
   */
  ghost predicate Enabled(h: L.Handler, s: System, a: Action) {
    match a
    case Tick(to) => s.clock <= to
    case Call(req, oid, now) => now <= s.clock && Store.Enabled(s.docs, Enqueue(req, oid, now))
    case Take(t, w, k, startedAt, defaultMs, path) =>
      && k !in s.claims
      && 0 <= startedAt <= s.clock
      && (path.StalePath? ==> path.now <= s.clock)
      && Store.Enabled(s.docs, Claim(t, w, k, startedAt, defaultMs, path))
    case RejectInput(k, at) => 0 <= at <= s.clock && InPhase(s, k, Setup) && !Decodes(h, s.claims[k].doc)
    case FirstBeat(k, at) => CanBeat(s, k, at) && InPhase(s, k, Setup) && Decodes(h, s.claims[k].doc)
    case FirstBeatError(k, at, _) => CanBeat(s, k, at) && InPhase(s, k, Setup) && Decodes(h, s.claims[k].doc)
    case Beat(k, at) => CanBeat(s, k, at) && !InPhase(s, k, Setup)
    case Answer(wr) => wr in s.sent && wr.token in s.claims && s.claims[wr.token].loop == Waiting(wr)
    case Return(k, at, output) =>
      && 0 <= at <= s.clock && InPhase(s, k, Handling) && s.claims[k].doc.input.Some?
      && h.produces(s.claims[k].doc.taskId, s.claims[k].doc.input.value, output)
    case Raise(k, at, message) =>
      && 0 <= at <= s.clock && InPhase(s, k, Handling) && s.claims[k].doc.input.Some?
      && h.fails(s.claims[k].doc.taskId, s.claims[k].doc.input.value, message)
    case Vanish(k) => k in s.claims
    case Land(wr) => wr in s.sent
    case Remove(t) => t in s.docs
  }

  const REJECTED := "infrastructure error: payload format mismatch in task_input"
  const UNREACHABLE := "infrastructure error: database error: "

  function BeatOf(s: System, k: ClaimToken, at: int): Write
    requires k in s.claims
  {
    BeatWrite(s.claims[k].doc.taskId, s.claims[k].workerId, CapturedToken(s.claims[k].doc), at)
  }

  function SuccessOf(s: System, k: ClaimToken, at: int, output: Bson): Write
    requires k in s.claims
  {
    SuccessWrite(s.claims[k].doc.taskId, s.claims[k].workerId, CapturedToken(s.claims[k].doc), at, output)
  }

  function FailureOf(s: System, k: ClaimToken, at: int, reason: string): Write
    requires k in s.claims
  {
    FailureWrite(s.claims[k].doc.taskId, s.claims[k].workerId, CapturedToken(s.claims[k].doc), at, reason)
  }

  function Proceed(s: System, k: ClaimToken, phase: Phase, loop: Loop): System
    requires k in s.claims
  {
    s.(claims := s.claims[k := s.claims[k].(phase := phase, loop := loop)])
  }

  function Exit(s: System, k: ClaimToken): System
    requires k in s.claims
  {
    Proceed(s, k, Exited, if s.claims[k].phase.Setup? then Ended else s.claims[k].loop)
  }

  function Send(s: System, wr: Write): System {
    s.(sent := s.sent + {wr})
  }

  function LandWrite(s: System, wr: Write): System {
    s.(docs := Apply(s.docs, Update(wr)),
       history :=
         if !Matches(s.docs, wr) then s.history
         else match wr
           case BeatWrite(_, _, _, _) => s.history
           case SuccessWrite(t, _, k, _, output) => s.history + [L.Finished(t, k, L.Success(output))]
           case FailureWrite(t, _, k, _, reason) => s.history + [L.Finished(t, k, L.Failure(reason))])
  }

  /** A heartbeat reaches the database and is answered at once. */
  function LandAnswered(s: System, wr: Write): System
    requires wr.token in s.claims
  {
    LandWrite(s.(sent := s.sent - {wr}), wr)
  }

  function Next(s: System, a: Action): System
    requires a.Take? ==> a.taskId in s.docs
    requires a.Answer? ==> a.write.token in s.claims
    requires !(a.Tick? || a.Call? || a.Take? || a.Land? || a.Remove? || a.Answer?) ==> a.token in s.claims
  {
    match a
    case Tick(to) => s.(clock := to)
    case Call(req, oid, now) =>
      s.(docs := Apply(s.docs, Enqueue(req, oid, now)),
         history := match EnqueueAnswer(s.docs, req)
         case Ok(Inserted) => s.history + [L.Inserted(req.taskId, req.input)]
         case Ok(Reset) => s.history + [L.Reset(req.taskId, req.input)]
         case Err(_) => s.history)
    case Take(t, w, k, startedAt, defaultMs, path) =>
      var docs := Apply(s.docs, Claim(t, w, k, startedAt, defaultMs, path));
      s.(docs := docs,
         claims := s.claims[k := ClaimRecord(w, docs[t], Setup, Idle(s.clock))],
         history := s.history + [L.Claimed(t, k)])
    case RejectInput(k, at) =>
      Exit(Send(s, FailureOf(s, k, at, REJECTED)), k)
    case FirstBeat(k, at) =>
      var wr := BeatOf(s, k, at);
      if Matches(s.docs, wr)
      then Proceed(LandWrite(s, wr), k, Handling, Idle(s.clock))
      else Proceed(s, k, Exited, Ended)
    case FirstBeatError(k, at, message) =>
      var beat := BeatOf(s, k, at);
      Proceed(Send(Send(s, beat), FailureOf(s, k, at, UNREACHABLE + message)), k, Exited, Waiting(beat))
    case Beat(k, at) => Proceed(Send(s, BeatOf(s, k, at)), k, s.claims[k].phase, Waiting(BeatOf(s, k, at)))
    case Answer(wr) =>
      var goesOn := Matches(s.docs, wr) && s.claims[wr.token].phase.Handling?;
      Proceed(LandAnswered(s, wr), wr.token, s.claims[wr.token].phase, if goesOn then Idle(s.clock) else Ended)
    case Return(k, at, output) =>
      Exit(if output.Some? then Send(s, SuccessOf(s, k, at, output.value)) else s, k)
    case Raise(k, at, message) => Exit(Send(s, FailureOf(s, k, at, "handler error: " + message)), k)
    case Vanish(k) => Exit(s, k)
    case Land(wr) => LandWrite(s, wr)
    case Remove(t) => s.(docs := Apply(s.docs, Delete(t)), history := s.history + [L.Removed(t)])
  }

  ghost predicate Step(h: L.Handler, s: System, a: Action, s': System) {
    Enabled(h, s, a) && s' == Next(s, a)
  }

  /** A run: states and the actions between them. */
  ghost predicate Run(h: L.Handler, states: seq<System>, actions: seq<Action>) {
    && |states| == |actions| + 1
    && states[0] == INITIAL
    && forall i | 0 <= i < |actions| :: StepAt(h, states, actions, i)
  }

  ghost predicate StepAt(h: L.Handler, states: seq<System>, actions: seq<Action>, i: nat)
    requires i < |actions| < |states|
  {
    Step(h, states[i], actions[i], states[i + 1])
  }

  // ----- the invariant -----

  function FinishedAt(d: Doc): Option<int> {
    if d.workerState.Some? then d.workerState.value.finishedAt else None
  }

  /** Which fields a document has in each status. */
  predicate Shaped(d: Doc) {
    && d.input.Some?
    && d.switchTimeoutMs.Some? && I64_MIN <= d.switchTimeoutMs.value <= I64_MAX
    && match d.status
       case Some(Pending) => d.output.None? && d.error.None? && d.workerState.None?
       case Some(Running) =>
         && d.output.None? && d.error.None? && d.workerState.Some?
         && d.workerState.value.claimToken.Some? && d.workerState.value.heartbeatAt.Some?
         && 0 <= d.workerState.value.heartbeatAt.value
         && d.workerState.value.finishedAt.None?
       case Some(Succeeded) => d.output.Some? && d.error.None? && FinishedAt(d).Some?
       case Some(Failed) => d.output.None? && d.error.Some? && FinishedAt(d).Some?
       case _ => false
  }

  /** Claim `k` holds document `d`. */
  predicate Holds(d: Doc, k: ClaimToken) {
    d.status == Some(Running) && d.workerState.Some? && d.workerState.value.claimToken == Some(k)
  }

  /** What a document says about its task. */
  function ViewOf(docs: Docs, t: TaskId): L.View
    requires t in docs ==> Shaped(docs[t])
  {
    if t !in docs then L.Gone
    else
      var d := docs[t];
      match d.status.value
      case Pending => L.Waiting(d.input.value)
      case Running => L.Held(d.input.value, d.workerState.value.claimToken.value)
      case Succeeded => L.Done(d.input.value, L.Success(d.output.value))
      case Failed => L.Done(d.input.value, L.Failure(d.error.value))
      case Unrecognised(_) => L.Gone
  }

  /** The documents replay the history. */
  ghost predicate Refines(docs: Docs, history: seq<L.Entry>) {
    && (forall t <- docs :: Shaped(docs[t]))
    && (forall t :: ViewOf(docs, t) == L.Replay(history, t))
  }

  /** A claim's copy carries the claim's own token, worker and task, and a running document matches its claim's copy. */
  ghost predicate ClaimsMatch(docs: Docs, claims: map<ClaimToken, ClaimRecord>) {
    && (forall k <- claims :: CapturedToken(claims[k].doc) == k && claims[k].doc.input.Some?)
    && (forall t <- docs | docs[t].status == Some(Running) && docs[t].workerState.Some?
                           && docs[t].workerState.value.claimToken.Some? ::
          var k := docs[t].workerState.value.claimToken.value;
          && k in claims
          && claims[k].doc.taskId == t
          && claims[k].doc.input == docs[t].input
          && claims[k].workerId == docs[t].workerState.value.workerId)
  }

  /** A sent write belongs to an issued claim, and a success carries a handler result for that claim's input. */
  ghost predicate SentOk(h: L.Handler, claims: map<ClaimToken, ClaimRecord>, wr: Write) {
    && wr.token in claims && 0 <= wr.at
    && wr.taskId == claims[wr.token].doc.taskId
    && wr.workerId == claims[wr.token].workerId
    && (wr.SuccessWrite? ==>
          && claims[wr.token].doc.input.Some?
          && h.produces(wr.taskId, claims[wr.token].doc.input.value, Some(wr.output)))
  }

  ghost predicate AllSentOk(h: L.Handler, claims: map<ClaimToken, ClaimRecord>, sent: set<Write>) {
    forall wr <- sent :: SentOk(h, claims, wr)
  }

  /** The part of the invariant about the collection and its history alone. */
  ghost predicate DataInv(h: L.Handler, docs: Docs, history: seq<L.Entry>) {
    WellIndexed(docs) && L.Legal(h, history) && Refines(docs, history)
  }

  ghost predicate Inv(h: L.Handler, s: System) {
    && DataInv(h, s.docs, s.history)
    && s.claims.Keys == L.Tokens(s.history)
    && ClaimsMatch(s.docs, s.claims)
    && AllSentOk(h, s.claims, s.sent)
  }

  // ----- every step keeps it -----

  lemma TokensAppend(history: seq<L.Entry>, e: L.Entry)
    ensures L.Tokens(history + [e]) == L.Tokens(history) + if e.Claimed? then {e.token} else {}
  {
    assert (history + [e])[..|history|] == history;
  }

  /** One entry appended, one document changed: the replay follows. */
  lemma RefinesAppend(docs: Docs, docs': Docs, history: seq<L.Entry>, e: L.Entry)
    requires Refines(docs, history)
    requires e.taskId in docs' ==> Shaped(docs'[e.taskId])
    requires ViewOf(docs', e.taskId) == L.After(ViewOf(docs, e.taskId), e)
    requires forall t | t != e.taskId :: Find(docs', t) == Find(docs, t)
    ensures Refines(docs', history + [e])
  {
    assert forall t <- docs' :: t != e.taskId ==> Find(docs', t) == Find(docs, t);
    forall t ensures ViewOf(docs', t) == L.Replay(history + [e], t) {
      L.ReplayAppend(history, e, t);
      if t != e.taskId {
        assert Find(docs', t) == Find(docs, t);
      }
    }
  }

  /** The same, for everything the invariant says about the history. */
  lemma RecordEntry(h: L.Handler, docs: Docs, docs': Docs, history: seq<L.Entry>, e: L.Entry)
    requires DataInv(h, docs, history) && L.Allowed(h, history, e) && WellIndexed(docs')
    requires e.taskId in docs' ==> Shaped(docs'[e.taskId])
    requires ViewOf(docs', e.taskId) == L.After(ViewOf(docs, e.taskId), e)
    requires forall t | t != e.taskId :: Find(docs', t) == Find(docs, t)
    ensures DataInv(h, docs', history + [e])
    ensures L.Tokens(history + [e]) == L.Tokens(history) + if e.Claimed? then {e.token} else {}
  {
    RefinesAppend(docs, docs', history, e);
    L.LegalAppend(h, history, e);
    TokensAppend(history, e);
  }

  /** Documents of running tasks that are the same, or gone, still match their claims. */
  lemma ClaimsStillMatch(docs: Docs, docs': Docs, claims: map<ClaimToken, ClaimRecord>, t: TaskId)
    requires ClaimsMatch(docs, claims)
    requires forall u | u != t :: Find(docs', u) == Find(docs, u)
    requires t in docs' && docs'[t].status == Some(Running) ==>
               && t in docs && docs[t].status == Some(Running) && docs'[t].input == docs[t].input
               && docs[t].workerState.Some? && docs'[t].workerState.Some?
               && docs'[t].workerState.value.claimToken == docs[t].workerState.value.claimToken
               && docs'[t].workerState.value.workerId == docs[t].workerState.value.workerId
    ensures ClaimsMatch(docs', claims)
  {
    forall u <- docs' | u != t ensures u in docs && docs'[u] == docs[u] {
      assert Find(docs', u) == Find(docs, u);
    }
  }

  /** An accepted enqueue is recorded; its document is pending. */
  lemma CallKeepsData(h: L.Handler, docs: Docs, history: seq<L.Entry>, req: EnqueueRequest, oid: ObjectId, now: int)
    requires DataInv(h, docs, history) && Store.Enabled(docs, Enqueue(req, oid, now))
    requires EnqueueAnswer(docs, req).Ok?
    ensures var e := if EnqueueAnswer(docs, req).value.Inserted? then L.Inserted(req.taskId, req.input)
                     else L.Reset(req.taskId, req.input);
            && DataInv(h, Apply(docs, Enqueue(req, oid, now)), history + [e])
            && L.Tokens(history + [e]) == L.Tokens(history)
  {
    var t := req.taskId;
    ApplyKeepsWellIndexed(docs, Enqueue(req, oid, now));
    assert ViewOf(docs, t) == L.Replay(history, t);
    RecordEntry(h, docs, Apply(docs, Enqueue(req, oid, now)), history,
                if EnqueueAnswer(docs, req).value.Inserted? then L.Inserted(t, req.input) else L.Reset(t, req.input));
  }

  lemma CallKeepsInv(h: L.Handler, s: System, a: Action)
    requires Inv(h, s) && Enabled(h, s, a) && a.Call?
    ensures Inv(h, Next(s, a))
  {
    if EnqueueAnswer(s.docs, a.req).Ok? {
      CallKeepsData(h, s.docs, s.history, a.req, a.oid, a.now);
      ApplyKeepsWellIndexed(s.docs, Enqueue(a.req, a.oid, a.now));
      ClaimsStillMatch(s.docs, Next(s, a).docs, s.claims, a.req.taskId);
    }
  }

  /** A new claim's copy is the document as claimed; no running document carried its token before. */
  lemma TakeKeepsClaims(docs: Docs, claims: map<ClaimToken, ClaimRecord>, t: TaskId, k: ClaimToken, c: ClaimRecord)
    requires ClaimsMatch(docs, claims) && k !in claims && t in docs
    requires c.doc.taskId == t && c.doc.input.Some? && CapturedToken(c.doc) == k
    requires c.doc.workerState.Some? && c.doc.workerState.value.workerId == c.workerId
    requires c.doc.workerState.value.claimToken == Some(k)
    ensures ClaimsMatch(docs[t := c.doc], claims[k := c])
  {
  }

  lemma TakeKeepsSent(
    h: L.Handler, claims: map<ClaimToken, ClaimRecord>, sent: set<Write>, k: ClaimToken, c: ClaimRecord)
    requires AllSentOk(h, claims, sent) && k !in claims
    ensures AllSentOk(h, claims[k := c], sent)
  {
    forall wr <- sent ensures SentOk(h, claims[k := c], wr) {
      assert SentOk(h, claims, wr);
    }
  }

  lemma TakeKeepsData(
    h: L.Handler, docs: Docs, history: seq<L.Entry>, t: TaskId, w: WorkerId, k: ClaimToken, startedAt: int,
    defaultMs: nat)
    requires DataInv(h, docs, history) && t in docs && k !in L.Tokens(history) && 0 <= startedAt
    requires docs[t].status == Some(Pending) || docs[t].status == Some(Running)
    ensures var docs' := docs[t := ClaimedDoc(docs[t], w, k, startedAt, defaultMs)];
            && DataInv(h, docs', history + [L.Claimed(t, k)])
            && L.Tokens(history + [L.Claimed(t, k)]) == L.Tokens(history) + {k}
  {
    var d := ClaimedDoc(docs[t], w, k, startedAt, defaultMs);
    assert WellIndexed(docs[t := d]);
    assert ViewOf(docs, t) == L.Replay(history, t);
    RecordEntry(h, docs, docs[t := d], history, L.Claimed(t, k));
  }

  lemma TakeKeepsInv(h: L.Handler, s: System, a: Action)
    requires Inv(h, s) && Enabled(h, s, a) && a.Take?
    ensures Inv(h, Next(s, a))
  {
    var d := ClaimedDoc(s.docs[a.taskId], a.workerId, a.token, a.startedAt, a.defaultMs);
    var c := ClaimRecord(a.workerId, d, Setup, Idle(s.clock));
    TakeKeepsData(h, s.docs, s.history, a.taskId, a.workerId, a.token, a.startedAt, a.defaultMs);
    TakeKeepsClaims(s.docs, s.claims, a.taskId, a.token, c);
    TakeKeepsSent(h, s.claims, s.sent, a.token, c);
  }

  lemma LandBeatKeepsData(h: L.Handler, docs: Docs, history: seq<L.Entry>, wr: Write)
    requires DataInv(h, docs, history) && wr.BeatWrite? && Matches(docs, wr) && 0 <= wr.at
    ensures DataInv(h, Apply(docs, Update(wr)), history)
  {
    var docs' := Apply(docs, Update(wr));
    ApplyKeepsWellIndexed(docs, Update(wr));
    forall u ensures ViewOf(docs', u) == L.Replay(history, u) {
      assert ViewOf(docs, u) == L.Replay(history, u);
    }
  }

  /** What a terminal write that matches is recorded as. */
  function VerdictEntry(wr: Write): L.Entry
    requires !wr.BeatWrite?
  {
    L.Finished(wr.taskId, wr.token, if wr.SuccessWrite? then L.Success(wr.output) else L.Failure(wr.reason))
  }

  lemma LandVerdictKeepsData(
    h: L.Handler, docs: Docs, claims: map<ClaimToken, ClaimRecord>, history: seq<L.Entry>, wr: Write)
    requires DataInv(h, docs, history) && ClaimsMatch(docs, claims) && SentOk(h, claims, wr)
    requires !wr.BeatWrite? && Matches(docs, wr)
    ensures DataInv(h, Apply(docs, Update(wr)), history + [VerdictEntry(wr)])
    ensures L.Tokens(history + [VerdictEntry(wr)]) == L.Tokens(history)
  {
    ApplyKeepsWellIndexed(docs, Update(wr));
    assert ViewOf(docs, wr.taskId) == L.Replay(history, wr.taskId);
    RecordEntry(h, docs, Apply(docs, Update(wr)), history, VerdictEntry(wr));
  }

  lemma LandKeepsInv(h: L.Handler, s: System, wr: Write)
    requires Inv(h, s) && SentOk(h, s.claims, wr)
    ensures Inv(h, LandWrite(s, wr))
  {
    if Matches(s.docs, wr) {
      if wr.BeatWrite? {
        LandBeatKeepsData(h, s.docs, s.history, wr);
      } else {
        LandVerdictKeepsData(h, s.docs, s.claims, s.history, wr);
      }
      ClaimsStillMatch(s.docs, Apply(s.docs, Update(wr)), s.claims, wr.taskId);
    }
  }

  lemma RemoveKeepsData(h: L.Handler, docs: Docs, history: seq<L.Entry>, t: TaskId)
    requires DataInv(h, docs, history) && t in docs
    ensures DataInv(h, Apply(docs, Delete(t)), history + [L.Removed(t)])
    ensures L.Tokens(history + [L.Removed(t)]) == L.Tokens(history)
  {
    ApplyKeepsWellIndexed(docs, Delete(t));
    assert ViewOf(docs, t) == L.Replay(history, t);
    RecordEntry(h, docs, Apply(docs, Delete(t)), history, L.Removed(t));
  }

  lemma RemoveKeepsClaims(docs: Docs, claims: map<ClaimToken, ClaimRecord>, t: TaskId)
    requires ClaimsMatch(docs, claims)
    ensures ClaimsMatch(Apply(docs, Delete(t)), claims)
  {
  }

  lemma RemoveKeepsInv(h: L.Handler, s: System, t: TaskId)
    requires Inv(h, s) && t in s.docs
    ensures Inv(h, Next(s, Remove(t)))
  {
    var docs' := Apply(s.docs, Delete(t));
    RemoveKeepsData(h, s.docs, s.history, t);
    RemoveKeepsClaims(s.docs, s.claims, t);
    assert Next(s, Remove(t)) == s.(docs := docs', history := s.history + [L.Removed(t)]);
  }

  lemma ProceedKeepsInv(h: L.Handler, s: System, k: ClaimToken, phase: Phase, loop: Loop)
    requires Inv(h, s) && k in s.claims
    ensures Inv(h, Proceed(s, k, phase, loop))
  {
    var claims' := Proceed(s, k, phase, loop).claims;
    assert claims'.Keys == s.claims.Keys;
    assert forall c <- s.claims :: claims'[c].doc == s.claims[c].doc && claims'[c].workerId == s.claims[c].workerId;
    forall wr <- s.sent ensures SentOk(h, claims', wr) {
      assert SentOk(h, s.claims, wr);
    }
  }

  lemma SendKeepsInv(h: L.Handler, s: System, wr: Write)
    requires Inv(h, s) && SentOk(h, s.claims, wr)
    ensures Inv(h, Send(s, wr))
  {
  }

  /** The steps of a claim's own process that do not touch the collection. */
  lemma ProcessKeepsInv(h: L.Handler, s: System, a: Action)
    requires Inv(h, s) && Enabled(h, s, a)
    requires a.RejectInput? || a.Beat? || a.Return? || a.Raise? || a.Vanish?
    ensures Inv(h, Next(s, a))
  {
    var k := a.token;
    var left := if s.claims[k].phase.Setup? then Ended else s.claims[k].loop;
    if a.Beat? {
      SendKeepsInv(h, s, BeatOf(s, k, a.at));
      ProceedKeepsInv(h, Send(s, BeatOf(s, k, a.at)), k, s.claims[k].phase, Waiting(BeatOf(s, k, a.at)));
    } else if a.Vanish? || (a.Return? && a.output.None?) {
      ProceedKeepsInv(h, s, k, Exited, left);
    } else {
      var wr := if a.RejectInput? then FailureOf(s, k, a.at, REJECTED)
                else if a.Return? then SuccessOf(s, k, a.at, a.output.value)
                else FailureOf(s, k, a.at, "handler error: " + a.message);
      SendKeepsInv(h, s, wr);
      ProceedKeepsInv(h, Send(s, wr), k, Exited, left);
    }
  }

  lemma FirstBeatErrorKeepsInv(h: L.Handler, s: System, a: Action)
    requires Inv(h, s) && Enabled(h, s, a) && a.FirstBeatError?
    ensures Inv(h, Next(s, a))
  {
    var beat, failure := BeatOf(s, a.token, a.at), FailureOf(s, a.token, a.at, UNREACHABLE + a.message);
    SendKeepsInv(h, s, beat);
    SendKeepsInv(h, Send(s, beat), failure);
    ProceedKeepsInv(h, Send(Send(s, beat), failure), a.token, Exited, Waiting(beat));
  }

  lemma FirstBeatKeepsInv(h: L.Handler, s: System, a: Action)
    requires Inv(h, s) && Enabled(h, s, a) && a.FirstBeat?
    ensures Inv(h, Next(s, a))
  {
    var wr := BeatOf(s, a.token, a.at);
    if Matches(s.docs, wr) {
      LandKeepsInv(h, s, wr);
      ProceedKeepsInv(h, LandWrite(s, wr), a.token, Handling, Idle(s.clock));
    } else {
      ProceedKeepsInv(h, s, a.token, Exited, Ended);
    }
  }

  lemma AnswerKeepsInv(h: L.Handler, s: System, wr: Write)
    requires Inv(h, s) && Enabled(h, s, Answer(wr))
    ensures Inv(h, Next(s, Answer(wr)))
  {
    var s0, c := s.(sent := s.sent - {wr}), s.claims[wr.token];
    assert SentOk(h, s.claims, wr);
    LandKeepsInv(h, s0, wr);
    var goesOn := Matches(s.docs, wr) && c.phase.Handling?;
    ProceedKeepsInv(h, LandWrite(s0, wr), wr.token, c.phase, if goesOn then Idle(s.clock) else Ended);
  }

  /** Histories, claims and the clock only grow. */
  lemma StepGrows(h: L.Handler, s: System, a: Action, s': System)
    requires Step(h, s, a, s')
    ensures Grows(s, s')
  {
  }

  lemma StepKeepsInv(h: L.Handler, s: System, a: Action, s': System)
    requires Inv(h, s) && Step(h, s, a, s')
    ensures Inv(h, s')
  {
    if a.Tick? {
    } else if a.Call? {
      CallKeepsInv(h, s, a);
    } else if a.Take? {
      TakeKeepsInv(h, s, a);
    } else if a.FirstBeat? {
      FirstBeatKeepsInv(h, s, a);
    } else if a.FirstBeatError? {
      FirstBeatErrorKeepsInv(h, s, a);
    } else if a.Land? {
      LandKeepsInv(h, s, a.write);
    } else if a.Answer? {
      AnswerKeepsInv(h, s, a.write);
    } else if a.Remove? {
      RemoveKeepsInv(h, s, a.taskId);
    } else {
      ProcessKeepsInv(h, s, a);
    }
  }

  lemma InitiallyInv(h: L.Handler)
    ensures Inv(h, INITIAL)
  {
  }

  /** One step of a run keeps the invariant, and histories, claims and the clock grow. */
  lemma StepAtKeepsInv(h: L.Handler, states: seq<System>, actions: seq<Action>, i: nat)
    requires i < |actions| < |states| && StepAt(h, states, actions, i) && Inv(h, states[i])
    ensures Inv(h, states[i + 1]) && Grows(states[i], states[i + 1])
  {
    StepKeepsInv(h, states[i], actions[i], states[i + 1]);
    StepGrows(h, states[i], actions[i], states[i + 1]);
  }

  ghost predicate Grows(s: System, s': System) {
    s.history <= s'.history && s.claims.Keys <= s'.claims.Keys && s.clock <= s'.clock
  }

  lemma {:induction false} EveryStateKeepsInv(h: L.Handler, states: seq<System>, actions: seq<Action>, j: nat)
    requires Run(h, states, actions) && j < |states|
    ensures Inv(h, states[j])
  {
    if j == 0 {
      InitiallyInv(h);
    } else {
      EveryStateKeepsInv(h, states, actions, j - 1);
      assert StepAt(h, states, actions, j - 1);
      StepAtKeepsInv(h, states, actions, j - 1);
    }
  }

  lemma {:induction false} RunGrows(h: L.Handler, states: seq<System>, actions: seq<Action>, i: nat, j: nat)
    requires Run(h, states, actions) && i <= j < |states|
    ensures Grows(states[i], states[j])
  {
    if i == j {
    } else {
      RunGrows(h, states, actions, i, j - 1);
      EveryStateKeepsInv(h, states, actions, j - 1);
      assert StepAt(h, states, actions, j - 1);
      StepAtKeepsInv(h, states, actions, j - 1);
    }
  }

  /** The invariant holds in every state of every run, and histories, claims and the clock only grow. */
  lemma RunKeepsInv(h: L.Handler, states: seq<System>, actions: seq<Action>, i: nat, j: nat)
    requires Run(h, states, actions) && i <= j < |states|
    ensures Inv(h, states[i]) && Inv(h, states[j])
    ensures states[i].history <= states[j].history && states[i].claims.Keys <= states[j].claims.Keys
    ensures states[i].clock <= states[j].clock
  {
    EveryStateKeepsInv(h, states, actions, i);
    EveryStateKeepsInv(h, states, actions, j);
    RunGrows(h, states, actions, i, j);
  }

  lemma StepOfRun(h: L.Handler, states: seq<System>, actions: seq<Action>, i: nat)
    requires Run(h, states, actions) && i < |actions|
    ensures Inv(h, states[i]) && Step(h, states[i], actions[i], states[i + 1])
  {
    RunKeepsInv(h, states, actions, i, i);
    assert StepAt(h, states, actions, i);
  }
}
