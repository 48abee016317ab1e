/**
 The simple machine that one task is meant to follow, over the history of what
 happened to it: accepted enqueues, claims, terminal writes and removals. The
 module proves what every legal history has; `Protocol` proves that the
 histories of the real system are legal and that the documents replay them.
 */
module Lifecycle {
  import opened Prelude
  import opened Documents

  datatype Outcome = Success(output: Bson) | Failure(reason: string)

  datatype Entry =
    | Inserted(taskId: TaskId, input: Bson)
    | Reset(taskId: TaskId, input: Bson)
    | Claimed(taskId: TaskId, token: ClaimToken)
    | Finished(taskId: TaskId, token: ClaimToken, outcome: Outcome)
    | Removed(taskId: TaskId)

  datatype View =
    | Gone
    | Waiting(input: Bson)
    | Held(input: Bson, token: ClaimToken)
    | Done(input: Bson, outcome: Outcome)
  {
    predicate Live() { Waiting? || Held? }
  }

  /**
   User code, seen from the queue. `decodes` says which stored inputs
   deserialize; `produces` relates a task and its input to a serialized output
   (`None` when serialization fails); `fails` relates them to an error text.
   */
  datatype Handler = Handler(
    decodes: Bson -> bool,
    produces: (TaskId, Bson, Option<Bson>) -> bool,
    fails: (TaskId, Bson, string) -> bool)

  function After(v: View, e: Entry): View {
    match e
    case Inserted(_, input) => Waiting(input)
    case Reset(_, input) => Waiting(input)
    case Claimed(_, k) => if v.Live() then Held(v.input, k) else v
    case Finished(_, _, outcome) => if v.Live() then Done(v.input, outcome) else v
    case Removed(_) => Gone
  }

  function Replay(history: seq<Entry>, t: TaskId): View {
    if history == [] then Gone
    else
      var before := Replay(history[..|history| - 1], t);
      if history[|history| - 1].taskId == t then After(before, history[|history| - 1]) else before
  }

  ghost predicate Allowed(h: Handler, past: seq<Entry>, e: Entry) {
    var v := Replay(past, e.taskId);
    match e
    case Inserted(_, _) => v.Gone?
    case Reset(_, _) => v.Done?
    case Claimed(_, k) => v.Live() && k !in Tokens(past)
    case Finished(t, k, Success(out)) => v.Held? && v.token == k && h.produces(t, v.input, Some(out))
    case Finished(_, k, Failure(_)) => v.Held? && v.token == k
    case Removed(_) => !v.Gone?
  }

  ghost predicate Legal(h: Handler, history: seq<Entry>) {
    forall i | 0 <= i < |history| :: Allowed(h, history[..i], history[i])
  }

  /** Every token ever issued. */
  function Tokens(history: seq<Entry>): set<ClaimToken> {
    if history == [] then {}
    else
      var e := history[|history| - 1];
      Tokens(history[..|history| - 1]) + if e.Claimed? then {e.token} else {}
  }

  lemma ReplayAppend(history: seq<Entry>, e: Entry, t: TaskId)
    ensures Replay(history + [e], t) == if e.taskId == t then After(Replay(history, t), e) else Replay(history, t)
  {
    assert (history + [e])[..|history|] == history;
  }

  lemma LegalAppend(h: Handler, history: seq<Entry>, e: Entry)
    requires Legal(h, history) && Allowed(h, history, e)
    ensures Legal(h, history + [e])
  {
    forall i | 0 <= i < |history + [e]| ensures Allowed(h, (history + [e])[..i], (history + [e])[i]) {
      assert (history + [e])[..i] == history[..i];
      assert history[..|history|] == history;
    }
  }

  lemma LegalPrefix(h: Handler, history: seq<Entry>, n: nat)
    requires Legal(h, history) && n <= |history|
    ensures Legal(h, history[..n])
  {
    forall i | 0 <= i < n ensures Allowed(h, history[..n][..i], history[..n][i]) {
      assert history[..n][..i] == history[..i];
    }
  }

  // ----- conservation -----

  datatype Tally = Tally(inserted: int, resets: int, finished: int, removed: int, cancelled: int)

  /** `cancelled` counts removals of a task that was still pending or running. */
  function Count(history: seq<Entry>, t: TaskId): Tally {
    if history == [] then Tally(0, 0, 0, 0, 0)
    else
      var past := history[..|history| - 1];
      var e := history[|history| - 1];
      var c := Count(past, t);
      if e.taskId != t then c
      else match e
        case Inserted(_, _) => c.(inserted := c.inserted + 1)
        case Reset(_, _) => c.(resets := c.resets + 1)
        case Claimed(_, _) => c
        case Finished(_, _, _) => c.(finished := c.finished + 1)
        case Removed(_) => c.(removed := c.removed + 1,
                              cancelled := c.cancelled + if Replay(past, t).Live() then 1 else 0)
  }

  /**
   Every accepted enqueue is paid for by one terminal write, by the removal of
   the unfinished task, or by the task being unfinished now. Insertions exceed
   removals by one exactly while the document exists.
   */
  lemma {:induction false} Conservation(h: Handler, history: seq<Entry>, t: TaskId)
    requires Legal(h, history)
    ensures var c := Count(history, t);
            && c.inserted + c.resets == c.finished + c.cancelled + (if Replay(history, t).Live() then 1 else 0)
            && c.inserted == c.removed + (if Replay(history, t).Gone? then 0 else 1)
  {
    if history == [] {
    } else {
      var n := |history| - 1;
      LegalPrefix(h, history, n);
      Conservation(h, history[..n], t);
      assert Allowed(h, history[..n], history[n]);
    }
  }

  // ----- alternation -----

  predicate Accepts(e: Entry, t: TaskId) {
    (e.Inserted? || e.Reset?) && e.taskId == t
  }

  predicate Ends(e: Entry, t: TaskId) {
    (e.Finished? || e.Removed?) && e.taskId == t
  }

  lemma {:induction false} LiveUntilEnded(history: seq<Entry>, t: TaskId, i: nat, j: nat)
    requires i <= j <= |history|
    requires Replay(history[..i], t).Live() && !Replay(history[..j], t).Live()
    ensures exists m :: i <= m < j && Ends(history[m], t)
  {
    if i == j {
    } else {
      var past := history[..j - 1];
      assert history[..j][..j - 1] == past;
      if !Replay(past, t).Live() {
        LiveUntilEnded(history, t, i, j - 1);
      } else {
        assert Ends(history[j - 1], t);
      }
    }
  }

  /** Between two accepted enqueues of a task it finished or was removed. */
  lemma AcceptedEnqueuesAlternate(h: Handler, history: seq<Entry>, t: TaskId, i: nat, j: nat)
    requires Legal(h, history) && i < j < |history|
    requires Accepts(history[i], t) && Accepts(history[j], t)
    ensures exists m :: i < m < j && Ends(history[m], t)
  {
    assert Allowed(h, history[..j], history[j]);
    assert history[..i + 1] == history[..i] + [history[i]];
    ReplayAppend(history[..i], history[i], t);
    LiveUntilEnded(history, t, i + 1, j);
  }

  /** Without removals a task was inserted at most once, and exactly once if it exists. */
  lemma OneInsertion(h: Handler, history: seq<Entry>, t: TaskId)
    requires Legal(h, history) && Count(history, t).removed == 0
    ensures Count(history, t).inserted == if Replay(history, t).Gone? then 0 else 1
  {
    Conservation(h, history, t);
  }

  /** Whatever exists was inserted before, so an insertion precedes every reset and every claim. */
  lemma {:induction false} PresentWasInserted(h: Handler, history: seq<Entry>, t: TaskId, n: nat)
    requires Legal(h, history) && n <= |history|
    requires !Replay(history[..n], t).Gone?
    ensures exists m :: 0 <= m < n && history[m].Inserted? && history[m].taskId == t
  {
    if n == 0 {
    } else {
      assert history[..n][..n - 1] == history[..n - 1];
      assert Allowed(h, history[..n - 1], history[n - 1]);
      if !(history[n - 1].Inserted? && history[n - 1].taskId == t) {
        PresentWasInserted(h, history, t, n - 1);
      }
    }
  }

  // ----- fencing -----

  predicate HeldBy(v: View, k: ClaimToken) {
    v.Held? && v.token == k
  }

  /** A token that was issued and does not hold the task now will never hold it again. */
  lemma {:induction false} LostTokenStaysLost(
    h: Handler, history: seq<Entry>, t: TaskId, k: ClaimToken, i: nat, j: nat)
    requires Legal(h, history) && i <= j <= |history|
    requires k in Tokens(history[..i]) && !HeldBy(Replay(history[..i], t), k)
    ensures k in Tokens(history[..j]) && !HeldBy(Replay(history[..j], t), k)
  {
    if i == j {
    } else {
      LostTokenStaysLost(h, history, t, k, i, j - 1);
      assert history[..j][..j - 1] == history[..j - 1];
      assert Allowed(h, history[..j - 1], history[j - 1]);
    }
  }

  // ----- what a finished task shows -----

  /** The input of the last accepted enqueue, the token of the last claim and the last outcome. */
  function LastInput(history: seq<Entry>, t: TaskId): Option<Bson> {
    if history == [] then None
    else
      var e := history[|history| - 1];
      if Accepts(e, t) then Some(e.input) else LastInput(history[..|history| - 1], t)
  }

  function LastClaim(history: seq<Entry>, t: TaskId): Option<ClaimToken> {
    if history == [] then None
    else
      var e := history[|history| - 1];
      if e.Claimed? && e.taskId == t then Some(e.token) else LastClaim(history[..|history| - 1], t)
  }

  function LastOutcome(history: seq<Entry>, t: TaskId): Option<Outcome> {
    if history == [] then None
    else
      var e := history[|history| - 1];
      if e.Finished? && e.taskId == t then Some(e.outcome) else LastOutcome(history[..|history| - 1], t)
  }

  /**
   A task shows the input of its last accepted enqueue, is held by its most
   recent claim, and when done shows the last recorded outcome, which for a
   success is a handler result for that same input.
   */
  lemma {:induction false} ReplayShowsTheLatest(h: Handler, history: seq<Entry>, t: TaskId)
    requires Legal(h, history)
    ensures var v := Replay(history, t);
            && (!v.Gone? ==> Some(v.input) == LastInput(history, t))
            && (v.Held? ==> Some(v.token) == LastClaim(history, t))
            && (v.Done? ==> Some(v.outcome) == LastOutcome(history, t))
            && (v.Done? && v.outcome.Success? ==> h.produces(t, v.input, Some(v.outcome.output)))
  {
    if history == [] {
    } else {
      var n := |history| - 1;
      LegalPrefix(h, history, n);
      ReplayShowsTheLatest(h, history[..n], t);
      assert Allowed(h, history[..n], history[n]);
    }
  }

  /** Only the most recent claim ever finishes a task. */
  lemma FinisherIsLatestClaim(h: Handler, history: seq<Entry>, i: nat)
    requires Legal(h, history) && i < |history| && history[i].Finished?
    ensures LastClaim(history[..i], history[i].taskId) == Some(history[i].token)
  {
    LegalPrefix(h, history, i);
    ReplayShowsTheLatest(h, history[..i], history[i].taskId);
    assert Allowed(h, history[..i], history[i]);
  }

  lemma {:induction false} LastOutcomeIsRecorded(history: seq<Entry>, t: TaskId)
    ensures LastOutcome(history, t).Some? ==>
              exists i :: 0 <= i < |history| && history[i].Finished? && history[i].taskId == t
                          && history[i].outcome == LastOutcome(history, t).value
  {
    if history == [] {
    } else {
      var n := |history| - 1;
      if !(history[n].Finished? && history[n].taskId == t) {
        LastOutcomeIsRecorded(history[..n], t);
        if LastOutcome(history[..n], t).Some? {
          var i :| 0 <= i < n && history[..n][i].Finished? && history[..n][i].taskId == t
                   && history[..n][i].outcome == LastOutcome(history[..n], t).value;
          assert history[i] == history[..n][i];
        }
      }
    }
  }
}
