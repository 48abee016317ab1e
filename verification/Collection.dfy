/**
 The operations as the program issues them: each method is one command to the
 task collection. A command may fail with a database error, in which case it may
 or may not have been applied.
 */
module Collection {
  import opened Prelude
  import opened Documents
  import opened Store
  import L = Lifecycle
  import P = Protocol

  /** A sort document, seen as the rank it gives a document; `None` leaves the order to the database. */
  type Sort = Option<Doc -> real>

  function Selected(docs: Docs, f: Filter): set<TaskId> {
    set t | t in docs && Selects(f, docs[t])
  }

  predicate First(docs: Docs, f: Filter, sort: Sort, t: TaskId) {
    && t in Selected(docs, f)
    && (sort.Some? ==> forall u <- Selected(docs, f) :: sort.value(docs[t]) <= sort.value(docs[u]))
  }

  lemma {:induction false} LeastRankedExists(docs: Docs, rank: Doc -> real, ts: set<TaskId>)
    requires ts != {} && ts <= docs.Keys
    ensures exists t :: t in ts && forall u <- ts :: rank(docs[t]) <= rank(docs[u])
  {
    var t :| t in ts;
    if ts != {t} {
      LeastRankedExists(docs, rank, ts - {t});
      var v :| v in ts - {t} && forall u <- ts - {t} :: rank(docs[v]) <= rank(docs[u]);
      var best := if rank(docs[t]) <= rank(docs[v]) then t else v;
      assert forall u <- ts :: u == t || u in ts - {t};
      assert best in ts && forall u <- ts :: rank(docs[best]) <= rank(docs[u]);
    }
  }

  lemma FirstExists(docs: Docs, f: Filter, sort: Sort)
    requires Selected(docs, f) != {}
    ensures exists t :: First(docs, f, sort, t)
  {
    var ts := Selected(docs, f);
    if sort.Some? {
      LeastRankedExists(docs, sort.value, ts);
      var t :| t in ts && forall u <- ts :: sort.value(docs[t]) <= sort.value(docs[u]);
      assert First(docs, f, sort, t);
    } else {
      var t :| t in ts;
      assert First(docs, f, sort, t);
    }
  }

  /** A claim by `f` with token `k` that stored `d`. */
  ghost predicate Took(docs: Docs, docs': Docs, f: Filter, sort: Sort, k: ClaimToken, now: int, d: Doc) {
    && First(docs, f, sort, d.taskId)
    && docs' == docs[d.taskId := d]
    && d == ClaimedDoc(docs[d.taskId], f.workerId, k, now, f.defaultMs)
  }

  /** The claim found its document by the first filter that selects anything. */
  ghost predicate TookInOrder(
    docs: Docs, docs': Docs, fs: seq<Filter>, sort: Sort, k: ClaimToken, now: int, d: Doc)
  {
    exists i :: 0 <= i < |fs| && (forall j | 0 <= j < i :: Selected(docs, fs[j]) == {})
                && Took(docs, docs', fs[i], if i == 0 then sort else None, k, now, d)
  }

  /** What a claim that ended in an error may have done: nothing, or the claim, whose answer was lost. */
  ghost predicate MaybeTook(docs: Docs, docs': Docs, fs: seq<Filter>, sort: Sort, k: ClaimToken, now: int) {
    || docs' == docs
    || exists d :: TookInOrder(docs, docs', fs, sort, k, now, d)
  }

  lemma FirstMatchIsInOrder(
    docs: Docs, docs': Docs, fs: seq<Filter>, i: nat, sort: Sort, own: Sort, k: ClaimToken, now: int)
    requires i < |fs| && forall j | 0 <= j < i :: Selected(docs, fs[j]) == {}
    requires own == if i == 0 then sort else None
    ensures forall d | Took(docs, docs', fs[i], own, k, now, d) :: TookInOrder(docs, docs', fs, sort, k, now, d)
    ensures docs' == docs || (exists d :: Took(docs, docs', fs[i], own, k, now, d)) ==>
              MaybeTook(docs, docs', fs, sort, k, now)
  {
    if d :| Took(docs, docs', fs[i], own, k, now, d) {
      assert TookInOrder(docs, docs', fs, sort, k, now, d);
    }
  }

  /**
   What becomes of a command: it reaches the database and is answered, it does not
   reach it, or it takes effect and its answer is lost.
   */
  datatype Outcome = Answered | Unreached(message: string) | AnswerLost(message: string)

  /** Some of the commands numbered from `i` to `j` was not answered. */
  predicate FaultIn(outcomes: nat -> Outcome, i: nat, j: nat) {
    exists c: nat | i <= c < j :: outcomes(c) != Answered
  }

  /** A fenced write that was issued, the collection at that time, and what became of it. */
  datatype Exchange = Exchange(write: Write, before: Docs, outcome: Outcome)
  {
    /** What the issuer learns: whether the write matched, or the error. */
    function Answer(): Result<bool, string> {
      match outcome
      case Answered => Ok(Matches(before, write))
      case Unreached(m) => Err(m)
      case AnswerLost(m) => Err(m)
    }

    /** The collection right after the command. */
    function After(): Docs {
      if outcome.Unreached? then before else Apply(before, Update(write))
    }
  }

  /** Others act on the collection. */
  method Await(collection: TaskCollection)
    requires WellIndexed(collection.docs)
    modifies collection
    ensures WellIndexed(collection.docs)
    ensures collection.commands == old(collection.commands) && collection.journal == old(collection.journal)
  {
    var docs: Docs := *;
    if WellIndexed(docs) {
      collection.docs := docs;
    }
  }

  /**
   `outcomes` says what becomes of each of the process's commands, by their number;
   `journal` lists its fenced writes.
   */
  class TaskCollection {
    var docs: Docs
    const outcomes: nat -> Outcome
    var commands: nat
    ghost var journal: seq<Exchange>

    constructor (outcomes: nat -> Outcome)
      ensures docs == map[] && this.outcomes == outcomes && commands == 0 && journal == []
    {
      docs := map[];
      this.outcomes := outcomes;
      commands := 0;
      journal := [];
    }

    /** `upsert_task` */
    method UpsertTask(req: EnqueueRequest, oid: ObjectId, now: int)
      returns (answer: Result<EnqueueAction, EnqueueError>)
      requires WellIndexed(docs) && Enabled(docs, Enqueue(req, oid, now))
      modifies this
      ensures WellIndexed(docs) && commands == old(commands) + 1 && journal == old(journal)
      ensures match outcomes(old(commands))
              case Answered =>
                answer == EnqueueAnswer(old(docs), req) && docs == Apply(old(docs), Enqueue(req, oid, now))
              case Unreached(m) => answer == Err(Database(m)) && docs == old(docs)
              case AnswerLost(m) => answer == Err(Database(m)) && docs == Apply(old(docs), Enqueue(req, oid, now))
    {
      var outcome := outcomes(commands);
      commands := commands + 1;
      if outcome.Unreached? {
        return Err(Database(outcome.message));
      }
      if req.taskId in docs {
        if EnqueueMatches(docs[req.taskId], req) {
          docs := docs[req.taskId := EnqueuedDoc(Some(docs[req.taskId]), req, oid, now)];
          answer := Ok(Reset);
        } else {
          answer := Err(Duplicate(req.taskId));
        }
      } else {
        docs := docs[req.taskId := EnqueuedDoc(None, req, oid, now)];
        answer := Ok(Inserted);
      }
      if outcome.AnswerLost? {
        answer := Err(Database(outcome.message));
      }
    }

    /** One fenced `update_one`: heartbeat, completion or failure. The answer is whether it matched. */
    method UpdateOne(wr: Write) returns (answer: Result<bool, string>)
      requires WellIndexed(docs)
      modifies this
      ensures WellIndexed(docs) && commands == old(commands) + 1
      ensures var exchange := Exchange(wr, old(docs), outcomes(old(commands)));
              && journal == old(journal) + [exchange]
              && answer == exchange.Answer() && docs == exchange.After()
    {
      var outcome := outcomes(commands);
      commands := commands + 1;
      journal := journal + [Exchange(wr, docs, outcome)];
      if outcome.Unreached? {
        return Err(outcome.message);
      }
      if wr.taskId in docs && Owns(docs[wr.taskId], wr.workerId, wr.token) {
        docs := docs[wr.taskId := WrittenDoc(docs[wr.taskId], wr)];
        answer := Ok(true);
      } else {
        answer := Ok(false);
      }
      if outcome.AnswerLost? {
        answer := Err(outcome.message);
      }
    }

    /** `claim_with_filter`: one `find_one_and_update` that returns the document after the update. */
    method ClaimWithFilter(f: Filter, sort: Sort, k: ClaimToken, now: int)
      returns (answer: Result<Option<Doc>, string>)
      requires WellIndexed(docs)
      modifies this
      ensures WellIndexed(docs) && commands == old(commands) + 1 && journal == old(journal)
      ensures outcomes(old(commands)).Unreached? || Selected(old(docs), f) == {} ==> docs == old(docs)
      ensures match outcomes(old(commands))
              case Answered =>
                if Selected(old(docs), f) == {} then answer == Ok(None)
                else answer.Ok? && answer.value.Some? && Took(old(docs), docs, f, sort, k, now, answer.value.value)
              case Unreached(m) => answer == Err(m)
              case AnswerLost(m) =>
                && answer == Err(m)
                && (Selected(old(docs), f) != {} ==> exists d :: Took(old(docs), docs, f, sort, k, now, d))
    {
      var outcome := outcomes(commands);
      commands := commands + 1;
      if outcome.Unreached? {
        return Err(outcome.message);
      }
      if Selected(docs, f) == {} {
        answer := Ok(None);
      } else {
        FirstExists(docs, f, sort);
        var t :| First(docs, f, sort, t);
        docs := docs[t := ClaimedDoc(docs[t], f.workerId, k, now, f.defaultMs)];
        assert Took(old(docs), docs, f, sort, k, now, docs[t]);
        answer := Ok(Some(docs[t]));
      }
      if outcome.AnswerLost? {
        answer := Err(outcome.message);
      }
    }

    /**
     `claim_next_task`: the filters of the mode in turn, the sort order only for the
     first. `k` is the new claim token. It ends in an error exactly if one of its
     commands is not answered.
     */
    method ClaimNextTask(
      w: WorkerId, defaultMs: nat, excluded: set<TaskId>, mode: Mode, sort: Sort, k: ClaimToken, now: int)
      returns (answer: Result<Option<Doc>, string>)
      requires WellIndexed(docs)
      modifies this
      ensures WellIndexed(docs) && journal == old(journal)
      ensures old(commands) < commands && (answer.Err? <==> FaultIn(outcomes, old(commands), commands))
      ensures answer == Ok(None) ==>
                && docs == old(docs)
                && forall f <- ModeFilters(w, defaultMs, excluded, mode, now) :: Selected(docs, f) == {}
      ensures answer.Ok? && answer.value.Some? ==>
                TookInOrder(
                  old(docs), docs, ModeFilters(w, defaultMs, excluded, mode, now), sort, k, now, answer.value.value)
      ensures answer.Err? ==> MaybeTook(old(docs), docs, ModeFilters(w, defaultMs, excluded, mode, now), sort, k, now)
    {
      var attempts := ModeFilters(w, defaultMs, excluded, mode, now);
      for i := 0 to |attempts|
        invariant docs == old(docs) && journal == old(journal) && commands == old(commands) + i
        invariant !FaultIn(outcomes, old(commands), commands)
        invariant forall j | 0 <= j < i :: Selected(docs, attempts[j]) == {}
      {
        answer := ClaimWithFilter(attempts[i], if i == 0 then sort else None, k, now);
        assert answer.Err? <==> outcomes(old(commands) + i) != Answered;
        if answer.Err? || answer.value.Some? {
          FirstMatchIsInOrder(old(docs), docs, attempts, i, sort, if i == 0 then sort else None, k, now);
          return;
        }
      }
      answer := Ok(None);
    }

    /** `claim_expired_task_by_id`: a known task that is in flight is refused before the query. */
    method ClaimExpiredTaskById(
      oid: ObjectId, w: WorkerId, defaultMs: nat, known: Option<TaskId>, excluded: set<TaskId>,
      k: ClaimToken, now: int)
      returns (answer: Result<Option<Doc>, string>)
      requires WellIndexed(docs)
      modifies this
      ensures WellIndexed(docs) && journal == old(journal)
      ensures commands == if RefusedUpFront(known, excluded) then old(commands) else old(commands) + 1
      ensures answer.Err? <==> FaultIn(outcomes, old(commands), commands)
      ensures answer == Ok(None) ==>
                docs == old(docs)
                && (RefusedUpFront(known, excluded)
                    || Selected(docs, TargetFilter(oid, known, w, defaultMs, excluded, now)) == {})
      ensures answer.Ok? && answer.value.Some? ==>
                && Took(old(docs), docs, TargetFilter(oid, known, w, defaultMs, excluded, now), None, k, now,
                        answer.value.value)
                && answer.value.value.taskId !in excluded
      ensures answer.Err? ==>
                MaybeTook(old(docs), docs, [TargetFilter(oid, known, w, defaultMs, excluded, now)], None, k, now)
    {
      if RefusedUpFront(known, excluded) {
        return Ok(None);
      }
      var attempts := [TargetFilter(oid, known, w, defaultMs, excluded, now)];
      answer := ClaimWithFilter(attempts[0], None, k, now);
      assert answer.Err? <==> outcomes(old(commands)) != Answered;
      FirstMatchIsInOrder(old(docs), docs, attempts, 0, None, None, k, now);
    }
  }

  /**
   Every claim that changed the collection, whether or not its answer arrived, is
   a step of the protocol: from any system state with this collection, with a
   token that was not issued before and times read from the clock, the protocol
   can take the task, and then has the collection the claim left and a record of
   the document it returned.
   */
  lemma ClaimsAreProtocolSteps(
    h: L.Handler, s: P.System, docs': Docs, f: Filter, sort: Sort, k: ClaimToken, now: int, d: Doc)
    requires WellIndexed(s.docs) && Took(s.docs, docs', f, sort, k, now, d)
    requires k !in s.claims && 0 <= now <= s.clock && (f.path.StalePath? ==> f.path.now <= s.clock)
    ensures var a := P.Take(d.taskId, f.workerId, k, now, f.defaultMs, f.path);
            && P.Enabled(h, s, a)
            && P.Next(s, a) ==
               s.(docs := docs',
                  claims := s.claims[k := P.ClaimRecord(f.workerId, d, P.Setup, P.Idle(s.clock))],
                  history := s.history + [L.Claimed(d.taskId, k)])
  {
    assert Selects(f, s.docs[d.taskId]);
  }
}
