/**
 The two pumps, run with nothing in between: what one call of each does to the
 collection, the permits, the in-flight registry and the expiry tracker. Each
 claim and each deferral reads the clock anew.
 */
module Pump {
  import opened Prelude
  import opened Documents
  import opened Store
  import opened Expiry
  import opened Collection
  import Feed

  /**
   A worker process and the collection it talks to, as one value. `spawned` lists
   the documents handed to handlers.
   */
  datatype State = State(docs: Docs, index: Index, available: nat, inFlight: set<TaskId>, spawned: seq<Doc>)

  /** The fixed parameters of a pump call. */
  datatype Args = Args(id: WorkerId, defaultMs: nat, mode: Mode, sort: Sort, now: int)

  // ----- what a pump of available tasks claims -----

  /** The matches of the filter that comes first, the only one that is sorted. */
  function Primary(s: State, a: Args): set<TaskId> {
    var path := if a.mode == Ready then PendingPath else StalePath(a.now);
    Selected(s.docs, Filter(path, a.id, a.defaultMs, s.inFlight, None))
  }

  /** Everything a pump of this mode could claim. */
  function Eligible(s: State, a: Args): set<TaskId> {
    Primary(s, a)
    + if a.mode == Ready then Selected(s.docs, Filter(OwnPath, a.id, a.defaultMs, s.inFlight, None)) else {}
  }

  /** The best task to claim: the first primary match in sort order, or, when there is none, any other eligible task. */
  ghost predicate Best(s: State, a: Args, t: TaskId) {
    && t in Eligible(s, a)
    && (Primary(s, a) != {} ==> t in Primary(s, a))
    && (t in Primary(s, a) && a.sort.Some? ==>
          forall u <- Primary(s, a) :: a.sort.value(s.docs[t]) <= a.sort.value(s.docs[u]))
  }

  /** One claim has been made and its handler started. */
  ghost predicate TookOne(s: State, a: Args, s': State, d: Doc) {
    && Best(s, a, d.taskId)
    && (exists k :: d == ClaimedDoc(s.docs[d.taskId], a.id, k, a.now, a.defaultMs))
    && s'.docs == s.docs[d.taskId := d]
    && s'.index == Feed.Scheduled(s.index, d, a.defaultMs)
    && s'.available == s.available - 1
    && s'.inFlight == s.inFlight + {d.taskId}
    && s'.spawned == s.spawned + [d]
  }

  lemma FaultsAddUp(outcomes: nat -> Outcome, i: nat, j: nat, k: nat)
    requires i <= j <= k
    ensures FaultIn(outcomes, i, k) <==> FaultIn(outcomes, i, j) || FaultIn(outcomes, j, k)
  {
    if FaultIn(outcomes, i, k) {
      var c: nat :| i <= c < k && outcomes(c) != Answered;
      assert if c < j then FaultIn(outcomes, i, j) else FaultIn(outcomes, j, k);
    }
  }

  /** What a claim that ended in an error may have done, whatever its token. */
  ghost predicate MaybeClaimed(docs: Docs, docs': Docs, fs: seq<Filter>, sort: Sort, now: int) {
    docs' == docs || exists k :: MaybeTook(docs, docs', fs, sort, k, now)
  }

  /** The pump at the time that claimed `d`, which is stored in it. */
  function AtClaim(a: Args, d: Doc): Args {
    a.(now := d.updatedAt)
  }

  /** A chain of claims up to `a.now`: `states` are the states before, between and after them. */
  ghost predicate Chain(states: seq<State>, a: Args, claimed: seq<Doc>) {
    && |states| == |claimed| + 1
    && forall i | 0 <= i < |claimed| ::
         claimed[i].updatedAt <= a.now && TookOne(states[i], AtClaim(a, claimed[i]), states[i + 1], claimed[i])
  }

  lemma ChainUpToLater(states: seq<State>, a: Args, claimed: seq<Doc>, later: int)
    requires Chain(states, a, claimed) && a.now <= later
    ensures Chain(states, a.(now := later), claimed)
  {
    forall i | 0 <= i < |claimed|
      ensures TookOne(states[i], AtClaim(a.(now := later), claimed[i]), states[i + 1], claimed[i])
    {
      assert TookOne(states[i], AtClaim(a, claimed[i]), states[i + 1], claimed[i]);
    }
  }

  lemma OneMoreClaim(states: seq<State>, a: Args, claimed: seq<Doc>, d: Doc, s': State)
    requires Chain(states, a, claimed) && a.now <= d.updatedAt && TookOne(states[|claimed|], AtClaim(a, d), s', d)
    ensures Chain(states + [s'], AtClaim(a, d), claimed + [d])
  {
    var states', claimed' := states + [s'], claimed + [d];
    forall i | 0 <= i < |claimed'|
      ensures TookOne(states'[i], AtClaim(AtClaim(a, d), claimed'[i]), states'[i + 1], claimed'[i])
    {
      if i < |claimed| {
        assert states'[i] == states[i] && states'[i + 1] == states[i + 1];
      }
    }
  }

  function Ids(ds: seq<Doc>): set<TaskId> {
    if ds == [] then {} else Ids(ds[..|ds| - 1]) + {ds[|ds| - 1].taskId}
  }

  lemma {:induction false} IdsMembers(ds: seq<Doc>)
    ensures forall i | 0 <= i < |ds| :: ds[i].taskId in Ids(ds)
  {
    if ds == [] {
    } else {
      var front := ds[..|ds| - 1];
      IdsMembers(front);
      forall i | 0 <= i < |ds| ensures ds[i].taskId in Ids(ds) {
        if i < |front| {
          assert front[i] == ds[i];
        }
      }
    }
  }

  /** One claim takes one task out of what is eligible at any time `a.now`, and leaves the others as they were. */
  lemma OneLessEligible(s: State, a: Args, s': State, d: Doc)
    requires WellIndexed(s.docs) && TookOne(s, AtClaim(a, d), s', d)
    ensures WellIndexed(s'.docs) && s'.docs.Keys == s.docs.Keys
    ensures Primary(s', a) == Primary(s, a) - {d.taskId}
    ensures Eligible(s', a) == Eligible(s, a) - {d.taskId}
    ensures forall t <- s.docs | t != d.taskId :: s'.docs[t] == s.docs[t]
  {
  }

  lemma {:induction false} ChainIsWellIndexed(states: seq<State>, a: Args, claimed: seq<Doc>, n: nat)
    requires Chain(states, a, claimed) && n <= |claimed| && WellIndexed(states[0].docs)
    ensures WellIndexed(states[n].docs) && states[n].docs.Keys == states[0].docs.Keys
  {
    if n == 0 {
    } else {
      ChainIsWellIndexed(states, a, claimed, n - 1);
      OneLessEligible(states[n - 1], a, states[n], claimed[n - 1]);
    }
  }

  /** After `n` claims the claimed tasks are gone from what is eligible at any time. */
  lemma {:induction false} ChainTakesEligible(
    states: seq<State>, a: Args, claimed: seq<Doc>, n: nat, b: Args)
    requires Chain(states, a, claimed) && n <= |claimed| && WellIndexed(states[0].docs) && b == a.(now := b.now)
    ensures Eligible(states[n], b) == Eligible(states[0], b) - Ids(claimed[..n])
  {
    if n == 0 {
    } else {
      ChainTakesEligible(states, a, claimed, n - 1, b);
      ChainIsWellIndexed(states, a, claimed, n - 1);
      OneLessEligible(states[n - 1], b, states[n], claimed[n - 1]);
      assert claimed[..n][..n - 1] == claimed[..n - 1];
      OneMoreGone(Eligible(states[0], b), Eligible(states[n - 1], b), Eligible(states[n], b),
                  Ids(claimed[..n - 1]), claimed[n - 1].taskId);
    }
  }

  /** Each claimed task was eligible at the start and was not claimed before. */
  lemma NextIsNew(states: seq<State>, a: Args, claimed: seq<Doc>, n: nat)
    requires Chain(states, a, claimed) && n < |claimed| && WellIndexed(states[0].docs)
    ensures claimed[n].taskId in Eligible(states[0], a) - Ids(claimed[..n])
  {
    ChainTakesEligible(states, a, claimed, n, a);
    ClaimIsEligible(states[n], a, states[n + 1], claimed[n]);
  }

  /** `n` claims take `n` different tasks. */
  lemma {:induction false} ChainIsDistinct(states: seq<State>, a: Args, claimed: seq<Doc>, n: nat)
    requires Chain(states, a, claimed) && n <= |claimed| && WellIndexed(states[0].docs)
    ensures |Ids(claimed[..n])| == n && Ids(claimed[..n]) <= Eligible(states[0], a)
  {
    if n == 0 {
    } else {
      ChainIsDistinct(states, a, claimed, n - 1);
      NextIsNew(states, a, claimed, n - 1);
      assert claimed[..n][..n - 1] == claimed[..n - 1];
      OneMoreDistinct(Eligible(states[0], a), Ids(claimed[..n - 1]), claimed[n - 1].taskId);
    }
  }

  lemma OneMoreGone(all: set<TaskId>, before: set<TaskId>, after: set<TaskId>, gone: set<TaskId>, t: TaskId)
    requires before == all - gone && after == before - {t}
    ensures after == all - (gone + {t})
  {
  }

  lemma OneMoreDistinct(all: set<TaskId>, gone: set<TaskId>, t: TaskId)
    requires t in all - gone && gone <= all
    ensures gone + {t} <= all && |gone + {t}| == |gone| + 1
  {
  }

  lemma ClaimIsEligible(s: State, a: Args, s': State, d: Doc)
    requires TookOne(s, AtClaim(a, d), s', d) && d.updatedAt <= a.now
    ensures d.taskId in Eligible(s, a)
  {
  }

  /** After `n` claims the claimed tasks are gone from the primary matches of any time. */
  lemma {:induction false} ChainTakesPrimary(
    states: seq<State>, a: Args, claimed: seq<Doc>, n: nat, b: Args)
    requires Chain(states, a, claimed) && n <= |claimed| && WellIndexed(states[0].docs) && b == a.(now := b.now)
    ensures Primary(states[n], b) == Primary(states[0], b) - Ids(claimed[..n])
  {
    if n == 0 {
    } else {
      ChainTakesPrimary(states, a, claimed, n - 1, b);
      ChainIsWellIndexed(states, a, claimed, n - 1);
      OneLessEligible(states[n - 1], b, states[n], claimed[n - 1]);
      assert claimed[..n][..n - 1] == claimed[..n - 1];
      OneMoreGone(Primary(states[0], b), Primary(states[n - 1], b), Primary(states[n], b),
                  Ids(claimed[..n - 1]), claimed[n - 1].taskId);
    }
  }

  /** Documents that were not claimed are as they were. */
  lemma {:induction false} ChainKeepsOthers(states: seq<State>, a: Args, claimed: seq<Doc>, n: nat, t: TaskId)
    requires Chain(states, a, claimed) && n <= |claimed| && WellIndexed(states[0].docs)
    requires t in states[0].docs && t !in Ids(claimed[..n])
    ensures t in states[n].docs && states[n].docs[t] == states[0].docs[t]
  {
    if n == 0 {
    } else {
      assert claimed[..n][..n - 1] == claimed[..n - 1];
      ChainKeepsOthers(states, a, claimed, n - 1, t);
      ChainIsWellIndexed(states, a, claimed, n - 1);
      OneLessEligible(states[n - 1], a, states[n], claimed[n - 1]);
    }
  }

  /** Each claim costs one permit, registers its task and hands its document over, in order. */
  lemma {:induction false} ChainIsAccounted(states: seq<State>, a: Args, claimed: seq<Doc>, n: nat)
    requires Chain(states, a, claimed) && n <= |claimed|
    ensures states[n].available == states[0].available - n
    ensures states[n].inFlight == states[0].inFlight + Ids(claimed[..n])
    ensures states[n].spawned == states[0].spawned + claimed[..n]
  {
    if n == 0 {
    } else {
      ChainIsAccounted(states, a, claimed, n - 1);
      assert TookOne(states[n - 1], AtClaim(a, claimed[n - 1]), states[n], claimed[n - 1]);
      assert claimed[..n][..n - 1] == claimed[..n - 1];
      assert claimed[..n] == claimed[..n - 1] + [claimed[n - 1]];
    }
  }

  /** What the best choice at one moment means against the state at the start. */
  lemma BestThenAndAtTheStart(start: State, s: State, a: Args, gone: set<TaskId>, t: TaskId, u: TaskId)
    requires Best(s, a, t) && s.docs.Keys == start.docs.Keys
    requires Primary(s, a) == Primary(start, a) - gone && Eligible(s, a) == Eligible(start, a) - gone
    requires forall v <- start.docs | v !in gone :: s.docs[v] == start.docs[v]
    ensures t in start.docs && t in Eligible(start, a) - gone
    ensures t !in Primary(start, a) ==> Primary(start, a) <= gone
    ensures u in Primary(start, a) - gone ==>
              t in Primary(start, a) && (a.sort.Some? ==> a.sort.value(start.docs[t]) <= a.sort.value(start.docs[u]))
  {
    forall v <- Primary(start, a) | v !in gone ensures v in Primary(s, a) && t in Primary(s, a) {
      assert v in Primary(start, a) - gone;
    }
  }

  lemma BestAtItsTurn(states: seq<State>, a: Args, claimed: seq<Doc>, i: nat, u: TaskId)
    requires Chain(states, a, claimed) && i < |claimed| && WellIndexed(states[0].docs)
    ensures var start, b, t, gone := states[0], AtClaim(a, claimed[i]), claimed[i].taskId, Ids(claimed[..i]);
            && t in start.docs && t in Eligible(start, b) - gone
            && (t !in Primary(start, b) ==> Primary(start, b) <= gone)
            && (u in Primary(start, b) - gone ==>
                  && t in Primary(start, b)
                  && (a.sort.Some? ==> a.sort.value(start.docs[t]) <= a.sort.value(start.docs[u])))
  {
    var b := AtClaim(a, claimed[i]);
    ChainTakesEligible(states, a, claimed, i, b);
    ChainTakesPrimary(states, a, claimed, i, b);
    ChainIsWellIndexed(states, a, claimed, i);
    forall v <- states[0].docs | v !in Ids(claimed[..i]) ensures states[i].docs[v] == states[0].docs[v] {
      ChainKeepsOthers(states, a, claimed, i, v);
    }
    assert TookOne(states[i], b, states[i + 1], claimed[i]);
    BestThenAndAtTheStart(states[0], states[i], b, Ids(claimed[..i]), claimed[i].taskId, u);
  }

  /**
   Claims come in sort order, primary matches before others, and others only once
   no primary match is left, as matters stood when the earlier of two claims was made.
   */
  lemma ClaimsAreInOrder(states: seq<State>, a: Args, claimed: seq<Doc>, i: nat, j: nat)
    requires Chain(states, a, claimed) && i < j < |claimed| && WellIndexed(states[0].docs)
    ensures var start, b, t, u := states[0], AtClaim(a, claimed[i]), claimed[i].taskId, claimed[j].taskId;
            && t in start.docs && u in start.docs && t != u
            && (u in Primary(start, b) ==>
                  && t in Primary(start, b)
                  && (a.sort.Some? ==> a.sort.value(start.docs[t]) <= a.sort.value(start.docs[u])))
            && (t !in Primary(start, b) ==> Primary(start, b) <= Ids(claimed[..i]))
  {
    BestAtItsTurn(states, a, claimed, i, claimed[j].taskId);
    BestAtItsTurn(states, a, claimed, j, claimed[j].taskId);
    IdsMembers(claimed[..j]);
    IdsGrow(claimed, i, j);
    assert claimed[..j][i] == claimed[i];
  }

  /** A document that was a primary match at a claim, and was left behind, ranks no better than what was claimed. */
  lemma LeftBehindIsNotBetter(states: seq<State>, a: Args, claimed: seq<Doc>, i: nat, u: TaskId)
    requires Chain(states, a, claimed) && i < |claimed| && WellIndexed(states[0].docs)
    requires u in Primary(states[0], AtClaim(a, claimed[i])) && u !in Ids(claimed)
    ensures var start, t := states[0], claimed[i].taskId;
            && t in Primary(start, AtClaim(a, claimed[i]))
            && (a.sort.Some? ==> a.sort.value(start.docs[t]) <= a.sort.value(start.docs[u]))
  {
    BestAtItsTurn(states, a, claimed, i, u);
    IdsGrow(claimed, i, |claimed|);
    assert claimed[..|claimed|] == claimed;
  }

  lemma {:induction false} IdsGrow(ds: seq<Doc>, i: nat, j: nat)
    requires i <= j <= |ds|
    ensures Ids(ds[..i]) <= Ids(ds[..j])
  {
    if i == j {
    } else {
      IdsGrow(ds, i, j - 1);
      assert ds[..j][..j - 1] == ds[..j - 1];
    }
  }

  /** A chain never has more claims than there were eligible tasks, and as many if none is left. */
  lemma PumpIsExhaustive(states: seq<State>, a: Args, claimed: seq<Doc>)
    requires Chain(states, a, claimed) && WellIndexed(states[0].docs)
    ensures |claimed| <= |Eligible(states[0], a)|
    ensures Eligible(states[|claimed|], a) == {} ==> |claimed| == |Eligible(states[0], a)|
  {
    var n := |claimed|;
    ChainTakesEligible(states, a, claimed, n, a);
    ChainIsDistinct(states, a, claimed, n);
    assert claimed[..n] == claimed;
    SubsetIsSmaller(Ids(claimed), Eligible(states[0], a));
    if Eligible(states[n], a) == {} {
      SubsetIsSmaller(Eligible(states[0], a), Ids(claimed));
    }
  }

  /** A claim by the first filter that selects anything is the best choice. */
  lemma BestFromOrder(s: State, a: Args, docs': Docs, k: ClaimToken, d: Doc)
    requires TookInOrder(
               s.docs, docs', ModeFilters(a.id, a.defaultMs, s.inFlight, a.mode, a.now), a.sort, k, a.now, d)
    ensures Best(s, a, d.taskId) && docs' == s.docs[d.taskId := d]
    ensures exists k :: d == ClaimedDoc(s.docs[d.taskId], a.id, k, a.now, a.defaultMs)
  {
    var fs := ModeFilters(a.id, a.defaultMs, s.inFlight, a.mode, a.now);
    var i :| 0 <= i < |fs| && (forall j | 0 <= j < i :: Selected(s.docs, fs[j]) == {})
             && Took(s.docs, docs', fs[i], if i == 0 then a.sort else None, k, a.now, d);
    assert i > 0 ==> Selected(s.docs, fs[0]) == {};
    assert Primary(s, a) == Selected(s.docs, fs[0]);
  }

  // ----- what becomes of a popped entry -----

  /** `at` is the time read for the deferral or the fruitless claim. */
  datatype Fate = Reclaimed(doc: Doc) | Deferred(at: int) | Forgotten(failed: bool, at: int) | Unvisited

  const DEFER_MS: nat := 1000

  /** Nothing to reclaim for this entry: its task is in flight here, or no matching document is stale. */
  ghost predicate NothingStale(s: State, oid: ObjectId, known: Option<TaskId>, a: Args) {
    || RefusedUpFront(known, s.inFlight)
    || Selected(s.docs, TargetFilter(oid, known, a.id, a.defaultMs, s.inFlight, a.now)) == {}
  }

  /** The query for one popped entry. */
  function DueFilter(s: State, a: Args, oid: ObjectId, task: ExpiringTask): Filter {
    TargetFilter(oid, task.taskId, a.id, a.defaultMs, s.inFlight, a.now)
  }

  /** The claim for the entry ended in an error. */
  predicate GaveError(fate: Fate) {
    fate.Forgotten? && fate.failed
  }

  /** The time at which an entry met its fate. */
  function FateTime(fate: Fate, popped: int): int {
    match fate
    case Reclaimed(d) => d.updatedAt
    case Deferred(at) => at
    case Forgotten(_, at) => at
    case Unvisited => popped
  }

  /** What the loop of `pump_expired_tasks` does with one of the entries that were due at `a.now`. */
  ghost predicate Visit(s: State, a: Args, oid: ObjectId, task: ExpiringTask, fate: Fate, s': State) {
    var b := a.(now := FateTime(fate, a.now));
    && a.now <= b.now
    && match fate
       case Reclaimed(d) =>
         && d.oid == oid && d.taskId !in s.inFlight
         && (exists k :: Took(s.docs, s'.docs, DueFilter(s, b, oid, task), None, k, b.now, d))
         && s'.index == Feed.Scheduled(s.index, d, a.defaultMs)
         && s'.available == s.available - 1
         && s'.inFlight == s.inFlight + {d.taskId}
         && s'.spawned == s.spawned + [d]
       case Deferred(at) =>
         s.available == 0 && s' == s.(index := Expiry.Deferred(s.index, oid, task, at, DEFER_MS))
       case Forgotten(failed, _) =>
         if failed
         then s' == s.(docs := s'.docs) && MaybeClaimed(s.docs, s'.docs, [DueFilter(s, b, oid, task)], None, b.now)
         else s' == s && NothingStale(s, oid, task.taskId, b)
       case Unvisited => s' == s
  }

  /**
   With a permit, an entry whose document is stale and not in flight is reclaimed,
   unless the database fails.
   */
  lemma StaleIsReclaimed(s: State, a: Args, task: ExpiringTask, fate: Fate, s': State, t: TaskId)
    requires WellIndexed(s.docs) && t in s.docs && t !in s.inFlight && s.available > 0
    requires task.taskId.None? || task.taskId == Some(t)
    requires StaleAt(s.docs[t], a.now, a.defaultMs)
    requires Visit(s, a, s.docs[t].oid, task, fate, s') && !fate.Unvisited?
    ensures match fate
            case Reclaimed(d) => d.taskId == t && s'.spawned == s.spawned + [d]
            case Forgotten(failed, _) => failed
            case _ => false
  {
    var b := a.(now := FateTime(fate, a.now));
    assert t in Selected(s.docs, DueFilter(s, b, s.docs[t].oid, task));
  }

  /** All entries in turn; once one is deferred, and only then, the rest stay unvisited. */
  ghost predicate Visits(states: seq<State>, a: Args, due: Popped, fates: seq<Fate>) {
    && |states| == |fates| + 1 && |fates| <= |due|
    && (forall i | 0 <= i < |fates| :: Visit(states[i], a, due[i].0, due[i].1, fates[i], states[i + 1]))
    && (forall i, j | 0 <= i < j < |fates| :: fates[i].Deferred? || fates[i].Unvisited? ==> fates[j].Unvisited?)
    && (forall i | 0 <= i < |fates| && fates[i].Unvisited? :: exists j :: 0 <= j < i && fates[j].Deferred?)
  }

  lemma FateAdded(fates: seq<Fate>, fate: Fate)
    ensures (exists j :: 0 <= j <= |fates| && GaveError((fates + [fate])[j])) <==>
            (exists j :: 0 <= j < |fates| && GaveError(fates[j])) || GaveError(fate)
    ensures (exists j :: 0 <= j <= |fates| && (fates + [fate])[j].Deferred?) <==>
            (exists j :: 0 <= j < |fates| && fates[j].Deferred?) || fate.Deferred?
  {
    assert (fates + [fate])[|fates|] == fate;
    forall j | 0 <= j < |fates| ensures (fates + [fate])[j] == fates[j] {
    }
  }

  lemma OneMoreVisit(states: seq<State>, a: Args, due: Popped, fates: seq<Fate>, fate: Fate, s': State)
    requires Visits(states, a, due, fates) && |fates| < |due|
    requires Visit(states[|fates|], a, due[|fates|].0, due[|fates|].1, fate, s')
    requires if fate.Unvisited? then exists j :: 0 <= j < |fates| && fates[j].Deferred?
             else forall i | 0 <= i < |fates| :: !fates[i].Deferred? && !fates[i].Unvisited?
    ensures Visits(states + [s'], a, due, fates + [fate])
  {
    var states', fates' := states + [s'], fates + [fate];
    forall i | 0 <= i < |fates'| ensures Visit(states'[i], a, due[i].0, due[i].1, fates'[i], states'[i + 1]) {
      if i < |fates| {
        assert states'[i] == states[i] && states'[i + 1] == states[i + 1];
      }
    }
    forall i | 0 <= i < |fates'| && fates'[i].Unvisited? ensures exists j :: 0 <= j < i && fates'[j].Deferred? {
      var j :| 0 <= j < |fates| && fates[j].Deferred? && (i < |fates| ==> j < i);
      assert fates'[j] == fates[j];
    }
  }

  /** The tracker after the entries met their fates, starting from what popping left. */
  function Aftermath(left: Index, due: Popped, fates: seq<Fate>, defaultMs: nat): Index
    requires |fates| <= |due|
  {
    if fates == [] then left
    else
      var n := |fates| - 1;
      var m := Aftermath(left, due, fates[..n], defaultMs);
      match fates[n]
      case Reclaimed(d) => Feed.Scheduled(m, d, defaultMs)
      case Deferred(at) => Expiry.Deferred(m, due[n].0, due[n].1, at, DEFER_MS)
      case _ => m
  }

  function Reclaims(fates: seq<Fate>): seq<Doc> {
    if fates == [] then []
    else Reclaims(fates[..|fates| - 1]) + if fates[|fates| - 1].Reclaimed? then [fates[|fates| - 1].doc] else []
  }

  /**
   Every entry is reclaimed and rescheduled, deferred, or gone from the tracker, and
   each reclaim costs one permit.
   */
  lemma {:induction false} VisitsAccount(states: seq<State>, a: Args, due: Popped, fates: seq<Fate>, n: nat)
    requires Visits(states, a, due, fates) && n <= |fates|
    ensures states[n].index == Aftermath(states[0].index, due, fates[..n], a.defaultMs)
    ensures states[n].spawned == states[0].spawned + Reclaims(fates[..n])
    ensures states[n].available == states[0].available - |Reclaims(fates[..n])|
  {
    if n == 0 {
    } else {
      VisitsAccount(states, a, due, fates, n - 1);
      assert fates[..n][..n - 1] == fates[..n - 1];
      assert Visit(states[n - 1], a, due[n - 1].0, due[n - 1].1, fates[n - 1], states[n]);
    }
  }

  /** Only ids that popping left, or that have been visited, are in the tracker. */
  lemma {:induction false} OnlyVisitedReturn(
    states: seq<State>, a: Args, due: Popped, fates: seq<Fate>, n: nat, id: ObjectId)
    requires Visits(states, a, due, fates) && n <= |fates|
    requires id in states[n].index
    ensures id in states[0].index || exists i :: 0 <= i < n && due[i].0 == id
  {
    if n == 0 {
    } else {
      assert Visit(states[n - 1], a, due[n - 1].0, due[n - 1].1, fates[n - 1], states[n]);
      if id in states[n - 1].index {
        OnlyVisitedReturn(states, a, due, fates, n - 1, id);
      }
    }
  }

  /** The next popped id is absent from the tracker, so deferring it cannot break the index. */
  lemma NextIsAbsent(states: seq<State>, a: Args, due: Popped, fates: seq<Fate>, all: Index)
    requires Visits(states, a, due, fates) && |fates| < |due|
    requires ListsDue(all, a.now, due) && states[0].index == NotDue(all, a.now)
    ensures due[|fates|].0 !in states[|fates|].index
  {
    var n := |fates|;
    if due[n].0 in states[n].index {
      OnlyVisitedReturn(states, a, due, fates, n, due[n].0);
    }
  }

  lemma VisitTouchesItsOwnEntry(
    s: State, a: Args, oid: ObjectId, task: ExpiringTask, fate: Fate, s': State, id: ObjectId)
    requires Visit(s, a, oid, task, fate, s') && id != oid
    ensures id in s'.index <==> id in s.index
    ensures id in s.index ==> s'.index[id] == s.index[id]
  {
  }

  /**
   What becomes of each popped entry in the end: a reclaimed one is tracked with
   the deadline of the new claim, a deferred one is due again after a second, and
   every other one is no longer tracked.
   */
  lemma {:induction false} FateDecides(
    states: seq<State>, a: Args, due: Popped, fates: seq<Fate>, all: Index, i: nat, n: nat)
    requires Visits(states, a, due, fates) && i < n <= |fates|
    requires ListsDue(all, a.now, due) && states[0].index == NotDue(all, a.now)
    ensures match fates[i]
            case Reclaimed(d) =>
              Tracked(d) && Feed.Lookup(states[n].index, due[i].0) == Some(Deadline(d, a.defaultMs))
            case Deferred(at) =>
              && Feed.Lookup(states[n].index, due[i].0).Some?
              && (I64_MIN <= at <= I64_MAX - 1000 ==>
                    Feed.Lookup(states[n].index, due[i].0).value == at + 1000)
            case _ => due[i].0 !in states[n].index
  {
    var m := n - 1;
    assert Visit(states[m], a, due[m].0, due[m].1, fates[m], states[n]);
    if i < m {
      FateDecides(states, a, due, fates, all, i, m);
      VisitTouchesItsOwnEntry(states[m], a, due[m].0, due[m].1, fates[m], states[n], due[i].0);
    } else if due[i].0 in states[i].index {
      OnlyVisitedReturn(states, a, due, fates, i, due[i].0);
    }
  }

  /** Entries that were not due keep their place in the tracker. */
  lemma {:induction false} OthersAreKept(
    states: seq<State>, a: Args, due: Popped, fates: seq<Fate>, all: Index, n: nat, id: ObjectId)
    requires Visits(states, a, due, fates) && n <= |fates|
    requires ListsDue(all, a.now, due) && states[0].index == NotDue(all, a.now)
    requires id in all && !Due(all[id], a.now)
    ensures id in states[n].index && states[n].index[id] == all[id]
  {
    if n == 0 {
    } else {
      OthersAreKept(states, a, due, fates, all, n - 1, id);
      assert Visit(states[n - 1], a, due[n - 1].0, due[n - 1].1, fates[n - 1], states[n]);
      VisitTouchesItsOwnEntry(states[n - 1], a, due[n - 1].0, due[n - 1].1, fates[n - 1], states[n], id);
    }
  }

  /** The tasks this process is handling. */
  class InFlightRegistry {
    var taskIds: set<TaskId>

    constructor ()
      ensures taskIds == {}
    {
      taskIds := {};
    }

    method Contains(t: TaskId) returns (yes: bool)
      ensures yes <==> t in taskIds
    {
      yes := t in taskIds;
    }

    method Snapshot() returns (ids: set<TaskId>)
      ensures ids == taskIds
    {
      ids := taskIds;
    }

    method Insert(t: TaskId) returns (isNew: bool)
      modifies this
      ensures taskIds == old(taskIds) + {t} && (isNew <==> t !in old(taskIds))
    {
      isNew := t !in taskIds;
      taskIds := taskIds + {t};
    }

    method Remove(t: TaskId)
      modifies this
      ensures taskIds == old(taskIds) - {t}
    {
      taskIds := taskIds - {t};
    }
  }

  datatype Turn = Claimed(doc: Doc) | NothingLeft | DatabaseError

  /** The clock never goes back. */
  method ReadClock(since: int) returns (now: int)
    ensures since <= now
  {
    now := *;
    if now < since {
      now := since;
    }
  }

  class WorkerProcess {
    const id: WorkerId
    const defaultMs: nat
    const collection: TaskCollection
    const tracker: ExpiryTracker
    const inFlight: InFlightRegistry
    var available: nat
    var spawned: seq<Doc>

    constructor (id: WorkerId, defaultMs: nat, maxInflight: nat, collection: TaskCollection)
      requires WellIndexed(collection.docs)
      ensures Valid() && this.id == id && this.defaultMs == defaultMs && this.collection == collection
      ensures fresh(tracker) && fresh(inFlight)
      ensures Now() == State(collection.docs, map[], maxInflight, {}, [])
    {
      this.id := id;
      this.defaultMs := defaultMs;
      this.collection := collection;
      tracker := new ExpiryTracker();
      available := maxInflight;
      inFlight := new InFlightRegistry();
      spawned := [];
    }

    ghost predicate Valid()
      reads this, collection, tracker
    {
      tracker.Valid() && WellIndexed(collection.docs)
    }

    ghost function Now(): State
      reads this, collection, tracker, inFlight
    {
      State(collection.docs, tracker.tasks, available, inFlight.taskIds, spawned)
    }

    /** `spawn_claimed_task`: takes over the caller's permit, or gives it back if the task is in flight. */
    method SpawnClaimedTask(d: Doc)
      modifies this, inFlight
      ensures inFlight.taskIds == old(inFlight.taskIds) + {d.taskId}
      ensures d.taskId in old(inFlight.taskIds) ==> available == old(available) + 1 && spawned == old(spawned)
      ensures d.taskId !in old(inFlight.taskIds) ==> available == old(available) && spawned == old(spawned) + [d]
    {
      var isNew := inFlight.Insert(d.taskId);
      if !isNew {
        available := available + 1;
        return;
      }
      spawned := spawned + [d];
    }

    /** One turn of `pump_available_tasks`: take a permit, try to claim, start what was claimed. */
    method PumpOnce(mode: Mode, sort: Sort, now: int) returns (turn: Turn)
      requires Valid() && available > 0
      modifies this, collection, tracker, inFlight
      ensures Valid()
      ensures turn.Claimed? ==> TookOne(old(Now()), Args(id, defaultMs, mode, sort, now), Now(), turn.doc)
      ensures turn.NothingLeft? ==> Now() == old(Now()) && Eligible(Now(), Args(id, defaultMs, mode, sort, now)) == {}
      ensures old(collection.commands) < collection.commands
      ensures turn.DatabaseError? <==> FaultIn(collection.outcomes, old(collection.commands), collection.commands)
      ensures turn.DatabaseError? ==>
                && Now() == old(Now()).(docs := collection.docs)
                && MaybeClaimed(old(collection.docs), collection.docs,
                                ModeFilters(id, defaultMs, old(inFlight.taskIds), mode, now), sort, now)
    {
      available := available - 1;
      var excluded := inFlight.Snapshot();
      var token: ClaimToken := *;
      var answer := collection.ClaimNextTask(id, defaultMs, excluded, mode, sort, token, now);
      match answer {
        case Ok(Some(d)) =>
          Feed.ScheduleExpirationFromTask(d, defaultMs, tracker);
          SpawnClaimedTask(d);
          BestFromOrder(old(Now()), Args(id, defaultMs, mode, sort, now), collection.docs, token, d);
          turn := Claimed(d);
        case Ok(None) =>
          available := available + 1;
          assert Selected(collection.docs, ModeFilters(id, defaultMs, excluded, mode, now)[0]) == {};
          assert mode == Ready ==> Selected(collection.docs, ModeFilters(id, defaultMs, excluded, mode, now)[1]) == {};
          turn := NothingLeft;
        case Err(_) =>
          available := available + 1;
          turn := DatabaseError;
      }
    }

    /**
     `pump_available_tasks`. Work conservation: the pump claims as many documents as
     it has permits or, at its last look, eligible documents, whichever is less,
     unless one of its commands was not answered: that, and nothing else, makes it
     fail and stop. In any case its claims are a chain of best choices. `last` is the
     time it read last, `start` if it did not look.
     */
    method PumpAvailableTasks(mode: Mode, sort: Sort, start: int)
      returns (claimed: seq<Doc>, failed: bool, last: int, ghost states: seq<State>)
      requires Valid()
      modifies this, collection, tracker, inFlight
      ensures Valid() && start <= last
      ensures Chain(states, Args(id, defaultMs, mode, sort, last), claimed) && states[0] == old(Now())
      ensures available == old(available) - |claimed|
      ensures Now() == states[|claimed|].(docs := collection.docs)
      ensures MaybeClaimed(states[|claimed|].docs, collection.docs,
                           ModeFilters(id, defaultMs, states[|claimed|].inFlight, mode, last), sort, last)
      ensures old(collection.commands) <= collection.commands
      ensures failed <==> FaultIn(collection.outcomes, old(collection.commands), collection.commands)
      ensures !failed ==>
                && Now() == states[|claimed|]
                && var n := |Eligible(old(Now()), Args(id, defaultMs, mode, sort, last))|;
                |claimed| == if old(available) <= n then old(available) else n
    {
      claimed, failed, last, states := [], false, start, [Now()];
      ghost var exhausted := false;
      while available > 0
        invariant Valid() && !failed && start <= last
        invariant old(collection.commands) <= collection.commands
        invariant !FaultIn(collection.outcomes, old(collection.commands), collection.commands)
        invariant Chain(states, Args(id, defaultMs, mode, sort, last), claimed)
        invariant states[0] == old(Now()) && states[|claimed|] == Now()
        invariant available + |claimed| == old(available)
        invariant exhausted ==> Eligible(Now(), Args(id, defaultMs, mode, sort, last)) == {}
        decreases available
      {
        var now := ReadClock(last);
        ChainUpToLater(states, Args(id, defaultMs, mode, sort, last), claimed, now);
        last := now;
        ghost var asked := collection.commands;
        var turn := PumpOnce(mode, sort, now);
        FaultsAddUp(collection.outcomes, old(collection.commands), asked, collection.commands);
        if turn.NothingLeft? {
          exhausted := true;
          break;
        }
        if turn.DatabaseError? {
          failed := true;
          break;
        }
        OneMoreClaim(states, Args(id, defaultMs, mode, sort, now), claimed, turn.doc, Now());
        claimed, states := claimed + [turn.doc], states + [Now()];
      }
      PumpIsExhaustive(states, Args(id, defaultMs, mode, sort, last), claimed);
    }

    /** A targeted claim has no mode of its own and no sort order. */
    ghost function DueArgs(now: int): Args {
      Args(id, defaultMs, StaleRecovery, None, now)
    }

    /** One popped entry. It is not in the tracker, which is what makes deferring it safe. */
    method VisitDue(oid: ObjectId, task: ExpiringTask, popped: int) returns (fate: Fate)
      requires Valid() && oid !in tracker.tasks
      modifies this, collection, tracker, inFlight
      ensures Valid() && !fate.Unvisited?
      ensures old(collection.commands) <= collection.commands
      ensures GaveError(fate) <==> FaultIn(collection.outcomes, old(collection.commands), collection.commands)
      ensures Visit(old(Now()), DueArgs(popped), oid, task, fate, Now())
    {
      var now := ReadClock(popped);
      if task.taskId.Some? {
        var handled := inFlight.Contains(task.taskId.value);
        if handled {
          return Forgotten(false, now);
        }
      }
      if available == 0 {
        tracker.Defer(oid, task, now, DEFER_MS);
        return Fate.Deferred(now);
      }
      available := available - 1;
      var excluded := inFlight.Snapshot();
      var token: ClaimToken := *;
      var answer := collection.ClaimExpiredTaskById(oid, id, defaultMs, task.taskId, excluded, token, now);
      match answer {
        case Ok(Some(d)) =>
          assert Took(old(Now()).docs, collection.docs, DueFilter(old(Now()), DueArgs(now), oid, task), None,
                      token, now, d);
          Feed.ScheduleExpirationFromTask(d, defaultMs, tracker);
          SpawnClaimedTask(d);
          fate := Reclaimed(d);
        case Ok(None) =>
          available := available + 1;
          fate := Forgotten(false, now);
        case Err(_) =>
          available := available + 1;
          fate := Forgotten(true, now);
      }
    }

    /** `pump_expired_tasks`: pops what is due at `now` and visits the entries until one has to be deferred. */
    method PumpExpiredTasks(now: int) returns (due: Popped, fates: seq<Fate>, ghost states: seq<State>)
      requires Valid()
      modifies this, collection, tracker, inFlight
      ensures Valid()
      ensures ListsDue(old(tracker.tasks), now, due) && |fates| == |due|
      ensures old(collection.commands) <= collection.commands
      ensures (exists i :: 0 <= i < |fates| && GaveError(fates[i])) <==>
              FaultIn(collection.outcomes, old(collection.commands), collection.commands)
      ensures Visits(states, DueArgs(now), due, fates)
      ensures states[0] == old(Now()).(index := NotDue(old(tracker.tasks), now)) && states[|due|] == Now()
    {
      due := tracker.PopDue(now);
      fates, states := [], [Now()];
      ghost var a := DueArgs(now);
      var deferred := false;
      for i := 0 to |due|
        invariant Valid() && |fates| == i
        invariant Visits(states, a, due, fates)
        invariant states[0] == old(Now()).(index := NotDue(old(tracker.tasks), now)) && states[i] == Now()
        invariant old(collection.commands) <= collection.commands
        invariant (exists j :: 0 <= j < |fates| && GaveError(fates[j])) <==>
                  FaultIn(collection.outcomes, old(collection.commands), collection.commands)
        invariant !deferred ==> forall j | 0 <= j < i :: !fates[j].Deferred? && !fates[j].Unvisited?
        invariant deferred ==> exists j :: 0 <= j < i && fates[j].Deferred?
      {
        // The source breaks out of its loop here; what it drops is recorded as unvisited.
        var fate := Unvisited;
        ghost var asked, before := collection.commands, fates;
        if !deferred {
          NextIsAbsent(states, a, due, fates, old(tracker.tasks));
          fate := VisitDue(due[i].0, due[i].1, now);
          deferred := fate.Deferred?;
        }
        FaultsAddUp(collection.outcomes, old(collection.commands), asked, collection.commands);
        OneMoreVisit(states, a, due, fates, fate, Now());
        fates, states := fates + [fate], states + [Now()];
        FateAdded(before, fate);
      }
    }
  }
}
