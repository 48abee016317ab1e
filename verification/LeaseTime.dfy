/** The lease in time: when a running task can pass to a different worker. */
module LeaseTime {
  import opened Prelude
  import opened Documents
  import opened Store
  import opened Protocol
  import opened BeatOrder
  import L = Lifecycle

  /** Running for worker `w`. */
  predicate RunningFor(docs: Docs, t: TaskId, w: WorkerId) {
    t in docs && docs[t].status == Some(Running) && docs[t].workerState.Some?
    && docs[t].workerState.value.workerId == w
  }

  function LeaseEnd(d: Doc): int
    requires Shaped(d) && d.status == Some(Running)
  {
    Heartbeat(d).value + d.switchTimeoutMs.value
  }

  /**
   On every reachable running document the three lease computations agree
   exactly if the stored timeout is not negative, and then the tracker's deadline
   is due exactly when the database accepts a stale claim.
   */
  lemma ReachableLeasesAgree(
    h: L.Handler, states: seq<System>, actions: seq<Action>, i: nat, t: TaskId, fallback: nat, now: int)
    requires Run(h, states, actions) && i < |states|
    requires t in states[i].docs && states[i].docs[t].status == Some(Running)
    ensures var d := states[i].docs[t];
            && Tracked(d) && d.switchTimeoutMs.Some?
            && (FilterTimeout(d, fallback) == TaskSwitchTimeout(d, fallback) <==> d.switchTimeoutMs.value >= 0)
            && (d.switchTimeoutMs.value >= 0 && now < I64_MAX ==>
                  (Deadline(d, fallback) <= now <==> StaleAt(d, now, fallback)))
  {
    RunKeepsInv(h, states, actions, i, i);
    var d := states[i].docs[t];
    TimeoutsAgreeExactly(d, fallback);
    if d.switchTimeoutMs.value >= 0 && now < I64_MAX {
      DueIffStale(d, fallback, now);
    }
  }

  /** The heartbeat loop of a running task beats every third of its lease, in nanoseconds. */
  lemma LoopBeatsEveryThird(
    h: L.Handler, states: seq<System>, actions: seq<Action>, i: nat, t: TaskId, fallbackNs: nat)
    requires Run(h, states, actions) && i < |states|
    requires t in states[i].docs && states[i].docs[t].status == Some(Running)
    ensures var d := states[i].docs[t];
            && Shaped(d)
            && var third := HeartbeatInterval(HandlerTimeoutNs(d, fallbackNs));
               d.switchTimeoutMs.value >= 0 ==>
                 3 * third <= 1_000_000 * (LeaseEnd(d) - Heartbeat(d).value) < 3 * third + 3
  {
    RunKeepsInv(h, states, actions, i, i);
    assert Shaped(states[i].docs[t]);
  }

  /** A stale claim by `w` at the current time, with a new token. */
  function Steal(s: System, t: TaskId, w: WorkerId, k: ClaimToken, defaultMs: nat, now: int): Action {
    Take(t, w, k, s.clock, defaultMs, StalePath(now))
  }

  /**
   A stale claim is possible exactly when the lease has run out, whatever the
   claimant's own default; a claim whose `now` was read before the write is
   possible only if one evaluated at the write is.
   */
  lemma StealableIffExpired(
    h: L.Handler, s: System, t: TaskId, w: WorkerId, k: ClaimToken, defaultMs: nat, now: int)
    requires Inv(h, s) && t in s.docs && s.docs[t].status == Some(Running)
    requires k !in s.claims && 0 <= s.clock && now <= s.clock
    ensures Protocol.Enabled(h, s, Steal(s, t, w, k, defaultMs, s.clock)) <==> LeaseEnd(s.docs[t]) <= s.clock
    ensures Protocol.Enabled(h, s, Steal(s, t, w, k, defaultMs, now)) <==> LeaseEnd(s.docs[t]) <= now
    ensures Protocol.Enabled(h, s, Steal(s, t, w, k, defaultMs, now)) ==>
              Protocol.Enabled(h, s, Steal(s, t, w, k, defaultMs, s.clock))
  {
  }

  /**
   A heartbeat that matches moves the end of the lease to the beat's own time plus
   the task's timeout. A beat older than the stored one would move it back;
   `BeatOrder` shows that there is none.
   */
  lemma BeatRenewsTheLease(h: L.Handler, s: System, wr: Write)
    requires Inv(h, s) && wr.BeatWrite? && Matches(s.docs, wr) && 0 <= wr.at
    ensures var after := Apply(s.docs, Update(wr));
            && RunningFor(after, wr.taskId, wr.workerId)
            && Shaped(after[wr.taskId])
            && LeaseEnd(after[wr.taskId]) == wr.at + s.docs[wr.taskId].switchTimeoutMs.value
            && (LeaseEnd(after[wr.taskId]) < LeaseEnd(s.docs[wr.taskId]) <==>
                wr.at < Heartbeat(s.docs[wr.taskId]).value)
  {
    assert Shaped(s.docs[wr.taskId]);
  }

  /** The lease of a running `t` has not run out in `s`. */
  ghost predicate LeaseHolds(s: System, t: TaskId) {
    t in s.docs && Shaped(s.docs[t]) && s.docs[t].status == Some(Running) && s.clock < LeaseEnd(s.docs[t])
  }

  lemma StepKeepsTheOwner(h: L.Handler, s: System, a: Action, s': System, t: TaskId, w: WorkerId)
    requires Step(h, s, a, s')
    requires RunningFor(s.docs, t, w) && LeaseHolds(s, t)
    ensures t in s'.docs && s'.docs[t].status == Some(Running) ==> RunningFor(s'.docs, t, w)
  {
  }

  /** Lease safety: while a running task's lease never runs out, it stays with its worker. */
  lemma {:induction false} LeaseSafety(
    h: L.Handler, states: seq<System>, actions: seq<Action>, i: nat, j: nat, t: TaskId, w: WorkerId)
    requires Run(h, states, actions) && i <= j < |states|
    requires RunningFor(states[i].docs, t, w)
    requires forall m | i <= m < j :: LeaseHolds(states[m], t)
    ensures t in states[j].docs && states[j].docs[t].status == Some(Running) ==> RunningFor(states[j].docs, t, w)
  {
    if i == j {
    } else {
      LeaseSafety(h, states, actions, i, j - 1, t, w);
      StepOfRun(h, states, actions, j - 1);
      StepKeepsTheOwner(h, states[j - 1], actions[j - 1], states[j], t, w);
    }
  }

  // ----- beating in time -----

  /** A claim of task `t` by worker `w` with token `k`. */
  datatype Claimant = Claimant(taskId: TaskId, workerId: WorkerId, token: ClaimToken)

  predicate HasTask(docs: Docs, c: Claimant) {
    c.taskId in docs && Owns(docs[c.taskId], c.workerId, c.token)
  }

  /** A heartbeat of claim `c` reaches the database. */
  predicate LandsBeat(a: Action, c: Claimant) {
    || (a.FirstBeat? && a.token == c.token)
    || ((a.Land? || a.Answer?) && a.write.BeatWrite? && a.write.token == c.token)
  }

  function BeatTime(a: Action): int
    requires a.FirstBeat? || a.Land? || a.Answer?
  {
    if a.FirstBeat? then a.at else a.write.at
  }

  /** The claim's own terminal write, the removal of its task, and a reclaim by a restarted worker with its id. */
  predicate GivesUp(a: Action, c: Claimant) {
    match a
    case Land(wr) => !wr.BeatWrite? && wr.token == c.token
    case Answer(wr) => !wr.BeatWrite? && wr.token == c.token
    case Remove(t) => t == c.taskId
    case Take(t, w, _, _, _, path) => t == c.taskId && w == c.workerId && path.OwnPath?
    case _ => false
  }

  /** While the lease holds nobody else can take the task. */
  lemma NoTakeDuringTheLease(h: L.Handler, s: System, a: Action, c: Claimant)
    requires Protocol.Enabled(h, s, a) && !GivesUp(a, c)
    requires HasTask(s.docs, c) && LeaseHolds(s, c.taskId)
    ensures !(a.Take? && a.taskId == c.taskId)
  {
  }

  /** A landing write leaves a held task held; only the claim's own beats touch the heartbeat. */
  lemma LandKeepsTheClaim(h: L.Handler, s: System, wr: Write, c: Claimant)
    requires Inv(h, s) && SentOk(h, s.claims, wr) && !GivesUp(Land(wr), c)
    requires HasTask(s.docs, c)
    ensures var docs' := Apply(s.docs, Update(wr));
            && HasTask(docs', c) && Shaped(s.docs[c.taskId]) && Shaped(docs'[c.taskId])
            && docs'[c.taskId].switchTimeoutMs == s.docs[c.taskId].switchTimeoutMs
            && Heartbeat(docs'[c.taskId]).value ==
               (if LandsBeat(Land(wr), c) then wr.at else Heartbeat(s.docs[c.taskId]).value)
  {
    assert Shaped(s.docs[c.taskId]);
    if wr.token == c.token {
      assert ClaimsMatch(s.docs, s.claims);
      BeatRenewsTheLease(h, s, wr);
    }
  }

  /** While its lease holds, a claim that does not give up keeps its task; only its own beats touch the heartbeat. */
  lemma StepKeepsTheClaim(h: L.Handler, s: System, a: Action, s': System, c: Claimant)
    requires Inv(h, s) && Step(h, s, a, s') && !GivesUp(a, c)
    requires HasTask(s.docs, c) && LeaseHolds(s, c.taskId)
    ensures HasTask(s'.docs, c) && Shaped(s'.docs[c.taskId])
    ensures !(a.Take? && a.taskId == c.taskId)
    ensures s'.docs[c.taskId].switchTimeoutMs == s.docs[c.taskId].switchTimeoutMs
    ensures Heartbeat(s'.docs[c.taskId]).value ==
            if LandsBeat(a, c) then BeatTime(a) else Heartbeat(s.docs[c.taskId]).value
  {
    NoTakeDuringTheLease(h, s, a, c);
    if a.Land? || a.Answer? {
      assert SentOk(h, s.claims, a.write);
      LandKeepsTheClaim(h, s, a.write, c);
    } else if a.FirstBeat? {
      LandKeepsTheClaim(h, s, BeatOf(s, a.token, a.at), c);
    } else {
      OtherStepsKeepTheDocument(h, s, a, s', c);
    }
  }

  lemma OtherStepsKeepTheDocument(h: L.Handler, s: System, a: Action, s': System, c: Claimant)
    requires Step(h, s, a, s') && !GivesUp(a, c) && !(a.Take? && a.taskId == c.taskId)
    requires !a.Land? && !a.Answer? && !a.FirstBeat?
    requires HasTask(s.docs, c)
    ensures c.taskId in s'.docs && s'.docs[c.taskId] == s.docs[c.taskId]
  {
  }

  /** Times and landings of some heartbeats, the task's timeout, and how late they may be. */
  datatype Beats = Beats(times: seq<int>, landed: seq<nat>, timeoutMs: nat, jitter: nat, latency: nat)

  /**
   The heartbeats of claim `c` that count between states `i` and `j` of a run:
   `times[0]` is the heartbeat stored at the start, and `times[x + 1]` is the time
   of the beat that lands as action `landed[x]`. Beats are timed at most an
   interval and `jitter` apart and land within `latency`. The next beat is not
   overdue at `j`.
   */
  ghost predicate BeatsInTime(states: seq<System>, actions: seq<Action>, i: nat, j: nat, c: Claimant, b: Beats)
    requires i <= j < |states| && |actions| < |states| <= |actions| + 1
  {
    && |b.times| == |b.landed| + 1
    && (forall x | 0 <= x < |b.landed| ::
          && i <= b.landed[x] < j
          && LandsBeat(actions[b.landed[x]], c) && BeatTime(actions[b.landed[x]]) == b.times[x + 1]
          && Nanos(b.times[x + 1] - b.times[x]) <= HeartbeatInterval(Nanos(b.timeoutMs)) + Nanos(b.jitter)
          && states[b.landed[x]].clock <= b.times[x + 1] + b.latency)
    && (forall x, y | 0 <= x < y < |b.landed| :: b.landed[x] < b.landed[y])
    && Nanos(states[j].clock - b.times[|b.landed|] - b.latency) <=
       HeartbeatInterval(Nanos(b.timeoutMs)) + Nanos(b.jitter)
  }

  /** The number of counted beats that have landed before action `m`. */
  function Landed(landed: seq<nat>, m: nat): (x: nat)
    ensures x <= |landed|
    ensures x > 0 ==> landed[x - 1] < m
    ensures x < |landed| && (forall y, z | 0 <= y < z < |landed| :: landed[y] < landed[z]) ==> m <= landed[x]
  {
    if landed == [] then 0
    else if landed[|landed| - 1] < m then |landed|
    else Landed(landed[..|landed| - 1], m)
  }

  /** Going over action `m` either no counted beat lands, or the next one. */
  lemma LandedStep(landed: seq<nat>, m: nat)
    requires forall x, y | 0 <= x < y < |landed| :: landed[x] < landed[y]
    ensures var x, x' := Landed(landed, m), Landed(landed, m + 1);
            x' == x || (x' == x + 1 && landed[x] == m)
  {
  }

  /** Going over action `m`, the last counted beat stays the same or is the one that lands. */
  lemma LastBeatFollows(
    states: seq<System>, actions: seq<Action>, i: nat, j: nat, c: Claimant, b: Beats, m: nat)
    requires i <= m < j < |states| && |states| == |actions| + 1
    requires BeatsInTime(states, actions, i, j, c, b)
    ensures b.times[Landed(b.landed, m + 1)] == b.times[Landed(b.landed, m)]
            || (LandsBeat(actions[m], c) && BeatTime(actions[m]) == b.times[Landed(b.landed, m + 1)])
  {
    LandedStep(b.landed, m);
  }

  /** An interval and jitter from the last beat the next is timed, and `latency` later the lease still lasts. */
  lemma BeatLeavesMargin(gap: int, b: Beats)
    requires Nanos(gap) <= HeartbeatInterval(Nanos(b.timeoutMs)) + Nanos(b.jitter)
    requires 3 * (b.jitter + b.latency) < 2 * b.timeoutMs
    ensures gap + b.latency < b.timeoutMs
  {
    assert 3 * HeartbeatInterval(Nanos(b.timeoutMs)) <= Nanos(b.timeoutMs);
  }

  lemma ClockGrows(h: L.Handler, states: seq<System>, actions: seq<Action>, m: nat, n: nat)
    requires Run(h, states, actions) && m <= n < |states|
    ensures states[m].clock <= states[n].clock
  {
    RunKeepsInv(h, states, actions, m, n);
  }

  lemma EarlierIsSoon(
    states: seq<System>, actions: seq<Action>, i: nat, j: nat, c: Claimant, b: Beats, now: int, x: nat)
    requires i <= j < |states| && |states| == |actions| + 1
    requires BeatsInTime(states, actions, i, j, c, b) && x <= |b.landed|
    requires 3 * (b.jitter + b.latency) < 2 * b.timeoutMs
    requires now <= states[if x < |b.landed| then b.landed[x] else j].clock
    ensures now < b.times[x] + b.timeoutMs
  {
    if x < |b.landed| {
      BeatLeavesMargin(b.times[x + 1] - b.times[x], b);
    } else {
      BeatLeavesMargin(states[j].clock - b.times[x] - b.latency, b);
    }
  }

  /** Between two counted beats the clock stays within the timeout of the earlier one. */
  lemma NextBeatIsSoon(
    h: L.Handler, states: seq<System>, actions: seq<Action>, i: nat, j: nat, c: Claimant, b: Beats, m: nat)
    requires Run(h, states, actions) && i <= m <= j < |states|
    requires BeatsInTime(states, actions, i, j, c, b)
    requires 3 * (b.jitter + b.latency) < 2 * b.timeoutMs
    ensures states[m].clock < b.times[Landed(b.landed, m)] + b.timeoutMs
  {
    var x := Landed(b.landed, m);
    ClockGrows(h, states, actions, m, if x < |b.landed| then b.landed[x] else j);
    EarlierIsSoon(states, actions, i, j, c, b, states[m].clock, x);
  }

  /** The claim holds its task, its lease lasts, and the stored heartbeat is as late as the last counted beat. */
  ghost predicate OnSchedule(s: System, c: Claimant, timeoutMs: nat, lastBeat: int) {
    && HasTask(s.docs, c) && LeaseHolds(s, c.taskId)
    && s.docs[c.taskId].switchTimeoutMs == Some(timeoutMs)
    && lastBeat <= Heartbeat(s.docs[c.taskId]).value
  }

  /** Step `m` of a run, and how it stands to the counted beats: `last[m]` is the time of the last one before it. */
  ghost predicate PacedAt(
    h: L.Handler, states: seq<System>, actions: seq<Action>, c: Claimant, timeoutMs: nat, last: seq<int>, m: nat)
    requires m < |actions| && |states| == |actions| + 1 == |last|
  {
    && Inv(h, states[m]) && Step(h, states[m], actions[m], states[m + 1]) && !GivesUp(actions[m], c)
    && states[m + 1].clock < last[m + 1] + timeoutMs
    && (c.token in states[m].claims ==> InOrder(states[m], c.token))
    && (last[m + 1] == last[m] || (LandsBeat(actions[m], c) && BeatTime(actions[m]) == last[m + 1]))
  }

  lemma StepKeepsTheSchedule(
    h: L.Handler, states: seq<System>, actions: seq<Action>, c: Claimant, timeoutMs: nat, last: seq<int>, m: nat)
    requires m < |actions| && |states| == |actions| + 1 == |last|
    requires PacedAt(h, states, actions, c, timeoutMs, last, m)
    requires OnSchedule(states[m], c, timeoutMs, last[m])
    ensures OnSchedule(states[m + 1], c, timeoutMs, last[m + 1])
    ensures !(actions[m].Take? && actions[m].taskId == c.taskId)
  {
    StepKeepsTheClaim(h, states[m], actions[m], states[m + 1], c);
    if LandsBeat(actions[m], c) {
      BeatIsNewest(h, states[m], actions[m], c);
    }
  }

  /** A beat of a claim that holds its task is as late as the stored heartbeat. */
  lemma BeatIsNewest(h: L.Handler, s: System, a: Action, c: Claimant)
    requires Inv(h, s) && Protocol.Enabled(h, s, a) && LandsBeat(a, c) && HasTask(s.docs, c)
    requires c.token in s.claims ==> InOrder(s, c.token)
    ensures Heartbeat(s.docs[c.taskId]).Some? && Heartbeat(s.docs[c.taskId]).value <= BeatTime(a)
  {
    assert Shaped(s.docs[c.taskId]) && Holds(s.docs[c.taskId], c.token);
    assert ClaimsMatch(s.docs, s.claims);
  }

  lemma {:induction false} PacedKeepsTheTask(
    h: L.Handler, states: seq<System>, actions: seq<Action>, i: nat, j: nat, c: Claimant,
    timeoutMs: nat, last: seq<int>)
    requires i <= j <= |actions| && |states| == |actions| + 1 == |last|
    requires OnSchedule(states[i], c, timeoutMs, last[i])
    requires forall m | i <= m < j :: PacedAt(h, states, actions, c, timeoutMs, last, m)
    ensures OnSchedule(states[j], c, timeoutMs, last[j])
  {
    if i == j {
    } else {
      PacedKeepsTheTask(h, states, actions, i, j - 1, c, timeoutMs, last);
      StepKeepsTheSchedule(h, states, actions, c, timeoutMs, last, j - 1);
    }
  }

  /** The time of the last counted beat before each action. */
  function LastBeats(times: seq<int>, landed: seq<nat>, n: nat): (last: seq<int>)
    requires |times| == |landed| + 1
    ensures |last| == n && forall m | 0 <= m < n :: last[m] == times[Landed(landed, m)]
  {
    seq(n, m requires 0 <= m => times[Landed(landed, m)])
  }

  lemma ScheduleIsPaced(
    h: L.Handler, states: seq<System>, actions: seq<Action>, i: nat, j: nat, c: Claimant, b: Beats, m: nat)
    requires Run(h, states, actions) && i <= m < j < |states|
    requires BeatsInTime(states, actions, i, j, c, b)
    requires 3 * (b.jitter + b.latency) < 2 * b.timeoutMs && !GivesUp(actions[m], c)
    ensures PacedAt(h, states, actions, c, b.timeoutMs, LastBeats(b.times, b.landed, |states|), m)
  {
    StepOfRun(h, states, actions, m);
    NextBeatIsSoon(h, states, actions, i, j, c, b, m + 1);
    RunKeepsOrder(h, states, actions, m);
    LastBeatFollows(states, actions, i, j, c, b, m);
  }

  /**
   Beating keeps the task. If a claim's beats are timed a third of the timeout
   apart and are late, in timing and landing together, by less than two thirds of
   it, then the lease never runs out, the claim still holds its task, and nobody
   else has taken it: unless the claim itself finished it, the task was removed, or
   its own worker id restarted.
   */
  lemma BeatingKeepsTheTask(
    h: L.Handler, states: seq<System>, actions: seq<Action>, i: nat, j: nat, c: Claimant, b: Beats, m: nat)
    requires Run(h, states, actions) && i <= m <= j < |states|
    requires HasTask(states[i].docs, c) && states[i].docs[c.taskId].switchTimeoutMs == Some(b.timeoutMs)
    requires BeatsInTime(states, actions, i, j, c, b)
    requires Heartbeat(states[i].docs[c.taskId]) == Some(b.times[0])
    requires 3 * (b.jitter + b.latency) < 2 * b.timeoutMs
    requires forall n | i <= n < m :: !GivesUp(actions[n], c)
    ensures HasTask(states[m].docs, c) && LeaseHolds(states[m], c.taskId)
    ensures forall n | i <= n < m :: !(actions[n].Take? && actions[n].taskId == c.taskId)
  {
    var last := LastBeats(b.times, b.landed, |states|);
    forall n | i <= n < m ensures PacedAt(h, states, actions, c, b.timeoutMs, last, n) {
      ScheduleIsPaced(h, states, actions, i, j, c, b, n);
    }
    BeatsBegin(h, states, actions, i, j, c, b);
    PacedKeepsTheTask(h, states, actions, i, m, c, b.timeoutMs, last);
    forall n | i <= n < m ensures !(actions[n].Take? && actions[n].taskId == c.taskId) {
      PacedKeepsTheTask(h, states, actions, i, n, c, b.timeoutMs, last);
      StepKeepsTheSchedule(h, states, actions, c, b.timeoutMs, last, n);
    }
  }

  lemma BeatsBegin(
    h: L.Handler, states: seq<System>, actions: seq<Action>, i: nat, j: nat, c: Claimant, b: Beats)
    requires Run(h, states, actions) && i <= j < |states|
    requires HasTask(states[i].docs, c) && states[i].docs[c.taskId].switchTimeoutMs == Some(b.timeoutMs)
    requires BeatsInTime(states, actions, i, j, c, b)
    requires Heartbeat(states[i].docs[c.taskId]) == Some(b.times[0])
    requires 3 * (b.jitter + b.latency) < 2 * b.timeoutMs
    ensures OnSchedule(states[i], c, b.timeoutMs, LastBeats(b.times, b.landed, |states|)[i])
  {
    NextBeatIsSoon(h, states, actions, i, j, c, b, i);
    RunKeepsInv(h, states, actions, i, i);
    assert Landed(b.landed, i) == 0;
  }
}
