/**
 `ExpiryTracker`: the worker's two-way index of running tasks, from object id to
 deadline and from deadline to object ids. The plain id-to-task map is its
 specification; `Consistent` says the other direction is exactly its inverse.
 */
module Expiry {
  import opened Prelude
  import opened Documents

  datatype ExpiringTask = ExpiringTask(taskId: Option<TaskId>, expiresAtMs: Option<int>)

  type Index = map<ObjectId, ExpiringTask>
  /** A point in time in milliseconds, the key of the ordered map. */
  datatype Instant = At(ms: int)

  type Buckets = map<Instant, set<ObjectId>>

  predicate InBucket(deadlines: Buckets, d: Instant, id: ObjectId) {
    d in deadlines && id in deadlines[d]
  }

  /** An id is in bucket d exactly when its entry has deadline d, and no bucket is empty. */
  ghost predicate Consistent(tasks: Index, deadlines: Buckets) {
    && (forall id <- tasks :: tasks[id].expiresAtMs.Some? && InBucket(deadlines, At(tasks[id].expiresAtMs.value), id))
    && (forall d, id | InBucket(deadlines, d, id) :: id in tasks && tasks[id].expiresAtMs == Some(d.ms))
    && (forall d <- deadlines :: deadlines[d] != {})
  }

  lemma SameBuckets(tasks: Index, a: Buckets, b: Buckets)
    requires Consistent(tasks, a) && Consistent(tasks, b)
    ensures forall d <- a :: d in b && a[d] <= b[d]
  {
    forall d <- a ensures d in b && a[d] <= b[d] {
      var id: ObjectId :| id in a[d];
      assert InBucket(a, d, id);
      forall x <- a[d] ensures x in b[d] {
        assert InBucket(a, d, x);
      }
    }
  }

  /** The plain map determines the buckets, and no id is in two of them. */
  lemma BucketsAreDetermined(tasks: Index, a: Buckets, b: Buckets)
    requires Consistent(tasks, a) && Consistent(tasks, b)
    ensures a == b
    ensures forall d, e, id | InBucket(a, d, id) && InBucket(a, e, id) :: d == e
  {
    SameBuckets(tasks, a, b);
    SameBuckets(tasks, b, a);
    assert forall d <- a :: a[d] == b[d];
  }

  /** Taking an id out of its entry and out of its bucket keeps the two directions inverse. */
  lemma OutOfBucket(tasks: Index, deadlines: Buckets, id: ObjectId)
    requires Consistent(tasks, deadlines) && id in tasks
    ensures var d := At(tasks[id].expiresAtMs.value);
            && d in deadlines
            && Consistent(tasks - {id},
                 if deadlines[d] - {id} == {} then deadlines - {d} else deadlines[d := deadlines[d] - {id}])
  {
    var d := At(tasks[id].expiresAtMs.value);
    var rest := if deadlines[d] - {id} == {} then deadlines - {d} else deadlines[d := deadlines[d] - {id}];
    forall e, x ensures InBucket(rest, e, x) <==> InBucket(deadlines, e, x) && x != id {
      if InBucket(deadlines, e, x) && e == d && x != id {
        assert x in deadlines[d] - {id};
      }
    }
  }

  lemma BucketGone(tasks: Index, deadlines: Buckets, d: Instant)
    requires Consistent(tasks, deadlines) && d in deadlines
    ensures Consistent(tasks - deadlines[d], deadlines - {d})
    ensures tasks - deadlines[d] == Outside(tasks, [d])
    ensures forall id <- tasks :: id in deadlines[d] <==> tasks[id].expiresAtMs == Some(d.ms)
  {
    forall id <- tasks ensures id in deadlines[d] <==> tasks[id].expiresAtMs == Some(d.ms) {
      assert InBucket(deadlines, At(tasks[id].expiresAtMs.value), id);
      assert InBucket(deadlines, d, id) <==> id in deadlines[d];
    }
    var rest := tasks - deadlines[d];
    forall e, id ensures InBucket(deadlines - {d}, e, id) <==> InBucket(deadlines, e, id) && e != d {
    }
    forall id <- rest ensures InBucket(deadlines - {d}, At(rest[id].expiresAtMs.value), id) {
      assert InBucket(deadlines, At(tasks[id].expiresAtMs.value), id);
    }
  }

  // ----- the operations on the plain map -----

  function KnownTaskId(m: Index, id: ObjectId, taskId: Option<TaskId>): Option<TaskId> {
    if taskId.Some? then taskId else if id in m then m[id].taskId else None
  }

  function Upserted(m: Index, id: ObjectId, taskId: Option<TaskId>, heartbeatAt: int, timeoutMs: nat): Index {
    m[id := ExpiringTask(KnownTaskId(m, id, taskId), Some(DeadlineFor(heartbeatAt, timeoutMs)))]
  }

  function Deferred(m: Index, id: ObjectId, task: ExpiringTask, now: int, delayMs: nat): Index {
    m[id := task.(expiresAtMs := Some(DeadlineFor(now, delayMs)))]
  }

  predicate Due(task: ExpiringTask, now: int) {
    task.expiresAtMs.Some? && task.expiresAtMs.value <= now
  }

  function NotDue(m: Index, now: int): Index {
    map id | id in m && !Due(m[id], now) :: m[id]
  }

  type Popped = seq<(ObjectId, ExpiringTask)>

  /** `due` lists the due entries of `m`, each once, in nondecreasing order of deadline. */
  ghost predicate ListsDue(m: Index, now: int, due: Popped) {
    && (forall i | 0 <= i < |due| :: due[i].0 in m && m[due[i].0] == due[i].1 && Due(due[i].1, now))
    && (forall i, j | 0 <= i < j < |due| :: due[i].0 != due[j].0)
    && (forall i, j | 0 <= i < j < |due| :: due[i].1.expiresAtMs.value <= due[j].1.expiresAtMs.value)
    && (forall id <- m | Due(m[id], now) :: exists i :: 0 <= i < |due| && due[i].0 == id)
  }

  // ----- iteration in key order, as a BTreeMap does -----

  predicate IsLeast(x: Instant, s: set<Instant>) {
    x in s && forall y <- s :: x.ms <= y.ms
  }

  lemma {:induction false} LeastExists(s: set<Instant>)
    requires s != {}
    ensures exists x :: IsLeast(x, s)
  {
    var y: Instant :| y in s;
    if s == {y} {
      assert IsLeast(y, s);
    } else {
      LeastExists(s - {y});
      var x :| IsLeast(x, s - {y});
      assert forall z <- s :: z == y || z in s - {y};
      assert IsLeast(if x.ms <= y.ms then x else y, s);
    }
  }

  function Least(s: set<Instant>): (x: Instant)
    requires s != {}
    ensures IsLeast(x, s)
  {
    LeastExists(s);
    var x :| IsLeast(x, s);
    x
  }

  function Ascending(s: set<Instant>): (r: seq<Instant>)
    ensures forall x :: x in r <==> x in s
    ensures forall i, j | 0 <= i < j < |r| :: r[i].ms < r[j].ms
  {
    if s == {} then [] else var x := Least(s); [x] + Ascending(s - {x})
  }

  class ExpiryTracker {
    var tasks: Index
    var deadlines: Buckets

    ghost predicate Valid()
      reads this
    {
      Consistent(tasks, deadlines)
    }

    constructor ()
      ensures Valid() && tasks == map[]
    {
      tasks := map[];
      deadlines := map[];
    }

    method ClearRunning()
      modifies this
      ensures Valid() && tasks == map[]
    {
      tasks := map[];
      deadlines := map[];
    }

    /** `entry(d).or_default().insert(id)` */
    method AddToBucket(d: Instant, id: ObjectId)
      modifies this`deadlines
      ensures forall e, x :: InBucket(deadlines, e, x) <==> InBucket(old(deadlines), e, x) || (e == d && x == id)
      ensures forall e <- deadlines :: deadlines[e] == {} ==> e in old(deadlines) && old(deadlines)[e] == {}
    {
      var ids := if d in deadlines then deadlines[d] else {};
      deadlines := deadlines[d := ids + {id}];
    }

    method Remove(id: ObjectId)
      requires Valid()
      modifies this
      ensures Valid() && tasks == old(tasks) - {id}
    {
      if id in tasks {
        var existing := tasks[id];
        tasks := tasks - {id};
        if existing.expiresAtMs.None? {
          return;
        }
        var deadline := At(existing.expiresAtMs.value);
        if deadline in deadlines {
          var ids := deadlines[deadline] - {id};
          deadlines := if ids == {} then deadlines - {deadline} else deadlines[deadline := ids];
        }
        OutOfBucket(old(tasks), old(deadlines), id);
      }
    }

    method Upsert(id: ObjectId, taskId: Option<TaskId>, heartbeatAt: int, timeoutMs: nat)
      requires Valid()
      modifies this
      ensures Valid() && tasks == Upserted(old(tasks), id, taskId, heartbeatAt, timeoutMs)
    {
      var expiresAt := SaturatingAdd(heartbeatAt, ClampToI64(timeoutMs));
      var known := if taskId.Some? then taskId else if id in tasks then tasks[id].taskId else None;
      Remove(id);
      tasks := tasks[id := ExpiringTask(known, Some(expiresAt))];
      AddToBucket(At(expiresAt), id);
    }

    /**
     `defer` does not take the id out of an older bucket: the index stays
     consistent exactly when the id was absent, or had this very deadline.
     */
    method Defer(id: ObjectId, task: ExpiringTask, now: int, delayMs: nat)
      requires Valid()
      modifies this
      ensures tasks == Deferred(old(tasks), id, task, now, delayMs)
      ensures Valid() <==>
              id !in old(tasks) || old(tasks)[id].expiresAtMs == Some(DeadlineFor(now, delayMs))
    {
      var expiresAt := SaturatingAdd(now, ClampToI64(delayMs));
      tasks := tasks[id := task.(expiresAtMs := Some(expiresAt))];
      AddToBucket(At(expiresAt), id);
      ghost var before := old(tasks);
      if id in before && before[id].expiresAtMs != Some(expiresAt) {
        assert InBucket(old(deadlines), At(before[id].expiresAtMs.value), id);
        assert InBucket(deadlines, At(before[id].expiresAtMs.value), id);
      }
    }

    /**
     The wait until the earliest deadline: `None` exactly when nothing is
     tracked, and once it has passed something is due and nothing was before.
     */
    method NextDelay(now: int) returns (delay: Option<nat>)
      requires Valid()
      ensures delay.None? <==> tasks == map[]
      ensures delay.Some? ==> exists id <- tasks :: Due(tasks[id], now + delay.value)
      ensures delay.Some? ==> forall id <- tasks, t: int | now <= t < now + delay.value :: !Due(tasks[id], t)
    {
      if deadlines.Keys == {} {
        return None;
      }
      var next := Least(deadlines.Keys);
      ghost var id: ObjectId :| id in deadlines[next];
      assert InBucket(deadlines, next, id);
      return Some(if next.ms <= now then 0 else next.ms - now);
    }

    /** The inner loop of `pop_due`: takes one whole bucket, in no particular order. */
    method PopBucket(deadline: Instant) returns (popped: Popped)
      requires Valid() && deadline in deadlines
      modifies this
      ensures Valid() && deadlines == old(deadlines) - {deadline}
      ensures tasks == Outside(old(tasks), [deadline])
      ensures ListsBucket(old(tasks), deadline, popped)
    {
      var ids := deadlines[deadline];
      deadlines := deadlines - {deadline};
      popped := [];
      ghost var all, whole := tasks, ids;
      assert forall id <- whole :: InBucket(old(deadlines), deadline, id);
      while ids != {}
        invariant ids <= whole && deadlines == old(deadlines) - {deadline}
        invariant tasks == all - (whole - ids)
        invariant forall j | 0 <= j < |popped| :: popped[j].0 in whole - ids && popped[j].1 == all[popped[j].0]
        invariant forall j, l | 0 <= j < l < |popped| :: popped[j].0 != popped[l].0
        invariant forall id <- whole - ids :: exists j :: 0 <= j < |popped| && popped[j].0 == id
        decreases ids
      {
        var id: ObjectId :| id in ids;
        ghost var before, taken := popped, whole - ids;
        ids := ids - {id};
        if id in tasks {
          popped := popped + [(id, tasks[id])];
          tasks := tasks - {id};
        }
        assert popped[|before|].0 == id && forall j | 0 <= j < |before| :: popped[j] == before[j];
        forall x <- whole - ids ensures exists j :: 0 <= j < |popped| && popped[j].0 == x {
          if x != id {
            assert x in taken;
            var j :| 0 <= j < |before| && before[j].0 == x;
            assert popped[j].0 == x;
          }
        }
      }
      BucketGone(all, old(deadlines), deadline);
    }

    /** Pops exactly the due entries, each once and in order of deadline, and leaves exactly the others. */
    method PopDue(now: int) returns (due: Popped)
      requires Valid()
      modifies this
      ensures Valid() && tasks == NotDue(old(tasks), now)
      ensures ListsDue(old(tasks), now, due)
    {
      ghost var all, buckets := tasks, deadlines;
      var dueDeadlines := Ascending(set d | d in deadlines && d.ms <= now);
      due := [];
      forall j | 0 <= j < |dueDeadlines| ensures dueDeadlines[j] in deadlines {
        assert dueDeadlines[j] in dueDeadlines;
      }
      for i := 0 to |dueDeadlines|
        invariant Valid()
        invariant tasks == Outside(all, dueDeadlines[..i])
        invariant forall j | i <= j < |dueDeadlines| :: dueDeadlines[j] in deadlines
        invariant ListsBuckets(all, dueDeadlines[..i], due)
      {
        var deadline := dueDeadlines[i];
        ghost var rest := tasks;
        var popped := PopBucket(deadline);
        ListsOneMoreBucket(all, rest, dueDeadlines[..i], deadline, due, popped);
        due := due + popped;
        assert dueDeadlines[..i + 1] == dueDeadlines[..i] + [deadline];
      }
      assert dueDeadlines[..|dueDeadlines|] == dueDeadlines;
      DueMeansListed(all, buckets, now, dueDeadlines, due);
    }
  }

  predicate HasDeadlineIn(task: ExpiringTask, ds: seq<Instant>) {
    task.expiresAtMs.Some? && At(task.expiresAtMs.value) in ds
  }

  function Outside(m: Index, ds: seq<Instant>): Index {
    map id | id in m && !HasDeadlineIn(m[id], ds) :: m[id]
  }

  /** Listing the buckets up to `now` is listing the due entries. */
  lemma DueMeansListed(m: Index, buckets: Buckets, now: int, ds: seq<Instant>, due: Popped)
    requires Consistent(m, buckets) && ListsBuckets(m, ds, due)
    requires forall d :: d in ds <==> d in buckets && d.ms <= now
    ensures Outside(m, ds) == NotDue(m, now) && ListsDue(m, now, due)
  {
    forall id <- m ensures Due(m[id], now) <==> HasDeadlineIn(m[id], ds) {
      assert InBucket(buckets, At(m[id].expiresAtMs.value), id);
    }
  }

  /** `popped` lists the entries with this deadline, each once. */
  ghost predicate ListsBucket(m: Index, d: Instant, popped: Popped) {
    && (forall i | 0 <= i < |popped| ::
          popped[i].0 in m && m[popped[i].0] == popped[i].1 && popped[i].1.expiresAtMs == Some(d.ms))
    && (forall i, j | 0 <= i < j < |popped| :: popped[i].0 != popped[j].0)
    && (forall id <- m | m[id].expiresAtMs == Some(d.ms) :: exists i :: 0 <= i < |popped| && popped[i].0 == id)
  }

  /** `due` lists the entries whose deadline is in `ds`, each once and in order of deadline. */
  ghost predicate ListsBuckets(m: Index, ds: seq<Instant>, due: Popped) {
    && (forall i | 0 <= i < |due| :: due[i].0 in m && m[due[i].0] == due[i].1
                                     && HasDeadlineIn(due[i].1, ds))
    && (forall i, j | 0 <= i < j < |due| :: due[i].0 != due[j].0)
    && (forall i, j | 0 <= i < j < |due| :: due[i].1.expiresAtMs.value <= due[j].1.expiresAtMs.value)
    && (forall id <- m | HasDeadlineIn(m[id], ds) ::
          exists i :: 0 <= i < |due| && due[i].0 == id)
  }

  lemma ListsOneMoreBucket(m: Index, rest: Index, ds: seq<Instant>, d: Instant, due: Popped, popped: Popped)
    requires forall id <- m :: m[id].expiresAtMs.Some?
    requires rest == Outside(m, ds)
    requires ListsBuckets(m, ds, due) && ListsBucket(rest, d, popped)
    requires d !in ds && forall x <- ds :: x.ms <= d.ms
    ensures ListsBuckets(m, ds + [d], due + popped)
    ensures Outside(rest, [d]) == Outside(m, ds + [d])
  {
    var all := due + popped;
    assert forall i | 0 <= i < |due| :: all[i] == due[i];
    assert forall i | |due| <= i < |all| :: all[i] == popped[i - |due|];
    forall id <- m | HasDeadlineIn(m[id], ds + [d])
      ensures exists i :: 0 <= i < |all| && all[i].0 == id
    {
      if HasDeadlineIn(m[id], ds) {
        var i :| 0 <= i < |due| && due[i].0 == id;
        assert all[i].0 == id;
      } else {
        assert id in rest;
        var i :| 0 <= i < |popped| && popped[i].0 == id;
        assert all[|due| + i].0 == id;
      }
    }
  }
}
