/** Which plans can leave an open run, at some moment, without a required job that can move: exactly
    those that are not orderly. Whether it stays that way is the subject of Hanging. */
module Necessity {
  import opened States
  import opened Plans
  import opened Tables
  import opened Invariants
  import opened Effects
  import opened Preservation
  import opened History
  import opened Progress
  import opened Sweeping
  import opened Continuing
  import opened Rehearsal

  /** The run is open, but none of its required jobs waits in the queue or is held by a live lease. */
  ghost predicate Stuck(db: DB, r: Id) {
    && r in db.runs && Open(db.runs[r].state)
    && forall j :: j in db.jobs && db.jobs[j].run == r ==> !CanMove(db, j)
  }

  /** After step `i` published the plan, all completions up to `k` carried a known status. */
  ghost predicate RunsPlan(dbs: seq<DB>, steps: seq<Step>, i: nat, k: nat, plan: seq<PlannedJob>) {
    && Execution(dbs, steps) && i < k < |dbs| && steps[i].StartPublished? && steps[i].plan == plan
    && forall n :: i <= n < k ==> Known(steps[n])
  }

  /** In no history is a run of this plan ever stuck, not even for a moment. */
  ghost predicate NeverStuck(plan: seq<PlannedJob>) {
    forall dbs: seq<DB>, steps: seq<Step>, i: nat, k: nat {:trigger RunsPlan(dbs, steps, i, k, plan)} ::
      RunsPlan(dbs, steps, i, k, plan) ==> !Stuck(dbs[k], steps[i].run)
  }

  // ---- The first job with a misplaced dependency ----

  /** Required job `i` depends on an optional job or on one listed later. */
  ghost predicate Misplaced(plan: seq<PlannedJob>, i: int) {
    0 <= i < |plan| && plan[i].required && exists d :: d in plan[i].dependsOn && !NeedsEarlier(plan, i, d)
  }

  lemma {:induction false} FirstMisplaced(plan: seq<PlannedJob>, i: nat) returns (m: nat)
    requires Misplaced(plan, i)
    ensures Misplaced(plan, m) && forall x :: 0 <= x < m ==> !Misplaced(plan, x)
  {
    m := i;
    if x :| 0 <= x < i && Misplaced(plan, x) { m := FirstMisplaced(plan, x); }
  }

  lemma {:induction false} SlotFound(plan: seq<PlannedJob>, k: nat)
    requires DistinctNames(plan) && k < |plan|
    ensures Named(plan, plan[k].name) && Slot(plan, plan[k].name) == k
  {
    assert Named(plan, plan[k].name);
  }

  // ---- Phase one: the required jobs before it succeed ----

  /** Of the first `m` jobs exactly the required ones have succeeded; nothing failed, and what is ready is queued. */
  ghost predicate DoneUpTo(plan: seq<PlannedJob>, db: DB, m: int) {
    forall x {:trigger RowDone(plan, db, m, x)} :: 0 <= x < |plan| ==> RowDone(plan, db, m, x)
  }

  ghost predicate RowDone(plan: seq<PlannedJob>, db: DB, m: int, x: int)
    requires 0 <= x < |plan|
  {
    && x in db.jobs && db.jobs[x].state in {Created, Queued, Succeeded}
    && (db.jobs[x].state == Succeeded <==> x < m && plan[x].required)
    && (db.jobs[x].state == Created <==> !db.Ready(x))
  }

  /** A required job whose dependencies are all required and earlier is ready in its turn. */
  lemma TurnReady(plan: seq<PlannedJob>, db: DB, m: nat)
    requires Acceptable(plan) && LaidOut(plan, db) && m < |plan| && DoneUpTo(plan, db, m)
    requires plan[m].required && !Misplaced(plan, m)
    ensures db.Ready(m)
  {
    forall e | e in db.deps && e.job == m && e.needs in db.jobs ensures db.jobs[e.needs].state == Succeeded {
      assert Asked(plan, e);
      var d :| d in plan[m].dependsOn && Named(plan, d) && e.needs == Slot(plan, d);
      assert NeedsEarlier(plan, m, d);
      var k :| 0 <= k < m && plan[k].name == d && plan[k].required;
      SlotFound(plan, k);
      assert RowDone(plan, db, m, k);
    }
  }

  /** What a success in turn makes of another job. */
  lemma RowAfter(plan: seq<PlannedJob>, db: DB, db': DB, m: nat, x: nat)
    requires Inv(db) && LaidOut(plan, db) && LaidOut(plan, db') && m < |plan| && x < |plan| && plan[m].required
    requires RowDone(plan, db, m, x) && RowDone(plan, db, m, m) && Fated(db, db', m, Succeeded)
    requires db.jobs[m].state == Queued
    ensures RowDone(plan, db', m + 1, x)
  {
    assert Meets(db, db', m, Succeeded, x);
    SameNeeds(plan, db, db', x);
    ReadyAfter(db, db', m, x);
  }

  lemma SameNeeds(plan: seq<PlannedJob>, db: DB, db': DB, x: nat)
    requires LaidOut(plan, db) && LaidOut(plan, db') && x < |plan|
    ensures forall e: Edge :: e.job == x ==> (e in db'.deps <==> e in db.deps)
  {
  }

  /** Readiness after job `m` succeeded. */
  lemma ReadyAfter(db: DB, db': DB, m: Id, x: Id)
    requires Inv(db) && m in db.jobs && x in db.jobs && db.jobs[m].state == Queued && Fated(db, db', m, Succeeded)
    requires forall e: Edge :: e.job == x ==> (e in db'.deps <==> e in db.deps)
    ensures db'.Ready(x) <==> WaitsOnlyFor(db, m, x)
    ensures db.Ready(x) <==> WaitsOnlyFor(db, m, x) && Edge(x, m) !in db.deps
  {
    forall e | e in db.deps && e.job == x
      ensures e.needs in db.jobs && e.needs in db'.jobs
      ensures db'.jobs[e.needs].state == Succeeded <==> e.needs == m || db.jobs[e.needs].state == Succeeded
    {
      assert EdgeRefs(db, e);
      assert Meets(db, db', m, Succeeded, e.needs);
    }
    if Edge(x, m) in db.deps {
      var e := Edge(x, m);
      assert e in db.deps && e.job == x && e.needs == m;
    }
  }

  /** The verdict is open while some required job is, and no required job before it broke. */
  lemma {:induction false} OpenVerdict(db: DB, list: seq<Id>, i: nat)
    requires forall k :: 0 <= k < |list| ==> list[k] in db.jobs
    requires i < |list| && db.jobs[list[i]].required && db.jobs[list[i]].state != Succeeded
    requires forall k :: 0 <= k <= i && db.jobs[list[k]].required ==> !Broken(db.jobs[list[k]].state)
    ensures Judge(db, list) == Pending
  {
    if i > 0 {
      assert forall k :: 0 <= k < |list[1..]| ==> list[1..][k] == list[k + 1];
      OpenVerdict(db, list[1..], i - 1);
    }
  }

  lemma StaysOpen(plan: seq<PlannedJob>, db: DB, i: nat)
    requires LaidOut(plan, db) && RunRefs(db, 0) && i < |plan| && plan[i].required
    requires i in db.jobs && db.jobs[i].state != Succeeded
    requires forall x :: 0 <= x <= i && plan[x].required ==> x in db.jobs && !Broken(db.jobs[x].state)
    ensures Judge(db, db.runs[0].jobs) == Pending
  {
    var list := db.runs[0].jobs;
    forall k | 0 <= k < |list| ensures list[k] == k && db.jobs[list[k]].required == plan[k].required {
      assert Row(plan, db, k);
    }
    OpenVerdict(db, list, i);
  }

  lemma {:induction false} Advance(plan: seq<PlannedJob>, i: nat, m: nat) returns (db: DB)
    requires Acceptable(plan) && m <= i < |plan| && plan[i].required && forall x :: 0 <= x < i ==> !Misplaced(plan, x)
    ensures Attainable(plan, db) && Inv(db) && LaidOut(plan, db) && Open(db.runs[0].state) && DoneUpTo(plan, db, m)
  {
    if m == 0 {
      db := Born(plan);
      forall x | 0 <= x < |plan| ensures RowDone(plan, db, 0, x) { BornRow(plan, db, x); }
    } else {
      var db0 := Advance(plan, i, m - 1);
      if plan[m - 1].required {
        db := Succeed(plan, db0, i, m - 1);
      } else {
        db := db0;
        forall x | 0 <= x < |plan| ensures RowDone(plan, db, m, x) { assert RowDone(plan, db, m - 1, x); }
      }
    }
  }

  lemma BornRow(plan: seq<PlannedJob>, db: DB, x: nat)
    requires Acceptable(plan) && LaidOut(plan, db) && x < |plan|
    requires forall y {:trigger RowBorn(plan, db, y)} :: 0 <= y < |plan| ==> RowBorn(plan, db, y)
    ensures RowDone(plan, db, 0, x)
  {
    assert RowBorn(plan, db, x);
    if plan[x].dependsOn != [] {
      var d := plan[x].dependsOn[0];
      assert Linkable(plan, x, d);
      var e := Edge(x, Slot(plan, d));
      assert Asked(plan, e) && RowBorn(plan, db, e.needs);
      assert e in db.deps && e.job == x && e.needs in db.jobs;
    } else {
      forall e | e in db.deps ensures e.job != x {
        if e.job == x { NothingAsked(plan, e); }
      }
    }
  }

  lemma NothingAsked(plan: seq<PlannedJob>, e: Edge)
    requires 0 <= e.job < |plan| && plan[e.job].dependsOn == []
    ensures !Asked(plan, e)
  {
  }

  lemma Succeed(plan: seq<PlannedJob>, db: DB, i: nat, m: nat) returns (db': DB)
    requires Acceptable(plan) && m < i < |plan| && plan[i].required && plan[m].required && !Misplaced(plan, m)
    requires Attainable(plan, db) && Inv(db) && LaidOut(plan, db) && Open(db.runs[0].state) && DoneUpTo(plan, db, m)
    ensures Attainable(plan, db') && Inv(db') && LaidOut(plan, db') && Open(db'.runs[0].state) && DoneUpTo(plan, db', m + 1)
  {
    TurnReady(plan, db, m);
    assert RowDone(plan, db, m, m) && Row(plan, db, m);
    db' := RunJob(plan, db, m, Succeeded);
    var next := m + 1;
    forall x | 0 <= x < |plan| ensures RowDone(plan, db', next, x) {
      assert RowDone(plan, db, m, x);
      RowAfter(plan, db, db', m, x);
    }
    assert RowDone(plan, db', next, i);
    forall x | 0 <= x <= i ensures x in db'.jobs && !Broken(db'.jobs[x].state) { assert RowDone(plan, db', next, x); }
    StaysOpen(plan, db', i);
  }

  // ---- Phase two: everything else that can run fails ----

  /** Job `i` was not queued, required jobs before it succeeded, and nothing is half done. */
  ghost predicate Stalled(plan: seq<PlannedJob>, db: DB, i: int) {
    && 0 <= i < |plan| && plan[i].required && i in db.jobs && db.jobs[i].state == Created
    && forall x {:trigger RowStalled(plan, db, i, x)} :: 0 <= x < |plan| ==> RowStalled(plan, db, i, x)
  }

  ghost predicate RowStalled(plan: seq<PlannedJob>, db: DB, i: int, x: int)
    requires 0 <= x < |plan|
  {
    && x in db.jobs && db.jobs[x].state in {Created, Queued, Succeeded, Failed}
    && (x < i && plan[x].required ==> db.jobs[x].state == Succeeded)
  }

  function Waiting(plan: seq<PlannedJob>, db: DB): set<int> {
    set x | 0 <= x < |plan| && x in db.jobs && db.jobs[x].state == Queued
  }

  /** The misplaced dependency has not succeeded, so its dependent was never queued. */
  lemma NeverQueued(plan: seq<PlannedJob>, db: DB, i: nat)
    requires Acceptable(plan) && Inv(db) && LaidOut(plan, db) && Misplaced(plan, i) && DoneUpTo(plan, db, i)
    ensures Stalled(plan, db, i)
  {
    var d :| d in plan[i].dependsOn && !NeedsEarlier(plan, i, d);
    assert Linkable(plan, i, d);
    var k := Slot(plan, d);
    var e := Edge(i, k);
    assert Asked(plan, e);
    assert RowDone(plan, db, i, k) && RowDone(plan, db, i, i);
    assert e in db.deps && e.job == i && e.needs == k;
    forall x | 0 <= x < |plan| ensures RowStalled(plan, db, i, x) { assert RowDone(plan, db, i, x); }
  }

  lemma {:induction false} DrainAll(plan: seq<PlannedJob>, db: DB, i: nat) returns (db': DB)
    requires Attainable(plan, db) && Inv(db) && LaidOut(plan, db) && Open(db.runs[0].state) && Stalled(plan, db, i)
    ensures Attainable(plan, db') && Inv(db') && LaidOut(plan, db') && Open(db'.runs[0].state) && Stalled(plan, db', i)
    ensures Waiting(plan, db') == {}
    decreases |Waiting(plan, db)|
  {
    db' := db;
    if Waiting(plan, db) != {} {
      var x := Pick(Waiting(plan, db));
      var db1 := Fail(plan, db, i, x);
      FewerWaiting(plan, db, db1, x);
      db' := DrainAll(plan, db1, i);
    }
  }

  lemma FewerWaiting(plan: seq<PlannedJob>, db: DB, db': DB, x: int)
    requires x in Waiting(plan, db) && Fated(db, db', x, Failed) && LaidOut(plan, db)
    ensures |Waiting(plan, db')| < |Waiting(plan, db)|
  {
    forall y | y in Waiting(plan, db') ensures y in Waiting(plan, db) - {x} {
      assert Row(plan, db, y);
      assert Meets(db, db', x, Failed, y);
    }
    Smaller(Waiting(plan, db'), Waiting(plan, db), x);
  }

  lemma Smaller(s: set<Id>, t: set<Id>, x: Id)
    requires x in t && s <= t - {x}
    ensures |s| < |t|
  {
    assert t == (t - {x}) + {x};
    SubsetSize(s, t - {x});
  }

  lemma Fail(plan: seq<PlannedJob>, db: DB, i: nat, x: int) returns (db': DB)
    requires Attainable(plan, db) && Inv(db) && LaidOut(plan, db) && Open(db.runs[0].state) && Stalled(plan, db, i)
    requires x in Waiting(plan, db)
    ensures Attainable(plan, db') && Inv(db') && LaidOut(plan, db') && Open(db'.runs[0].state) && Stalled(plan, db', i)
    ensures Fated(db, db', x, Failed)
  {
    assert Row(plan, db, x) && RowStalled(plan, db, i, x);
    db' := RunJob(plan, db, x, Failed);
    StaysStalled(plan, db, db', i, x);
    forall y | 0 <= y <= i && plan[y].required ensures y in db'.jobs && !Broken(db'.jobs[y].state) {
      assert RowStalled(plan, db', i, y);
    }
    StaysOpen(plan, db', i);
  }

  lemma StaysStalled(plan: seq<PlannedJob>, db: DB, db': DB, i: nat, x: int)
    requires Stalled(plan, db, i) && x in Waiting(plan, db) && Fated(db, db', x, Failed)
    ensures Stalled(plan, db', i)
  {
    assert RowStalled(plan, db, i, x);
    forall y | 0 <= y < |plan| ensures RowStalled(plan, db', i, y) {
      assert RowStalled(plan, db, i, y);
      assert Meets(db, db', x, Failed, y);
    }
    assert Meets(db, db', x, Failed, i);
  }

  lemma NothingMoves(plan: seq<PlannedJob>, db: DB, i: nat)
    requires Inv(db) && LaidOut(plan, db) && Open(db.runs[0].state) && Stalled(plan, db, i) && Waiting(plan, db) == {}
    ensures Stuck(db, 0)
  {
    forall j | j in db.jobs && db.jobs[j].run == 0 ensures !CanMove(db, j) {
      OwnJobs(plan, db, j);
      assert RowStalled(plan, db, i, j);
      assert j !in Waiting(plan, db);
      forall a | a in db.attempts && JobOf(db, a) == j ensures !Moveable(db, a) { Know(db, a); }
    }
  }

  /** A plan that is not orderly has a history with a moment in which no required job can move. */
  lemma GetsStuck(plan: seq<PlannedJob>) returns (db: DB)
    requires Acceptable(plan) && !Orderly(plan)
    ensures Attainable(plan, db) && Stuck(db, 0)
  {
    if i :| 0 <= i < |plan| && Misplaced(plan, i) {
      var m := FirstMisplaced(plan, i);
      var db0 := Advance(plan, m, m);
      NeverQueued(plan, db0, m);
      db := DrainAll(plan, db0, m);
      NothingMoves(plan, db, m);
    } else {
      db := Born(plan);
      NoneRequired(plan);
      forall j | j in db.jobs && db.jobs[j].run == 0 ensures !CanMove(db, j) {
        OwnJobs(plan, db, j);
        assert Row(plan, db, j);
      }
    }
  }

  lemma NoneRequired(plan: seq<PlannedJob>)
    requires !Orderly(plan) && forall i :: 0 <= i < |plan| ==> !Misplaced(plan, i)
    ensures forall i :: 0 <= i < |plan| ==> !plan[i].required
  {
    if i :| 0 <= i < |plan| && plan[i].required {
      var k, d :| 0 <= k < |plan| && plan[k].required && d in plan[k].dependsOn && !NeedsEarlier(plan, k, d);
      assert Misplaced(plan, k);
    }
  }

  /** No-stuck-run, exactly: an accepted plan never leaves an open run without a required job that can
      move if and only if some job is required and every required job lists its dependencies, as
      required jobs, before itself. */
  lemma NeverStuckExactly(plan: seq<PlannedJob>)
    requires Acceptable(plan)
    ensures NeverStuck(plan) <==> Orderly(plan)
  {
    if Orderly(plan) {
      forall dbs: seq<DB>, steps: seq<Step>, i: nat, k: nat | RunsPlan(dbs, steps, i, k, plan) ensures !Stuck(dbs[k], steps[i].run) {
        OrderlyMoves(dbs, steps, i, k, plan);
      }
    } else {
      var db := GetsStuck(plan);
      var dbs, steps :| Leads(plan, dbs, steps, db);
      assert RunsPlan(dbs, steps, 0, |steps|, plan);
    }
  }

  lemma OrderlyMoves(dbs: seq<DB>, steps: seq<Step>, i: nat, k: nat, plan: seq<PlannedJob>)
    requires Orderly(plan) && RunsPlan(dbs, steps, i, k, plan)
    ensures !Stuck(dbs[k], steps[i].run)
  {
    forall n | i <= n < k && steps[n].CompleteStep? ensures steps[n].status != DoneUnknown { assert Known(steps[n]); }
    if steps[i].run in dbs[k].runs && Open(dbs[k].runs[steps[i].run].state) { NoStuckRun(dbs, steps, i, k); }
  }
}
