/** Histories that start with a given plan. */
module Rehearsal {
  import opened States
  import opened Plans
  import opened Tables
  import opened Invariants
  import opened Effects
  import opened Preservation
  import opened History
  import opened Progress
  import opened Continuing
  import opened Replay

  /** The ids 0 .. n. */
  function Ids(n: nat): (s: seq<Id>)
    ensures |s| == n && forall x :: 0 <= x < n ==> s[x] == x
  {
    seq(n, x => x)
  }

  /** Run 0 starts with the plan; job x of the plan and its attempt get id x. */
  function Begin(plan: seq<PlannedJob>): Step {
    StartPublished(0, plan, Ids(|plan|), Ids(|plan|), 0)
  }

  ghost predicate Leads(plan: seq<PlannedJob>, dbs: seq<DB>, steps: seq<Step>, db: DB) {
    && Execution(dbs, steps) && steps != [] && steps[0] == Begin(plan)
    && (forall n :: 0 <= n < |steps| ==> Known(steps[n]))
    && dbs[|steps|] == db
  }

  /** Some history that starts with the plan leads to `db`. */
  ghost predicate Attainable(plan: seq<PlannedJob>, db: DB) {
    exists dbs, steps :: Leads(plan, dbs, steps, db)
  }

  // ---- The tables of run 0, as the plan laid them out ----

  ghost predicate Row(plan: seq<PlannedJob>, db: DB, x: int)
    requires 0 <= x < |plan|
  {
    x in db.jobs && db.jobs[x].run == 0 && db.jobs[x].required == plan[x].required
  }

  /** Dependency `e` is one the plan asks for. */
  ghost predicate Asked(plan: seq<PlannedJob>, e: Edge) {
    0 <= e.job < |plan| && exists d :: d in plan[e.job].dependsOn && Named(plan, d) && e.needs == Slot(plan, d)
  }

  ghost predicate LaidOut(plan: seq<PlannedJob>, db: DB) {
    && 0 in db.runs && db.runs[0].jobs == Ids(|plan|)
    && (forall x {:trigger Row(plan, db, x)} :: 0 <= x < |plan| ==> Row(plan, db, x))
    && (forall e: Edge :: 0 <= e.job < |plan| ==> (e in db.deps <==> Asked(plan, e)))
  }

  lemma LaidOutStays(plan: seq<PlannedJob>, db: DB, db': DB)
    requires LaidOut(plan, db) && SameLayout(db, db')
    ensures LaidOut(plan, db')
  {
    forall x | 0 <= x < |plan| ensures Row(plan, db', x) { assert Row(plan, db, x); }
    forall e: Edge | 0 <= e.job < |plan| ensures e in db'.deps <==> Asked(plan, e) {
      assert Row(plan, db, e.job);
    }
  }

  /** The jobs of run 0 are the planned ones. */
  lemma OwnJobs(plan: seq<PlannedJob>, db: DB, j: Id)
    requires Inv(db) && LaidOut(plan, db) && j in db.jobs && db.jobs[j].run == 0
    ensures 0 <= j < |plan|
  {
    assert JobRefs(db, j);
  }

  /** A QUEUED job of run 0 can be leased, acknowledged and completed, as wanted. */
  lemma RunJob(plan: seq<PlannedJob>, db: DB, j: Id, s: JobState) returns (db': DB)
    requires Attainable(plan, db) && Inv(db) && LaidOut(plan, db) && Open(db.runs[0].state)
    requires j in db.jobs && db.jobs[j].run == 0 && db.jobs[j].state == Queued && Final(s)
    ensures Attainable(plan, db') && Inv(db') && LaidOut(plan, db') && Fated(db, db', j, s)
    ensures RunRefs(db', 0) && (Judge(db', db'.runs[0].jobs) == Pending ==> db'.runs[0].state == RunRunning)
  {
    var dbs, steps :| Leads(plan, dbs, steps, db);
    var past := Past(dbs, steps);
    assert Ends(past, dbs, steps, db);
    db' := FinishJob(past, db, 0, j, s);
    StillAttainable(plan, past, db, db');
    LaidOutStays(plan, db, db');
  }

  lemma StillAttainable(plan: seq<PlannedJob>, past: Past, db: DB, db': DB)
    requires Leads(plan, past.dbs, past.steps, db) && Attained(past, db')
    ensures Attainable(plan, db')
  {
    var dbs, steps :| Ends(past, dbs, steps, db');
    assert Leads(plan, dbs, steps, db');
  }

  /** Job `x` waits in the queue if it depends on nothing. */
  predicate RowBorn(plan: seq<PlannedJob>, db: DB, x: int)
    requires 0 <= x < |plan|
  {
    x in db.jobs && db.jobs[x].state == if plan[x].dependsOn == [] then Queued else Created
  }

  /** The published plan, before anybody asks for work. */
  lemma Born(plan: seq<PlannedJob>) returns (db: DB)
    requires Acceptable(plan)
    ensures Attainable(plan, db) && Inv(db) && LaidOut(plan, db) && db.runs[0].state == RunQueued
    ensures forall x {:trigger RowBorn(plan, db, x)} :: 0 <= x < |plan| ==> RowBorn(plan, db, x)
  {
    var s := Begin(plan);
    EmptyOk();
    CanBegin(plan);
    StepKeeps(EMPTY, s);
    db := Next(EMPTY, s);
    FirstStep(plan, s, db);
    BornLaidOut(plan, s, db);
  }

  lemma CanBegin(plan: seq<PlannedJob>)
    requires Acceptable(plan)
    ensures Enabled(EMPTY, Begin(plan))
  {
    assert FreshIds(EMPTY, 0, plan, Ids(|plan|), Ids(|plan|));
  }

  lemma FirstStep(plan: seq<PlannedJob>, s: Step, db: DB)
    requires s == Begin(plan) && Links(EMPTY) && Enabled(EMPTY, s) && db == Next(EMPTY, s)
    ensures Attainable(plan, db)
  {
    assert Takes([EMPTY, db], [s], 0);
    assert Leads(plan, [EMPTY, db], [s], db);
  }

  lemma BornLaidOut(plan: seq<PlannedJob>, s: Step, db: DB)
    requires s == Begin(plan) && Inv(EMPTY) && Enabled(EMPTY, s) && db == Next(EMPTY, s)
    ensures LaidOut(plan, db) && db.runs[0].state == RunQueued
    ensures forall x {:trigger RowBorn(plan, db, x)} :: 0 <= x < |plan| ==> RowBorn(plan, db, x)
  {
    PublishedDeps(EMPTY, s);
    forall x | 0 <= x < |plan| ensures Row(plan, db, x) {
      PublishedRow(EMPTY, s, x);
      assert s.ids[x] == x;
    }
    forall x | 0 <= x < |plan| ensures RowBorn(plan, db, x) {
      PublishedRow(EMPTY, s, x);
      assert s.ids[x] == x;
    }
    forall e: Edge | 0 <= e.job < |plan| ensures e in db.deps <==> Asked(plan, e) { EdgeAsked(plan, e); }
  }

  lemma EdgeAsked(plan: seq<PlannedJob>, e: Edge)
    requires 0 <= e.job < |plan|
    ensures e in PlanEdges(plan, Ids(|plan|)) <==> Asked(plan, e)
  {
    var ids := Ids(|plan|);
    if e in PlanEdges(plan, ids) {
      var i, d :| 0 <= i < |plan| && d in plan[i].dependsOn && Named(plan, d) && e == Edge(ids[i], ids[Slot(plan, d)]);
    }
    if Asked(plan, e) {
      var d :| d in plan[e.job].dependsOn && Named(plan, d) && e.needs == Slot(plan, d);
      assert e == Edge(ids[e.job], ids[Slot(plan, d)]);
    }
  }
}
